/**
 * The message controller: the contact list, the history of one conversation, and sending a
 * message (stamp, upload, persist, then live delivery through the socket registry).
 */
module MessageController {
  import opened Wrappers
  import opened Models
  import opened Presence

  /** The query of `getUsersForSidebar`: every stored user but `me`, password projected away. */
  function UsersForSidebar(users: seq<User>, me: UserId): (r: seq<PublicUser>)
    ensures |r| <= |users|
    ensures forall x :: x in r ==> x.id != me
    ensures forall u :: u in users && u.id != me ==> WithoutPassword(u) in r
    ensures forall x :: x in r ==> exists u :: u in users && u.id != me && WithoutPassword(u) == x
  {
    if users == [] then []
    else
      var rest := UsersForSidebar(users[1..], me);
      if users[0].id != me then [WithoutPassword(users[0])] + rest else rest
  }

  /**
   * `getUsersForSidebar`: 200 with the contact list when the query succeeds, 500 when the
   * document store throws.
   */
  function GetUsersForSidebar(stored: Outcome<seq<User>>, me: UserId): (r: Reply<seq<PublicUser>>)
    ensures r.Ok? <==> stored.Done?
    ensures r.Ok? ==> r.data == UsersForSidebar(stored.value, me)
    ensures r.Fail? ==> r.status == 500 && r.message == InternalServerError
  {
    match stored
    case Done(users) => Ok(UsersForSidebar(users, me))
    case Threw => Fail(500, InternalServerError)
  }

  /** A message of the conversation between `a` and `b`, in either direction. */
  predicate Between(m: Message, a: UserId, b: UserId)
  {
    (m.senderId == a && m.receiverId == b) || (m.senderId == b && m.receiverId == a)
  }

  /** The `$or` query of `getMessages`: the messages between `me` and `other`, in store order. */
  function Conversation(msgs: seq<Message>, me: UserId, other: UserId): (r: seq<Message>)
    ensures |r| <= |msgs|
    ensures forall m :: m in r <==> m in msgs && Between(m, me, other)
  {
    if msgs == [] then []
    else
      var rest := Conversation(msgs[1..], me, other);
      if Between(msgs[0], me, other) then [msgs[0]] + rest else rest
  }

  /** Swapping the two participants yields the same history, in the same order. */
  lemma {:induction false} ConversationSymmetric(msgs: seq<Message>, a: UserId, b: UserId)
    ensures Conversation(msgs, a, b) == Conversation(msgs, b, a)
  {
    if msgs != [] {
      ConversationSymmetric(msgs[1..], a, b);
      assert Between(msgs[0], a, b) == Between(msgs[0], b, a);
    }
  }

  /** The conversation keeps the store order: it is the store with the other messages removed. */
  lemma {:induction false} ConversationOfAppend(msgs: seq<Message>, m: Message, a: UserId, b: UserId)
    ensures Conversation(msgs + [m], a, b)
            == Conversation(msgs, a, b) + (if Between(m, a, b) then [m] else [])
  {
    if msgs == [] {
      assert msgs + [m] == [m];
    } else {
      assert (msgs + [m])[1..] == msgs[1..] + [m];
      ConversationOfAppend(msgs[1..], m, a, b);
    }
  }

  /** `getMessages`: 200 with the conversation, 500 when the document store throws. */
  function GetMessages(stored: Outcome<seq<Message>>, me: UserId, other: UserId): (r: Reply<seq<Message>>)
    ensures r.Ok? <==> stored.Done?
    ensures r.Ok? ==> r.data == Conversation(stored.value, me, other)
    ensures r.Fail? ==> r.status == 500 && r.message == InternalServerError
  {
    match stored
    case Done(msgs) => Ok(Conversation(msgs, me, other))
    case Threw => Fail(500, InternalServerError)
  }

  /**
   * `sendMessage` from `sender` (the session's user) to `receiverId` (the route parameter).
   * `upload` is what the media host returns for the body's image, `save` the id and creation
   * time the document store assigns, each of which may throw instead. `uploaded` tells
   * whether the media host was called.
   */
  method SendMessage(db: Database, io: SocketServer, sender: UserId, receiverId: UserId, body: Body,
                     upload: Outcome<string>, save: Outcome<(MessageId, int)>)
    returns (reply: Reply<Message>, uploaded: bool)
    requires io.Valid()
    modifies db`messages, io`emitted
    ensures io.Valid()
    ensures uploaded <==> Truthy(Field(body, "image"))
    ensures reply.Ok? <==> (!uploaded || upload.Done?) && save.Done?
    ensures reply.Fail? ==> reply == Fail(500, InternalServerError)
    ensures reply.Fail? ==> db.messages == old(db.messages) && io.emitted == old(io.emitted)
    ensures reply.Ok? ==>
      && reply.data.senderId == sender
      && reply.data.receiverId == receiverId
      && reply.data.text == Field(body, "text")
      && reply.data.image == (if uploaded then Some(upload.value) else None)
      && reply.data.id == save.value.0 && reply.data.createdAt == save.value.1
      && db.messages == old(db.messages) + [reply.data]
    ensures reply.Ok? ==>
      io.emitted == old(io.emitted) +
        if receiverId in io.userSocketMap && io.userSocketMap[receiverId] != ""
        then [Directed(io.userSocketMap[receiverId], NewMessageEvent, reply.data)]
        else []
    ensures |io.emitted| > |old(io.emitted)| ==> reply.Ok? && reply.data in db.messages
  {
    var imageUrl: Option<string> := None;
    uploaded := false;
    var image := Field(body, "image");
    if Truthy(image) {
      uploaded := true;
      match upload {
        case Threw =>
          return Fail(500, InternalServerError), uploaded;
        case Done(url) =>
          imageUrl := Some(url);
      }
    }
    match save {
      case Threw =>
        return Fail(500, InternalServerError), uploaded;
      case Done(stamp) =>
        var newMessage := Message(stamp.0, sender, receiverId, Field(body, "text"), imageUrl, stamp.1);
        db.messages := db.messages + [newMessage];
        var receiverSocketId := io.GetReceiverSocketId(receiverId);
        if Truthy(receiverSocketId) {
          io.EmitTo(receiverSocketId.value, NewMessageEvent, newMessage);
        }
        reply := Ok(newMessage);
    }
  }

  /**
   * Users `a` and `b` connect, then `a` sends a text to `b`: both show up in the presence
   * broadcast, `b`'s socket receives exactly one `newMessage` carrying the stored record, and
   * `a`'s reply carries that same record.
   */
  method SendToOnlineUser(a: UserId, b: UserId, sa: SocketId, sb: SocketId, stamp: (MessageId, int))
    returns (ghost online: set<UserId>, reply: Reply<Message>, ghost delivered: seq<Emission>, stored: seq<Message>)
    requires a != "" && b != "" && a != "__proto__" && b != "__proto__"
    requires a != b && sa != sb && sb != ""
    ensures online == {a, b}
    ensures reply.Ok? && reply.data.senderId == a && reply.data.receiverId == b
    ensures reply.data.text == Some("hi") && reply.data.image == None
    ensures stored == [reply.data]
    ensures delivered == [Directed(sb, NewMessageEvent, reply.data)]
  {
    var db := new Database([], []);
    var io := new SocketServer();
    io.OnConnect(sa, Some(a));
    io.OnConnect(sb, Some(b));
    online := io.emitted[1].online;
    ghost var before := |io.emitted|;
    var uploaded;
    reply, uploaded := SendMessage(db, io, a, b, map["text" := "hi"], Threw, Done(stamp));
    delivered := io.emitted[before..];
    stored := db.messages;
  }

  /**
   * `a` sends to `c`, who never connected: the message is still stored and returned with 200,
   * and no `newMessage` is emitted anywhere.
   */
  method SendToOfflineUser(a: UserId, c: UserId, sa: SocketId, stamp: (MessageId, int))
    returns (reply: Reply<Message>, ghost delivered: seq<Emission>, stored: seq<Message>)
    requires a != "" && a != c
    ensures reply.Ok? && reply.data.senderId == a && reply.data.receiverId == c
    ensures stored == [reply.data]
    ensures delivered == []
  {
    var db := new Database([], []);
    var io := new SocketServer();
    io.OnConnect(sa, Some(a));
    ghost var before := |io.emitted|;
    var uploaded;
    reply, uploaded := SendMessage(db, io, a, c, map["text" := "hi"], Threw, Done(stamp));
    delivered := io.emitted[before..];
    stored := db.messages;
  }
}

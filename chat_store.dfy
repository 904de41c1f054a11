/**
 * The client's chat store: the contact list, the open conversation, the selected peer, two
 * loading flags, and the `newMessage` listeners registered on the client socket. Each network
 * call's result is a parameter; an `async` action that awaits in the middle is split into the
 * part before the await and the part after it.
 */
module ChatClient {
  import opened Wrappers
  import opened Models

  /** A `sendMessage` call waiting for the server: the receiver and the `messages` it read first. */
  datatype PendingSend = PendingSend(receiverId: UserId, snapshot: seq<Message>)

  /** `n` copies of `m`. */
  function Repeat(m: Message, n: nat): (r: seq<Message>)
    ensures |r| == n
    ensures forall x :: x in r ==> x == m
  {
    if n == 0 then [] else Repeat(m, n - 1) + [m]
  }

  /** How many of the registered listeners captured `sender`. */
  function CountMatching(listeners: seq<UserId>, sender: UserId): (r: nat)
    ensures r <= |listeners|
  {
    if listeners == [] then 0
    else CountMatching(listeners[..|listeners| - 1], sender)
         + (if listeners[|listeners| - 1] == sender then 1 else 0)
  }

  /** No listener fires for a sender none of them captured, and one does for a sender one did. */
  lemma {:induction false} CountMatchingZeroIff(listeners: seq<UserId>, sender: UserId)
    ensures CountMatching(listeners, sender) == 0 <==> sender !in listeners
  {
    if listeners != [] {
      var front := listeners[..|listeners| - 1];
      CountMatchingZeroIff(front, sender);
      assert listeners == front + [listeners[|listeners| - 1]];
    }
  }

  class ChatStore {
    var messages: seq<Message>
    var users: seq<PublicUser>
    var selectedUser: Option<PublicUser>
    var isUserLoading: bool
    /** Spelled as the store spells it, which is the name its components read. */
    var isMessagesLoding: bool
    /** The peer id each registered `newMessage` listener captured, in registration order. */
    var listeners: seq<UserId>

    /** The store's initial state: nothing loaded, nobody selected, nothing loading. */
    constructor ()
      ensures messages == [] && users == [] && selectedUser == None
      ensures !isUserLoading && !isMessagesLoding
      ensures listeners == []
    {
      messages := [];
      users := [];
      selectedUser := None;
      isUserLoading := false;
      isMessagesLoding := false;
      listeners := [];
    }

    /** `getUsers`: the contact list is replaced on success and kept on failure; loading ends either way. */
    method GetUsers(response: Outcome<seq<PublicUser>>)
      modifies this
      ensures users == if response.Done? then response.value else old(users)
      ensures !isUserLoading
      ensures messages == old(messages) && selectedUser == old(selectedUser)
      ensures isMessagesLoding == old(isMessagesLoding) && listeners == old(listeners)
    {
      isUserLoading := true;
      match response {
        case Done(data) => users := data;
        case Threw =>
      }
      isUserLoading := false;
    }

    /** `getMessages(userId)`: the history is replaced on success and kept on failure; loading ends either way. */
    method GetMessages(userId: UserId, response: Outcome<seq<Message>>)
      modifies this
      ensures messages == if response.Done? then response.value else old(messages)
      ensures !isMessagesLoding
      ensures users == old(users) && selectedUser == old(selectedUser)
      ensures isUserLoading == old(isUserLoading) && listeners == old(listeners)
    {
      isMessagesLoding := true;
      match response {
        case Done(data) => messages := data;
        case Threw =>
      }
      isMessagesLoding := false;
    }

    /**
     * `sendMessage` up to its request: it reads the selected peer and the current history.
     * Without a selected peer it throws (None) before any request, changing nothing.
     */
    method BeginSendMessage() returns (pending: Option<PendingSend>)
      ensures pending.None? <==> selectedUser.None?
      ensures pending.Some? ==> pending.value.receiverId == selectedUser.value.id
      ensures pending.Some? ==> pending.value.snapshot == messages
    {
      if selectedUser.None? {
        return None;
      }
      pending := Some(PendingSend(selectedUser.value.id, messages));
    }

    /**
     * `sendMessage` after its request: on success `messages` becomes the history read before
     * the request plus the server's record, so anything appended meanwhile is dropped; on
     * failure nothing changes and the error is rethrown.
     */
    method FinishSendMessage(pending: PendingSend, response: Outcome<Message>) returns (result: Outcome<Message>)
      modifies this`messages
      ensures result == response
      ensures messages == if response.Done? then pending.snapshot + [response.value] else old(messages)
    {
      match response {
        case Done(record) =>
          messages := pending.snapshot + [record];
        case Threw =>
      }
      result := response;
    }

    /**
     * `subscribeToMessages`: with a selected peer, registers one more `newMessage` listener,
     * which captures that peer's id; without one, registers nothing.
     */
    method SubscribeToMessages()
      modifies this`listeners
      ensures listeners == if selectedUser.Some? then old(listeners) + [selectedUser.value.id]
                           else old(listeners)
    {
      if selectedUser.None? {
        return;
      }
      listeners := listeners + [selectedUser.value.id];
    }

    /** `unSubscribeFromMessages`: `socket.off("newMessage")` removes every listener of the event. */
    method UnsubscribeFromMessages()
      modifies this`listeners
      ensures listeners == []
    {
      listeners := [];
    }

    /** The body of one `newMessage` listener, which captured `peer` when it was registered. */
    method RunListener(peer: UserId, m: Message)
      modifies this`messages
      ensures messages == if m.senderId == peer then old(messages) + [m] else old(messages)
    {
      if m.senderId != peer {
        return;
      }
      messages := messages + [m];
    }

    /**
     * A `newMessage` event reaching the client socket: the socket runs every registered
     * listener in order, so `m` is appended once per listener that captured its sender.
     */
    method ReceiveNewMessage(m: Message)
      modifies this`messages
      ensures messages == old(messages) + Repeat(m, CountMatching(listeners, m.senderId))
    {
      var i := 0;
      while i < |listeners|
        invariant 0 <= i <= |listeners|
        invariant messages == old(messages) + Repeat(m, CountMatching(listeners[..i], m.senderId))
      {
        assert listeners[..i + 1][..i] == listeners[..i];
        RunListener(listeners[i], m);
        i := i + 1;
      }
      assert listeners[..i] == listeners;
    }

    /** `setSelectedUser`: only the selected peer changes. */
    method SetSelectedUser(user: Option<PublicUser>)
      modifies this`selectedUser
      ensures selectedUser == user
    {
      selectedUser := user;
    }
  }

  /**
   * The lost update of `sendMessage`: a message from the peer that arrives while the send is
   * in flight is appended by the listener, then overwritten when the send completes.
   */
  method SendRacesWithListener(peer: PublicUser, incoming: Message, sent: Message)
    returns (duringSend: seq<Message>, afterSend: seq<Message>)
    requires incoming.senderId == peer.id && incoming != sent
    ensures incoming in duringSend
    ensures afterSend == [sent] && incoming !in afterSend
  {
    var store := new ChatStore();
    store.SetSelectedUser(Some(peer));
    store.SubscribeToMessages();
    var pending := store.BeginSendMessage();
    store.ReceiveNewMessage(incoming);
    assert Repeat(incoming, 1) == [incoming];
    duringSend := store.messages;
    var _ := store.FinishSendMessage(pending.value, Done(sent));
    afterSend := store.messages;
  }
}

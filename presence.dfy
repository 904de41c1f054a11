/**
 * The realtime layer of the backend: the process-wide registry from user id to socket id,
 * the `connection` and `disconnect` handlers that update it, the `getOnlineUser` broadcast
 * each handler sends, and the lookup the message controller uses to route `newMessage`.
 *
 * The handlers are modelled twice: as a pure transition function over `State`, used to
 * reason about whole event traces, and as the methods of `SocketServer`, which updates its
 * map in place and is proved to follow the transition function. The server's invariant ties
 * its map, its handlers and the broadcasts in its emission log to the run of its history,
 * so every trace lemma below holds of the live object.
 */
module Presence {
  import opened Wrappers
  import opened Models

  const OnlineUsersEvent := "getOnlineUser"
  const NewMessageEvent := "newMessage"

  /**
   * Whether the `userId` query parameter of a handshake registers the socket: it must be a
   * truthy string, and not "__proto__", whose assignment on a plain object goes to the
   * prototype setter, which ignores a string and so creates no key.
   */
  predicate Registers(userId: Option<UserId>)
  {
    Truthy(userId) && userId.value != "__proto__"
  }

  /**
   * The key the disconnect handler deletes. It is the user id captured at connect time;
   * when the handshake carried none, JavaScript turns the undefined key into "undefined".
   */
  function DeletedKey(captured: Option<UserId>): UserId
  {
    match captured
    case Some(u) => u
    case None => "undefined"
  }

  /** A socket event as the server sees it. */
  datatype Event = Connect(socket: SocketId, userId: Option<UserId>) | Disconnect(socket: SocketId)

  /**
   * The realtime state: the registry, the user id each live socket's disconnect handler
   * captured, and the payloads of every `getOnlineUser` broadcast sent so far.
   */
  datatype State = State(
    online: map<UserId, SocketId>,
    handlers: map<SocketId, Option<UserId>>,
    broadcasts: seq<set<UserId>>)

  /** The state at server start: nobody online, no sockets, nothing broadcast. */
  const Initial := State(map[], map[], [])

  /** Socket ids are fresh on connect, and a socket disconnects once, after connecting. */
  predicate Enabled(st: State, e: Event)
  {
    match e
    case Connect(s, _) => s !in st.handlers
    case Disconnect(s) => s in st.handlers
  }

  /**
   * One handler run: update the registry, then broadcast its key set. A registering connect
   * points its user at the new socket; a disconnect removes the captured key; every other
   * entry keeps its socket and no other key appears.
   */
  function Step(st: State, e: Event): (r: State)
    requires Enabled(st, e)
    ensures r.broadcasts == st.broadcasts + [r.online.Keys]
    ensures e.Connect? ==> r.handlers == st.handlers[e.socket := e.userId]
    ensures e.Disconnect? ==> r.handlers == st.handlers - {e.socket}
    ensures e.Connect? && Registers(e.userId) ==>
              e.userId.value in r.online && r.online[e.userId.value] == e.socket
    ensures e.Disconnect? ==> DeletedKey(st.handlers[e.socket]) !in r.online
    ensures forall v :: v in st.online && !Touches(st, e, v) ==> v in r.online && r.online[v] == st.online[v]
    ensures forall v :: v in r.online ==> v in st.online || Touches(st, e, v)
  {
    match e
    case Connect(s, u) =>
      var online := if Registers(u) then st.online[u.value := s] else st.online;
      State(online, st.handlers[s := u], st.broadcasts + [online.Keys])
    case Disconnect(s) =>
      var online := st.online - {DeletedKey(st.handlers[s])};
      State(online, st.handlers - {s}, st.broadcasts + [online.Keys])
  }

  /** Key `v` is the one handler run `e` writes or deletes. */
  predicate Touches(st: State, e: Event, v: UserId)
    requires Enabled(st, e)
  {
    match e
    case Connect(_, u) => Registers(u) && v == u.value
    case Disconnect(s) => v == DeletedKey(st.handlers[s])
  }

  function Front(evs: seq<Event>): seq<Event>
    requires evs != []
  {
    evs[..|evs| - 1]
  }

  function Last(evs: seq<Event>): Event
    requires evs != []
  {
    evs[|evs| - 1]
  }

  /** A trace the Socket.IO runtime can produce: every event is enabled where it occurs. */
  predicate Admissible(evs: seq<Event>)
    decreases |evs|, 0
  {
    evs == [] || (Admissible(Front(evs)) && Enabled(Run(Front(evs)), Last(evs)))
  }

  /** The state after running the handlers for every event of `evs`, in order, from server start. */
  function Run(evs: seq<Event>): State
    requires Admissible(evs)
    decreases |evs|, 1
  {
    if evs == [] then Initial else Step(Run(Front(evs)), Last(evs))
  }

  // ---------------------------------------------------------------------------
  // Trace-level description of the registry
  // ---------------------------------------------------------------------------

  /** Event `e` is a connection whose handshake registers user `u`. */
  predicate SetsUser(e: Event, u: UserId)
  {
    e.Connect? && Registers(e.userId) && e.userId.value == u
  }

  /** The user id captured by the connect event of socket `s` in `evs`, if `s` connected there. */
  function CapturedBy(evs: seq<Event>, s: SocketId): Option<Option<UserId>>
  {
    if evs == [] then None
    else match Last(evs)
      case Connect(s', u) => if s' == s then Some(u) else CapturedBy(Front(evs), s)
      case Disconnect(_) => CapturedBy(Front(evs), s)
  }

  /** Event `j` of `evs` is a disconnect whose handler deletes key `u`. */
  predicate ClearsUser(evs: seq<Event>, j: int, u: UserId)
    requires 0 <= j < |evs|
  {
    evs[j].Disconnect?
    && CapturedBy(evs[..j], evs[j].socket).Some?
    && DeletedKey(CapturedBy(evs[..j], evs[j].socket).value) == u
  }

  /**
   * Some connection registered `u` and no later disconnect deleted key `u`, whichever socket
   * that disconnect belonged to.
   */
  predicate OnlineByTrace(evs: seq<Event>, u: UserId)
  {
    exists i :: 0 <= i < |evs| && SetsUser(evs[i], u) &&
      forall j :: i < j < |evs| ==> !ClearsUser(evs, j, u)
  }

  lemma {:induction false} PrefixAdmissible(evs: seq<Event>)
    requires Admissible(evs)
    ensures forall k :: 0 <= k <= |evs| ==> Admissible(evs[..k])
  {
    if evs != [] {
      PrefixAdmissible(Front(evs));
      forall k | 0 <= k <= |evs|
        ensures Admissible(evs[..k])
      {
        if k < |evs| {
          assert evs[..k] == Front(evs)[..k];
        } else {
          assert evs[..k] == evs;
        }
      }
    }
  }

  /** Each live socket's handler holds exactly what its connect event captured. */
  lemma {:induction false} HandlersAreCaptured(evs: seq<Event>)
    requires Admissible(evs)
    ensures forall s :: s in Run(evs).handlers ==> CapturedBy(evs, s) == Some(Run(evs).handlers[s])
  {
    if evs != [] {
      HandlersAreCaptured(Front(evs));
    }
  }

  /**
   * The registry never holds the empty user id, which is falsy, nor "__proto__", whose
   * assignment goes to the prototype setter: handshakes carrying them register nothing.
   */
  lemma {:induction false} UnregistrableIdsNeverOnline(evs: seq<Event>)
    requires Admissible(evs)
    ensures "" !in Run(evs).online
    ensures "__proto__" !in Run(evs).online
  {
    if evs != [] {
      UnregistrableIdsNeverOnline(Front(evs));
    }
  }

  /**
   * The registry as written: a user is online exactly when some connection registered them
   * and no disconnect since then deleted their key. A disconnect deletes the key its own
   * socket captured, so the disconnect of an older socket of `u` takes `u` offline too.
   */
  lemma {:induction false} OnlineIffRegisteredAndNotCleared(evs: seq<Event>, u: UserId)
    requires Admissible(evs)
    ensures u in Run(evs).online <==> OnlineByTrace(evs, u)
  {
    if evs == [] {
      return;
    }
    var p, e := Front(evs), Last(evs);
    OnlineIffRegisteredAndNotCleared(p, u);
    HandlersAreCaptured(p);
    assert evs == p + [e];
    assert forall j :: 0 <= j < |p| ==> evs[j] == p[j] && evs[..j] == p[..j];
    assert evs[..|p|] == p;
    // Apart from the new last event, the trace condition is the one for the prefix.
    var untouched := !SetsUser(e, u) && !ClearsUser(evs, |p|, u);
    if untouched {
      assert (u in Run(evs).online) == (u in Run(p).online);
      if OnlineByTrace(p, u) {
        var i :| 0 <= i < |p| && SetsUser(p[i], u) && forall j :: i < j < |p| ==> !ClearsUser(p, j, u);
        assert forall j :: i < j < |p| ==> ClearsUser(evs, j, u) == ClearsUser(p, j, u);
        assert SetsUser(evs[i], u) && forall j :: i < j < |evs| ==> !ClearsUser(evs, j, u);
      }
      if OnlineByTrace(evs, u) {
        var i :| 0 <= i < |evs| && SetsUser(evs[i], u) && forall j :: i < j < |evs| ==> !ClearsUser(evs, j, u);
        assert i < |p|;
        assert forall j :: i < j < |p| ==> ClearsUser(evs, j, u) == ClearsUser(p, j, u);
        assert SetsUser(p[i], u) && forall j :: i < j < |p| ==> !ClearsUser(p, j, u);
      }
    } else if SetsUser(e, u) {
      assert u in Run(evs).online;
      assert SetsUser(evs[|p|], u);
    } else {
      assert ClearsUser(evs, |p|, u);
      assert u !in Run(evs).online;
    }
  }

  /** Broadcast `i` carries the registry's key set right after event `i`: one per event, none skipped. */
  lemma {:induction false} OneBroadcastPerEvent(evs: seq<Event>)
    requires Admissible(evs)
    ensures forall k :: 0 <= k <= |evs| ==> Admissible(evs[..k])
    ensures |Run(evs).broadcasts| == |evs|
    ensures forall i :: 0 <= i < |evs| ==> Run(evs).broadcasts[i] == Run(evs[..i + 1]).online.Keys
  {
    PrefixAdmissible(evs);
    if evs != [] {
      var p := Front(evs);
      OneBroadcastPerEvent(p);
      forall i | 0 <= i < |evs|
        ensures Run(evs).broadcasts[i] == Run(evs[..i + 1]).online.Keys
      {
        if i < |p| {
          assert evs[..i + 1] == p[..i + 1];
        } else {
          assert evs[..i + 1] == evs;
        }
      }
    }
  }

  // ---------------------------------------------------------------------------
  // The stale disconnect, and the identity-guarded alternative
  // ---------------------------------------------------------------------------

  /**
   * Connect `u` on `s1`, connect `u` again on `s2`, then let `s1` disconnect: `u` is no
   * longer registered although `s2` is still connected.
   */
  lemma StaleDisconnectDropsNewerSocket(u: UserId, s1: SocketId, s2: SocketId)
    requires u != "" && s1 != s2
    ensures Admissible([Connect(s1, Some(u)), Connect(s2, Some(u)), Disconnect(s1)])
    ensures var st := Run([Connect(s1, Some(u)), Connect(s2, Some(u)), Disconnect(s1)]);
            u !in st.online && s2 in st.handlers
  {
    var e1, e2, e3 := Connect(s1, Some(u)), Connect(s2, Some(u)), Disconnect(s1);
    assert Admissible([]) && Run([]) == Initial;
    assert Front([e1]) == [] && Last([e1]) == e1;
    assert Admissible([e1]) && Run([e1]) == Step(Initial, e1);
    assert Front([e1, e2]) == [e1] && Last([e1, e2]) == e2;
    assert Admissible([e1, e2]) && Run([e1, e2]) == Step(Run([e1]), e2);
    assert Front([e1, e2, e3]) == [e1, e2] && Last([e1, e2, e3]) == e3;
    assert Admissible([e1, e2, e3]);
  }

  /**
   * A disconnect that deletes the captured key only while it still maps to the disconnecting
   * socket. This is not what the server does; it is here to contrast with `Step`.
   */
  function GuardedDisconnect(st: State, s: SocketId): (r: State)
    requires s in st.handlers
    ensures r.handlers == st.handlers - {s}
    ensures r.broadcasts == st.broadcasts + [r.online.Keys]
    ensures var k := DeletedKey(st.handlers[s]);
            k in st.online && st.online[k] == s ==> k !in r.online
    ensures forall v :: v in st.online && st.online[v] != s ==> v in r.online && r.online[v] == st.online[v]
    ensures forall v :: v in r.online ==> v in st.online
  {
    var k := DeletedKey(st.handlers[s]);
    var online := if k in st.online && st.online[k] == s then st.online - {k} else st.online;
    State(online, st.handlers - {s}, st.broadcasts + [online.Keys])
  }

  /**
   * The guard changes only the stale case: when the captured key is absent or still points
   * at the disconnecting socket, the guarded handler does what the server's handler does.
   */
  lemma GuardedAgreesUnlessStale(st: State, s: SocketId)
    requires s in st.handlers
    requires var k := DeletedKey(st.handlers[s]); k !in st.online || st.online[k] == s
    ensures GuardedDisconnect(st, s) == Step(st, Disconnect(s))
  {
    var k := DeletedKey(st.handlers[s]);
    if k !in st.online {
      assert st.online - {k} == st.online;
    }
  }

  /** With the guard, the stale disconnect of `s1` leaves `u` registered on `s2`. */
  lemma GuardedKeepsNewerSocket(u: UserId, s1: SocketId, s2: SocketId)
    requires u != "" && u != "__proto__" && s1 != s2
    ensures var st := Step(Step(Initial, Connect(s1, Some(u))), Connect(s2, Some(u)));
            var r := GuardedDisconnect(st, s1);
            u in r.online && r.online[u] == s2
  {
  }

  // ---------------------------------------------------------------------------
  // The server object
  // ---------------------------------------------------------------------------

  /** Something the server sent: a broadcast to every client, or an event to one socket. */
  datatype Emission =
    | Broadcast(event: string, online: set<UserId>)
    | Directed(to: SocketId, event: string, message: Message)

  /**
   * The Socket.IO server of socket.js: `userSocketMap`, the per-socket disconnect closures
   * (as the user id each one captured), and, as ghost state, the events handled so far and
   * everything emitted.
   */
  /** The payloads of the `getOnlineUser` broadcasts in an emission log, in order. */
  function BroadcastPayloads(log: seq<Emission>): seq<set<UserId>>
  {
    if log == [] then []
    else
      var front := BroadcastPayloads(log[..|log| - 1]);
      match log[|log| - 1]
      case Broadcast(_, online) => front + [online]
      case Directed(_, _, _) => front
  }

  class SocketServer {
    var userSocketMap: map<UserId, SocketId>
    var disconnectHandlers: map<SocketId, Option<UserId>>
    ghost var history: seq<Event>
    ghost var emitted: seq<Emission>

    ghost predicate Valid()
      reads this
    {
      Admissible(history)
      && userSocketMap == Run(history).online
      && disconnectHandlers == Run(history).handlers
      && BroadcastPayloads(emitted) == Run(history).broadcasts
    }

    /** Server start: the registry is empty, so no user is online. */
    constructor ()
      ensures Valid()
      ensures userSocketMap == map[] && disconnectHandlers == map[]
      ensures history == [] && emitted == []
    {
      userSocketMap := map[];
      disconnectHandlers := map[];
      history := [];
      emitted := [];
    }

    /**
     * The `connection` handler: a truthy `userId` maps that user to this socket, replacing any
     * earlier socket of theirs; every other entry stays. Then the key set is broadcast, also
     * when nothing was registered.
     */
    method OnConnect(socketId: SocketId, userId: Option<UserId>)
      requires Valid() && socketId !in disconnectHandlers
      modifies this
      ensures Valid()
      ensures userSocketMap == if Registers(userId) then old(userSocketMap)[userId.value := socketId]
                               else old(userSocketMap)
      ensures disconnectHandlers == old(disconnectHandlers)[socketId := userId]
      ensures history == old(history) + [Connect(socketId, userId)]
      ensures emitted == old(emitted) + [Broadcast(OnlineUsersEvent, userSocketMap.Keys)]
    {
      ghost var e := Connect(socketId, userId);
      ghost var before := Run(history);
      assert Enabled(before, e);
      ghost var after := Step(before, e);
      if Registers(userId) {
        userSocketMap := userSocketMap[userId.value := socketId];
      }
      assert userSocketMap == after.online;
      disconnectHandlers := disconnectHandlers[socketId := userId];
      emitted := emitted + [Broadcast(OnlineUsersEvent, userSocketMap.Keys)];
      assert emitted[..|emitted| - 1] == old(emitted);
      history := history + [e];
      assert Front(history) == old(history) && Last(history) == e;
      assert Admissible(history);
      assert Run(history) == after;
    }

    /**
     * The `disconnect` handler: deletes the key captured at connect time, without checking
     * that it still maps to this socket, then broadcasts the key set.
     */
    method OnDisconnect(socketId: SocketId)
      requires Valid() && socketId in disconnectHandlers
      modifies this
      ensures Valid()
      ensures userSocketMap == old(userSocketMap) - {DeletedKey(old(disconnectHandlers)[socketId])}
      ensures disconnectHandlers == old(disconnectHandlers) - {socketId}
      ensures history == old(history) + [Disconnect(socketId)]
      ensures emitted == old(emitted) + [Broadcast(OnlineUsersEvent, userSocketMap.Keys)]
    {
      ghost var e := Disconnect(socketId);
      ghost var before := Run(history);
      assert Enabled(before, e);
      ghost var after := Step(before, e);
      var userId := disconnectHandlers[socketId];
      userSocketMap := userSocketMap - {DeletedKey(userId)};
      assert userSocketMap == after.online;
      disconnectHandlers := disconnectHandlers - {socketId};
      emitted := emitted + [Broadcast(OnlineUsersEvent, userSocketMap.Keys)];
      assert emitted[..|emitted| - 1] == old(emitted);
      history := history + [e];
      assert Front(history) == old(history) && Last(history) == e;
      assert Admissible(history);
      assert Run(history) == after;
    }

    /**
     * `getReciverSocketId`: the socket registered for `userId`, if any. It is present exactly
     * when the history registered that user and no disconnect since deleted the key.
     */
    method GetReceiverSocketId(userId: UserId) returns (r: Option<SocketId>)
      requires Valid()
      ensures r.Some? <==> userId in userSocketMap
      ensures r.Some? ==> r.value == userSocketMap[userId]
      ensures r.Some? <==> OnlineByTrace(history, userId)
    {
      OnlineIffRegisteredAndNotCleared(history, userId);
      if userId in userSocketMap {
        r := Some(userSocketMap[userId]);
      } else {
        r := None;
      }
    }

    /** `io.to(socketId).emit(event, message)`: a send to one socket, which changes no state. */
    method EmitTo(socketId: SocketId, event: string, message: Message)
      requires Valid()
      modifies this`emitted
      ensures Valid()
      ensures emitted == old(emitted) + [Directed(socketId, event, message)]
    {
      emitted := emitted + [Directed(socketId, event, message)];
      assert emitted[..|emitted| - 1] == old(emitted);
    }
  }
}

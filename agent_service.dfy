/** The agent orchestrator: a table of the rooms the server-side agent is in,
    keyed by room name and kept in insertion order (a JavaScript `Map`), with
    join, leave, the per-room event handlers and shutdown.

    A room handle (`new Room()`) is an opaque number: the `created` counter
    hands out a fresh one for each room object constructed. Each awaited step
    (fetching the token, `connect`, `disconnect`, `sendChatMessage`) is a
    parameter saying whether it succeeded. */
module Agent {

  import opened Wrappers
  import opened AgentReplies
  import opened ServerLivekit

  type RoomHandle = nat

  predicate Distinct(s: seq<string>) {
    forall i, j :: 0 <= i < j < |s| ==> s[i] != s[j]
  }

  /** `s` with `k` taken out, the other elements keeping their order: what
      `Map.delete(k)` does to a map's key order. */
  function Without(s: seq<string>, k: string): (r: seq<string>)
    ensures forall x :: x in r <==> x in s && x != k
    ensures Distinct(s) ==> Distinct(r)
    ensures k !in s ==> r == s
    ensures |r| <= |s|
  {
    if s == [] then []
    else
      var rest := Without(s[1..], k);
      assert Distinct(s) ==> forall j :: 0 <= j < |s| - 1 ==> s[1..][j] != s[0];
      assert Distinct(s) ==> Distinct(s[1..]) by {
        if Distinct(s) {
          forall i, j | 0 <= i < j < |s| - 1 ensures s[1..][i] != s[1..][j] {
            assert s[1..][i] == s[i + 1] && s[1..][j] == s[j + 1];
          }
        }
      }
      if s[0] == k then rest
      else
        DistinctCons(s[0], rest);
        [s[0]] + rest
  }

  /** When `k` occurs in `s` only at index `i` (as in a duplicate-free key
      order), deleting it removes exactly that position and keeps every other
      element in its relative order. */
  lemma {:induction false} WithoutKeepsOrder(s: seq<string>, k: string, i: nat)
    requires i < |s| && s[i] == k
    requires forall j :: 0 <= j < |s| && j != i ==> s[j] != k
    ensures Without(s, k) == s[..i] + s[i + 1..]
  {
    WithoutCons(s, k);
    OnlyAt(s, k, i);
    if i == 0 {
      assert s[..0] + s[1..] == s[1..];
    } else {
      WithoutKeepsOrder(s[1..], k, i - 1);
      ConsSplice(s, i);
    }
  }

  /** What `k` occurring only at index `i` says about the tail of `s`. */
  lemma OnlyAt(s: seq<string>, k: string, i: nat)
    requires i < |s| && s[i] == k
    requires forall j :: 0 <= j < |s| && j != i ==> s[j] != k
    ensures i == 0 ==> k !in s[1..]
    ensures i > 0 ==> s[0] != k && s[1..][i - 1] == k
    ensures i > 0 ==> forall j :: 0 <= j < |s| - 1 && j != i - 1 ==> s[1..][j] != k
  {
    var tail := s[1..];
    forall j | 0 <= j < |tail| && j != i - 1 ensures tail[j] != k {
      assert tail[j] == s[j + 1];
    }
  }

  lemma ConsSplice(s: seq<string>, i: nat)
    requires 0 < i < |s|
    ensures [s[0]] + (s[1..][..i - 1] + s[1..][i..]) == s[..i] + s[i + 1..]
  {
    assert s[1..][..i - 1] == s[1..i] && s[1..][i..] == s[i + 1..];
    assert s[..i] == [s[0]] + s[1..i];
  }

  /** One step of `Without`, on a non-empty sequence. */
  lemma WithoutCons(s: seq<string>, k: string)
    requires s != []
    ensures Without(s, k) == if s[0] == k then Without(s[1..], k) else [s[0]] + Without(s[1..], k)
  {
  }

  lemma DistinctCons(a: string, rest: seq<string>)
    ensures a !in rest && Distinct(rest) ==> Distinct([a] + rest)
  {
    if a !in rest && Distinct(rest) {
      var s := [a] + rest;
      forall i, j | 0 <= i < j < |s| ensures s[i] != s[j] {
        assert s[j] == rest[j - 1];
        if i > 0 { assert s[i] == rest[i - 1]; }
      }
    }
  }

  /** A distinct key order listing exactly a map's keys is as long as the map. */
  lemma {:induction false} DistinctKeysCount<V>(s: seq<string>, m: map<string, V>)
    requires Distinct(s)
    requires forall k :: k in m <==> k in s
    ensures |s| == |m|
  {
    if s == [] {
      assert m == map[];
    } else {
      var rest := m - {s[0]};
      assert forall k :: k in rest <==> k in s[1..] by {
        forall k ensures k in rest <==> k in s[1..] {
          if k in s[1..] {
            var j :| 1 <= j < |s| && s[j] == k;
            assert s[0] != s[j];
          }
          if k in m && k != s[0] {
            var j :| 0 <= j < |s| && s[j] == k;
            assert j != 0;
            assert s[1..][j - 1] == k;
          }
        }
      }
      DistinctKeysCount(s[1..], rest);
    }
  }

  /** The handles stored under `names`, in the order of `names`. */
  function HandlesOf(names: seq<string>, table: map<string, RoomHandle>): (hs: seq<RoomHandle>)
    requires forall k :: k in names ==> k in table
    ensures |hs| == |names|
    ensures forall i :: 0 <= i < |names| ==> hs[i] == table[names[i]]
  {
    if names == [] then [] else HandlesOf(names[..|names| - 1], table) + [table[names[|names| - 1]]]
  }

  /** The names in `names` whose room's disconnect rejects, in order. */
  function FailedOf(names: seq<string>, table: map<string, RoomHandle>, failing: set<RoomHandle>): (fs: seq<string>)
    requires forall k :: k in names ==> k in table
    ensures forall k :: k in fs <==> k in names && table[k] in failing
  {
    if names == [] then []
    else
      var last := names[|names| - 1];
      FailedOf(names[..|names| - 1], table, failing) + (if table[last] in failing then [last] else [])
  }

  /** A message the agent persists: `persistMessage(roomName, senderIdentity,
      senderName, message)`. */
  datatype StoredMessage = StoredMessage(roomName: string, senderIdentity: string, senderName: string, message: string)

  /** What a handler sends into its room, and what it then stores; nothing is
      stored when the send rejects. */
  datatype Delivery = Delivery(sent: string, stored: Option<StoredMessage>)

  /** The request `joinRoom` hands to the SDK: the token's claims and the connect
      options. */
  datatype ConnectRequest = ConnectRequest(claims: AgentTokenClaims, options: ConnectOptions)

  function AgentDelivery(roomName: string, text: string, sendOk: bool): (d: Delivery)
    ensures d.sent == text
    ensures d.stored.Some? <==> sendOk
    ensures sendOk ==> d.stored == Some(StoredMessage(roomName, "ai-agent", "AI Assistant", text))
  {
    Delivery(text, if sendOk then Some(StoredMessage(roomName, "ai-agent", "AI Assistant", text)) else None)
  }

  class AgentService {
    /** The keys of `activeRooms` in insertion order. */
    var order: seq<string>
    /** `activeRooms`: room name to the room the agent joined it with. */
    var activeRooms: map<string, RoomHandle>
    /** The rooms whose event handlers are registered, each with the room name
        its handlers captured. Handlers are never unregistered. */
    var listeners: map<RoomHandle, string>
    /** How many `Room` objects have been constructed. */
    var created: nat
    /** Whether the process-wide SDK resources have been released. */
    var disposed: bool

    ghost predicate Valid()
      reads this
    {
      && Distinct(order)
      && (forall k :: k in activeRooms <==> k in order)
      && (forall k :: k in activeRooms ==>
            activeRooms[k] < created && activeRooms[k] in listeners && listeners[activeRooms[k]] == k)
      && (forall h :: h in listeners ==> h < created)
    }

    constructor ()
      ensures Valid()
      ensures order == [] && activeRooms == map[] && listeners == map[] && created == 0 && !disposed
    {
      order, activeRooms, listeners, created, disposed := [], map[], map[], 0, false;
    }

    /** `isInRoom(roomName)`. */
    function IsInRoom(roomName: string): (b: bool)
      reads this
      requires Valid()
      ensures b <==> roomName in order
    {
      roomName in activeRooms
    }

    /** `getActiveRooms()`: every key of the table once, in insertion order. */
    function GetActiveRooms(): (r: seq<string>)
      reads this
      requires Valid()
      ensures r == order
      ensures Distinct(r) && |r| == |activeRooms|
      ensures forall k :: k in r <==> k in activeRooms
    {
      DistinctKeysCount(order, activeRooms);
      order
    }

    /** `activeRooms.delete(roomName)`. */
    method DeleteKey(roomName: string)
      requires Valid()
      modifies this
      ensures Valid()
      ensures activeRooms == old(activeRooms) - {roomName} && order == Without(old(order), roomName)
      ensures listeners == old(listeners) && created == old(created) && disposed == old(disposed)
    {
      activeRooms := activeRooms - {roomName};
      order := Without(order, roomName);
    }

    /** `joinRoom(roomName)`. A room already in the table is left alone. Otherwise
        the token is fetched, a room object is made and connected, and only then
        are the handlers registered and the entry inserted; a failed step leaves
        the table as it was and the error propagates. */
    method JoinRoom(roomName: string, tokenOk: bool, connectOk: bool)
      returns (result: Outcome, request: Option<ConnectRequest>)
      requires Valid()
      modifies this
      ensures Valid() && disposed == old(disposed)
      ensures roomName in old(activeRooms) ==>
        result == Ok && request == None
        && activeRooms == old(activeRooms) && order == old(order)
        && listeners == old(listeners) && created == old(created)
      ensures roomName !in old(activeRooms) && !tokenOk ==>
        result.Err? && request == None
        && activeRooms == old(activeRooms) && order == old(order)
        && listeners == old(listeners) && created == old(created)
      ensures roomName !in old(activeRooms) && tokenOk ==>
        request == Some(ConnectRequest(AgentToken(roomName), AgentConnectOptions()))
        && created == old(created) + 1
      ensures roomName !in old(activeRooms) && tokenOk && !connectOk ==>
        result.Err? && activeRooms == old(activeRooms) && order == old(order)
        && listeners == old(listeners)
      ensures roomName !in old(activeRooms) && tokenOk && connectOk ==>
        result == Ok
        && activeRooms == old(activeRooms)[roomName := old(created)]
        && order == old(order) + [roomName]
        && listeners == old(listeners)[old(created) := roomName]
    {
      request := None;
      if roomName in activeRooms {
        return Ok, request;
      }
      if !tokenOk {
        return Err("token generation failed"), request;
      }
      var room := created;
      created := created + 1;
      request := Some(ConnectRequest(AgentToken(roomName), AgentConnectOptions()));
      if !connectOk {
        return Err("connect failed"), request;
      }
      listeners := listeners[room := roomName];
      activeRooms := activeRooms[roomName := room];
      order := order + [roomName];
      result := Ok;
    }

    /** The `Disconnected` handler of `room`: it deletes the room name it
        captured, whichever room is stored under that name now. */
    method OnDisconnected(room: RoomHandle)
      requires Valid()
      modifies this
      ensures Valid()
      ensures room in old(listeners) ==>
        activeRooms == old(activeRooms) - {old(listeners)[room]}
        && order == Without(old(order), old(listeners)[room])
      ensures room !in old(listeners) ==> activeRooms == old(activeRooms) && order == old(order)
      ensures listeners == old(listeners) && created == old(created) && disposed == old(disposed)
    {
      if room in listeners {
        DeleteKey(listeners[room]);
      }
    }

    /** The `ChatMessage` handler of `room`: a message with a participant is
        answered by the reply policy, and the answer is stored under the room
        name the handler captured. Failures are logged and change nothing. */
    function OnChatMessage(room: RoomHandle, text: string, sender: Option<AgentPeer>, sendOk: bool): (d: Option<Delivery>)
      reads this
      ensures d.Some? <==> room in listeners && sender.Some?
      ensures d.Some? ==>
        d.value == AgentDelivery(listeners[room], GenerateResponse(text, SenderLabel(sender.value)), sendOk)
    {
      if room in listeners then
        match ChatReply(text, sender)
        case None => None
        case Some(reply) => Some(AgentDelivery(listeners[room], reply, sendOk))
      else None
    }

    /** The `ParticipantConnected` handler of `room`: one welcome message. */
    function OnParticipantConnected(room: RoomHandle, p: AgentPeer, sendOk: bool): (d: Option<Delivery>)
      reads this
      ensures d.Some? <==> room in listeners
      ensures d.Some? ==> d.value == AgentDelivery(listeners[room], WelcomeMessage(p), sendOk)
    {
      if room in listeners then Some(AgentDelivery(listeners[room], WelcomeMessage(p), sendOk)) else None
    }

    /** `leaveRoom(roomName)`. An absent room is a no-op. Otherwise the room is
        disconnected, which may itself fire the room's `Disconnected` handler,
        and the key is deleted; deleting twice is harmless, so the table ends
        the same either way. A rejected disconnect propagates and skips the
        delete. */
    method LeaveRoom(roomName: string, disconnectOk: bool, emitsDisconnected: bool) returns (result: Outcome)
      requires Valid()
      modifies this
      ensures Valid()
      ensures listeners == old(listeners) && created == old(created) && disposed == old(disposed)
      ensures roomName !in old(activeRooms) ==>
        result == Ok && activeRooms == old(activeRooms) && order == old(order)
      ensures roomName in old(activeRooms) && disconnectOk ==>
        result == Ok && activeRooms == old(activeRooms) - {roomName}
        && order == Without(old(order), roomName)
      ensures roomName in old(activeRooms) && !disconnectOk ==>
        result.Err?
        && activeRooms == (if emitsDisconnected then old(activeRooms) - {roomName} else old(activeRooms))
        && order == (if emitsDisconnected then Without(old(order), roomName) else old(order))
    {
      if roomName !in activeRooms {
        return Ok;
      }
      var room := activeRooms[roomName];
      if emitsDisconnected {
        OnDisconnected(room);
      }
      if !disconnectOk {
        return Err("disconnect failed");
      }
      ghost var before := order;
      DeleteKey(roomName);
      WithoutTwice(old(order), roomName, before);
      result := Ok;
    }

    /** `shutdown()`. Every entry is disconnected in insertion order; a rejected
        disconnect is caught and logged, and the loop goes on. The table is then
        cleared and the SDK's resources released. Returns the rooms a disconnect
        was attempted on and the names whose disconnect failed. */
    method Shutdown(failing: set<RoomHandle>) returns (attempted: seq<RoomHandle>, failed: seq<string>)
      requires Valid()
      modifies this
      ensures Valid()
      ensures attempted == HandlesOf(old(order), old(activeRooms))
      ensures failed == FailedOf(old(order), old(activeRooms), failing)
      ensures activeRooms == map[] && order == [] && disposed
      ensures listeners == old(listeners) && created == old(created)
    {
      var names := order;
      attempted, failed := [], [];
      var i := 0;
      while i < |names|
        invariant 0 <= i <= |names|
        invariant attempted == HandlesOf(names[..i], activeRooms)
        invariant failed == FailedOf(names[..i], activeRooms, failing)
      {
        var room := activeRooms[names[i]];
        attempted := attempted + [room];
        if room in failing {
          failed := failed + [names[i]];
        }
        assert names[..i + 1][..i] == names[..i];
        i := i + 1;
      }
      assert names[..i] == names;
      activeRooms := map[];
      order := [];
      disposed := true;
    }
  }

  /** Deleting a key that is already gone leaves the key order alone. */
  lemma WithoutTwice(s: seq<string>, k: string, t: seq<string>)
    requires t == s || t == Without(s, k)
    ensures Without(t, k) == Without(s, k)
  {
  }

  /** A stale room's `Disconnected` evicts the newer room stored under the same
      name: join, leave without the event, join again, and the first room's
      late `Disconnected` removes the second room's entry. */
  method StaleDisconnectEvictsNewerRoom(roomName: string) returns (evicted: bool, stillConnectedRoom: RoomHandle)
    ensures evicted && stillConnectedRoom == 1
  {
    var agent := new AgentService();
    var r, q := agent.JoinRoom(roomName, true, true);
    r := agent.LeaveRoom(roomName, true, false);
    r, q := agent.JoinRoom(roomName, true, true);
    stillConnectedRoom := agent.activeRooms[roomName];
    agent.OnDisconnected(0);
    evicted := !agent.IsInRoom(roomName);
  }

  /** Shutting down two rooms of which the first one's disconnect rejects still
      attempts both, reports the failure and empties the table. */
  method ShutdownIsolatesFailures() returns (attempted: seq<RoomHandle>, failed: seq<string>, left: seq<string>)
    ensures attempted == [0, 1] && failed == ["r1"] && left == []
  {
    var agent := new AgentService();
    var r, q := agent.JoinRoom("r1", true, true);
    r, q := agent.JoinRoom("r2", true, true);
    ghost var names := agent.order;
    ghost var table := agent.activeRooms;
    assert names == ["r1", "r2"] && table == map["r1" := 0, "r2" := 1];
    attempted, failed := agent.Shutdown({0});
    assert names[..1] == ["r1"] && ["r1"][..0] == [];
    assert failed == FailedOf(["r1"], table, {0}) == ["r1"];
    left := agent.GetActiveRooms();
  }
}

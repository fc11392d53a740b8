/** The production client's session controller: it asks the server to send
    the agent into the room, fetches a token, connects, and publishes the chat
    transcript, the participant list and a connection-state label.

    As in the demo controller, the room object is outside the model: handlers
    receive a `RoomView` of the room's participants at the moment they run,
    each awaited request is a parameter saying whether it succeeded, and the
    generated message id and the clock are opaque inputs. */
module ClientSession {

  import opened Wrappers
  import opened JsStrings

  type RoomHandle = nat

  /** A participant as the client library exposes it: `name` may be absent. */
  datatype Peer = Peer(identity: string, name: Option<string>)

  /** The room's participants: the local one first, then the remote ones in
      the room's order. */
  datatype RoomView = RoomView(local: Peer, remotes: seq<Peer>)

  /** What the room reports as its own connection state, read by
      `isConnected()`. */
  datatype RoomState = RoomDisconnected | RoomConnecting | RoomConnected | RoomReconnecting

  /** The payload of a chat event; `id` may be empty and `timestamp` zero. */
  datatype ChatPayload = ChatPayload(id: string, message: string, timestamp: int)

  datatype ClientMessage = ClientMessage(
    id: string, message: string, timestamp: int, senderIdentity: string, senderName: string, isLocal: bool)

  /** `p?.name || fallback` over a participant that may be absent. */
  function NameOr(p: Option<Peer>, fallback: string): (r: string)
    ensures p.Some? && p.value.name.Some? && p.value.name.value != "" ==> r == p.value.name.value
    ensures !(p.Some? && p.value.name.Some? && p.value.name.value != "") ==> r == fallback
  {
    if p.Some? then OrOpt(p.value.name, fallback) else fallback
  }

  /** `p?.identity || fallback` over a participant that may be absent. */
  function IdentityOr(p: Option<Peer>, fallback: string): (r: string)
    ensures p.Some? && p.value.identity != "" ==> r == p.value.identity
    ensures !(p.Some? && p.value.identity != "") ==> r == fallback
  {
    if p.Some? then Or(p.value.identity, fallback) else fallback
  }

  /** The transcript entry for a chat event. `sender` is the event's
      participant (absent for the user's own messages) and `local` is the
      local participant of the room currently held, if any. The sender's
      identity and name fall back to the local participant's and then to
      `'local'` / `'You'`; empty strings count as absent. */
  function ChatEntry(payload: ChatPayload, sender: Option<Peer>, local: Option<Peer>, uuid: string, now: int): (e: ClientMessage)
    ensures e.message == payload.message
    ensures e.id == (if payload.id != "" then payload.id else uuid)
    ensures e.timestamp == (if payload.timestamp != 0 then payload.timestamp else now)
    ensures e.isLocal <==> sender.None?
    ensures sender.Some? && sender.value.identity != "" ==> e.senderIdentity == sender.value.identity
    ensures !(sender.Some? && sender.value.identity != "") && local.Some? && local.value.identity != "" ==>
      e.senderIdentity == local.value.identity
    ensures !(sender.Some? && sender.value.identity != "") && !(local.Some? && local.value.identity != "") ==>
      e.senderIdentity == "local"
    ensures sender.Some? && sender.value.name.Some? && sender.value.name.value != "" ==>
      e.senderName == sender.value.name.value
    ensures !(sender.Some? && sender.value.name.Some? && sender.value.name.value != "") ==>
      e.senderName == NameOr(local, "You")
  {
    ClientMessage(
      Or(payload.id, uuid),
      payload.message,
      if payload.timestamp != 0 then payload.timestamp else now,
      IdentityOr(sender, IdentityOr(local, "local")),
      NameOr(sender, NameOr(local, "You")),
      sender.None?)
  }

  /** A message of the user's own (no participant on the event) is attributed
      to the local participant whenever that one has an identity. */
  lemma OwnMessageIsLocal(payload: ChatPayload, local: Peer, uuid: string, now: int)
    requires local.identity != ""
    ensures var e := ChatEntry(payload, None, Some(local), uuid, now);
      e.isLocal && e.senderIdentity == local.identity
  {
  }

  /** The participant list `updateParticipantList` publishes. */
  function ParticipantList(view: RoomView): (r: seq<Peer>)
    ensures |r| == 1 + |view.remotes| && r[0] == view.local && r[1..] == view.remotes
  {
    [view.local] + view.remotes
  }

  class ClientService {
    var room: Option<RoomHandle>
    /** How many `Room` objects have been constructed. */
    var created: nat

    var messages: seq<ClientMessage>
    var participants: seq<Peer>
    var connectionState: string

    constructor ()
      ensures room == None && created == 0
      ensures messages == [] && participants == [] && connectionState == "disconnected"
    {
      room, created := None, 0;
      messages, participants, connectionState := [], [], "disconnected";
    }

    function LocalPeer(view: RoomView): Option<Peer>
      reads this
    {
      if room.Some? then Some(view.local) else None
    }

    /** `connect(roomName, participantName)`. The agent-join request's outcome
        is swallowed: `joinOk` affects nothing. The token request and
        `room.connect` may reject; the room object is kept from the moment it
        is constructed, even when `connect` rejects. Returns the room name
        posted to the agent-join endpoint. */
    method Connect(roomName: string, joinOk: bool, tokenOk: bool, connectOk: bool, view: RoomView)
      returns (agentJoinRequest: string, result: Outcome)
      modifies this
      ensures agentJoinRequest == roomName
      ensures !tokenOk ==>
        result.Err? && room == old(room) && created == old(created)
        && participants == old(participants) && connectionState == old(connectionState)
      ensures tokenOk ==> room == Some(old(created)) && created == old(created) + 1
      ensures tokenOk && !connectOk ==>
        result.Err? && participants == old(participants) && connectionState == old(connectionState)
      ensures tokenOk && connectOk ==>
        result == Ok && connectionState == "connected" && participants == ParticipantList(view)
      ensures messages == old(messages)
    {
      agentJoinRequest := roomName;
      if !tokenOk {
        return agentJoinRequest, Err("token request failed");
      }
      room := Some(created);
      created := created + 1;
      if !connectOk {
        return agentJoinRequest, Err("connect failed");
      }
      connectionState := "connected";
      UpdateParticipantList(view);
      result := Ok;
    }

    // event handlers, registered on each room `connect` constructs

    /** `ChatMessage`: one entry appended, see `ChatEntry`. */
    method OnChatMessage(payload: ChatPayload, sender: Option<Peer>, view: RoomView, uuid: string, now: int)
      modifies this
      ensures messages == old(messages) + [ChatEntry(payload, sender, old(LocalPeer(view)), uuid, now)]
      ensures room == old(room) && created == old(created)
      ensures participants == old(participants) && connectionState == old(connectionState)
    {
      messages := messages + [ChatEntry(payload, sender, LocalPeer(view), uuid, now)];
    }

    /** `ParticipantConnected` and `ParticipantDisconnected`. */
    method OnParticipantChanged(view: RoomView)
      modifies this
      ensures participants == (if old(room).Some? then ParticipantList(view) else old(participants))
      ensures room == old(room) && created == old(created)
      ensures messages == old(messages) && connectionState == old(connectionState)
    {
      UpdateParticipantList(view);
    }

    /** `Disconnected`: the label and the participant list are reset; the
        transcript and the room object are kept. */
    method OnDisconnected()
      modifies this
      ensures connectionState == "disconnected" && participants == []
      ensures room == old(room) && created == old(created) && messages == old(messages)
    {
      connectionState := "disconnected";
      participants := [];
    }

    method OnReconnecting()
      modifies this
      ensures connectionState == "reconnecting"
      ensures room == old(room) && created == old(created)
      ensures messages == old(messages) && participants == old(participants)
    {
      connectionState := "reconnecting";
    }

    method OnReconnected()
      modifies this
      ensures connectionState == "connected"
      ensures room == old(room) && created == old(created)
      ensures messages == old(messages) && participants == old(participants)
    {
      connectionState := "connected";
    }

    // operations

    /** `sendMessage(text)`: fails without a room; otherwise hands the text to
        the transport. The transcript is not touched: the user's own message
        appears only when the room reports it back as a chat event. */
    method SendMessage(text: string, sendOk: bool) returns (sent: Option<string>, result: Outcome)
      ensures room.None? ==> sent == None && result == Err("Not connected to a room")
      ensures room.Some? ==> sent == Some(text) && (result == Ok <==> sendOk)
    {
      if room.None? {
        return None, Err("Not connected to a room");
      }
      sent := Some(text);
      result := if sendOk then Ok else Err("send failed");
    }

    /** `updateParticipantList()`: nothing without a room; otherwise the local
        participant followed by the remote ones. */
    method UpdateParticipantList(view: RoomView)
      modifies this
      ensures participants == (if old(room).Some? then ParticipantList(view) else old(participants))
      ensures room == old(room) && created == old(created)
      ensures messages == old(messages) && connectionState == old(connectionState)
    {
      if room.None? {
        return;
      }
      participants := ParticipantList(view);
    }

    /** `disconnect()`: without a room nothing happens; otherwise, once the
        room has disconnected, the room, the transcript and the participant
        list are dropped. A rejected room disconnect propagates before any of
        that. */
    method Disconnect(disconnectOk: bool) returns (result: Outcome)
      modifies this
      ensures old(room).None? ==>
        result == Ok && messages == old(messages) && participants == old(participants)
        && connectionState == old(connectionState)
      ensures old(room).Some? && !disconnectOk ==>
        result.Err? && room == old(room) && messages == old(messages)
        && participants == old(participants) && connectionState == old(connectionState)
      ensures old(room).Some? && disconnectOk ==>
        result == Ok && messages == [] && participants == [] && connectionState == "disconnected"
      ensures room == (if old(room).Some? && disconnectOk then None else old(room))
      ensures created == old(created)
    {
      result := Ok;
      if room.Some? {
        if !disconnectOk {
          return Err("disconnect failed");
        }
        room := None;
        messages := [];
        participants := [];
        connectionState := "disconnected";
      }
    }

    /** `isConnected()`: the room's own state, not the published label. */
    function IsConnected(roomState: RoomState): (b: bool)
      reads this
      ensures b <==> room.Some? && roomState == RoomConnected
    {
      room.Some? && roomState == RoomConnected
    }
  }

  /** After the room reports `Disconnected` the room object is still held:
      the published label says "disconnected", yet `sendMessage` still hands
      text to the transport instead of failing with "Not connected to a room",
      and the transcript survives until `disconnect()` is called. */
  method DisconnectEventKeepsRoom(view: RoomView, payload: ChatPayload)
    returns (stateLabel: string, sent: Option<string>, keptEntries: nat, clearedEntries: nat)
    ensures stateLabel == "disconnected" && sent == Some("hello")
    ensures keptEntries == 1 && clearedEntries == 0
  {
    var svc := new ClientService();
    var posted, r := svc.Connect("r1", false, true, true, view);
    svc.OnChatMessage(payload, None, view, "id-1", 1);
    svc.OnDisconnected();
    stateLabel := svc.connectionState;
    sent, r := svc.SendMessage("hello", true);
    keptEntries := |svc.messages|;
    r := svc.Disconnect(true);
    clearedEntries := |svc.messages|;
  }
}

/** The demo client's session controller: a room connection projected onto
    five observable values (connection state, participant roster, chat
    transcript, transport label, mute flag).

    The LiveKit room object is outside the model. Each handler receives a
    `RoomView`: what the room reports at the moment the handler runs (its local
    participant and its remote participants in enumeration order). Each
    awaited step is a parameter saying whether it succeeded, and a timestamp
    (`new Date()`) is an opaque number passed in. */
module DemoSession {

  import opened Wrappers
  import opened JsStrings

  type Timestamp = nat
  type RoomHandle = nat

  datatype ChatMessage = ChatMessage(identity: string, text: string, isSelf: bool, isSystem: bool, timestamp: Timestamp)

  datatype ParticipantInfo = ParticipantInfo(identity: string, isSelf: bool, isSpeaking: bool, audioEnabled: bool)

  datatype LocalParticipant = LocalParticipant(identity: string, isSpeaking: bool, isMicrophoneEnabled: bool)

  /** A remote participant, with the `isMuted` flag of each of its audio track
      publications. */
  datatype RemoteParticipant = RemoteParticipant(identity: string, isSpeaking: bool, audioMuted: seq<bool>)

  datatype RoomView = RoomView(local: LocalParticipant, remotes: seq<RemoteParticipant>)

  /** The room's connection states, as the client library names them. */
  datatype ConnectionState = Disconnected | Connecting | Connected | Reconnecting | SignalReconnecting

  /** The label the `connectionState` signal shows: the state's string value
      in the client library. The computed signals compare against the labels
      of `Connected` and `Disconnected`, which no other state shares. */
  function StateLabel(s: ConnectionState): (r: string)
    ensures r == "connected" <==> s == Connected
    ensures r == "disconnected" <==> s == Disconnected
  {
    match s
    case Disconnected => "disconnected"
    case Connecting => "connecting"
    case Connected => "connected"
    case Reconnecting => "reconnecting"
    case SignalReconnecting => "signalReconnecting"
  }

  /** The transport label shown when nothing is known. */
  const NoTransport := "\U{2014}"

  // ---------------------------------------------------------------- roster

  /** `[...publications].some((t) => !t.isMuted)`. */
  function AnyUnmuted(audioMuted: seq<bool>): (b: bool)
    ensures b <==> exists i :: 0 <= i < |audioMuted| && !audioMuted[i]
  {
    if audioMuted == [] then false
    else !audioMuted[0] || AnyUnmuted(audioMuted[1..])
  }

  function LocalInfo(p: LocalParticipant): ParticipantInfo {
    ParticipantInfo(p.identity, true, p.isSpeaking, p.isMicrophoneEnabled)
  }

  function RemoteInfo(p: RemoteParticipant): ParticipantInfo {
    ParticipantInfo(p.identity, false, p.isSpeaking, AnyUnmuted(p.audioMuted))
  }

  /** The roster `updateParticipants` builds from scratch: the local
      participant first, then every remote one in the room's order. */
  function Roster(view: RoomView): (r: seq<ParticipantInfo>)
    ensures |r| == 1 + |view.remotes|
    ensures r[0].identity == view.local.identity && r[0].isSelf
    ensures r[0].isSpeaking == view.local.isSpeaking && r[0].audioEnabled == view.local.isMicrophoneEnabled
    ensures forall i :: 0 < i < |r| ==>
      var p := view.remotes[i - 1];
      && r[i].identity == p.identity && !r[i].isSelf && r[i].isSpeaking == p.isSpeaking
      && (r[i].audioEnabled <==> exists j :: 0 <= j < |p.audioMuted| && !p.audioMuted[j])
  {
    [LocalInfo(view.local)] + seq(|view.remotes|, i requires 0 <= i < |view.remotes| => RemoteInfo(view.remotes[i]))
  }

  /** Exactly one roster entry is marked as self, and it is the first. */
  lemma RosterSelfIsFirst(view: RoomView, i: nat)
    requires i < |Roster(view)|
    ensures Roster(view)[i].isSelf <==> i == 0
  {
  }

  // ---------------------------------------------------------------- transcript entries

  /** The entry for a chat event: the sender is `'unknown'` when the event has
      no participant, and the entry is the user's own exactly when the sender
      equals the local identity of the room currently held (`localIdentity` is
      `None` when no room is held). */
  function ChatEntry(text: string, sender: Option<string>, localIdentity: Option<string>, ts: Timestamp): (m: ChatMessage)
    ensures m.identity == (if sender.Some? then sender.value else "unknown")
    ensures m.text == text && !m.isSystem && m.timestamp == ts
    ensures m.isSelf <==> localIdentity.Some? && localIdentity.value == m.identity
  {
    var id := sender.OrElse("unknown");
    ChatMessage(id, text, localIdentity == Some(id), false, ts)
  }

  function SystemEntry(text: string, ts: Timestamp): (m: ChatMessage)
    ensures m.identity == "" && m.text == text && m.isSystem && !m.isSelf && m.timestamp == ts
  {
    ChatMessage("", text, false, true, ts)
  }

  // ---------------------------------------------------------------- transport label

  /** One entry of a WebRTC statistics report; `kind` is the entry's `type`. */
  datatype StatsReport = StatsReport(kind: string, id: string, state: string, localCandidateId: string, protocol: Option<string>)

  predicate IsSucceededPair(r: StatsReport) {
    r.kind == "candidate-pair" && r.state == "succeeded"
  }

  predicate IsLocalCandidate(s: StatsReport) {
    s.kind == "local-candidate"
  }

  predicate IsCandidateOf(s: StatsReport, pair: StatsReport) {
    IsLocalCandidate(s) && s.id == pair.localCandidateId
  }

  /** `(s.protocol || '').toUpperCase()`. */
  function CandidateLabel(s: StatsReport): (r: string)
    ensures |r| == (if s.protocol.Some? then |s.protocol.value| else 0)
    ensures forall i :: 0 <= i < |r| ==> !IsAsciiLower(r[i])
  {
    ToUpper(OrOpt(s.protocol, ""))
  }

  /** Entry `j` is a local candidate of the succeeded pair at entry `i`. */
  predicate MatchAt(stats: seq<StatsReport>, i: int, j: int) {
    0 <= i < |stats| && 0 <= j < |stats| && IsSucceededPair(stats[i]) && IsCandidateOf(stats[j], stats[i])
  }

  /** The label after the inner scan over `stats[..n]` for `pair`, from `cur`. */
  function InnerScan(stats: seq<StatsReport>, pair: StatsReport, n: nat, cur: string): string
    requires n <= |stats|
  {
    if n == 0 then cur
    else
      var before := InnerScan(stats, pair, n - 1, cur);
      if IsCandidateOf(stats[n - 1], pair) then CandidateLabel(stats[n - 1]) else before
  }

  /** The label after the outer scan over `stats[..n]`, from `cur`. */
  function OuterScan(stats: seq<StatsReport>, n: nat, cur: string): string
    requires n <= |stats|
  {
    if n == 0 then cur
    else
      var before := OuterScan(stats, n - 1, cur);
      if IsSucceededPair(stats[n - 1]) then InnerScan(stats, stats[n - 1], |stats|, before) else before
  }

  /** The transport label after one statistics sample, starting from `cur`. */
  function TransportAfter(stats: seq<StatsReport>, cur: string): (r: string)
    ensures r == cur || CandidateSets(stats, r)
  {
    OuterFromCandidates(stats, |stats|, cur);
    OuterScan(stats, |stats|, cur)
  }

  /** The label a local candidate would set. */
  predicate CandidateSets(stats: seq<StatsReport>, text: string) {
    exists j :: 0 <= j < |stats| && IsLocalCandidate(stats[j]) && text == CandidateLabel(stats[j])
  }

  /** The inner scan ends with its starting label or the label of some local
      candidate it passed. */
  lemma {:induction false} InnerFromCandidates(stats: seq<StatsReport>, pair: StatsReport, n: nat, cur: string)
    requires n <= |stats|
    ensures InnerScan(stats, pair, n, cur) == cur || CandidateSets(stats, InnerScan(stats, pair, n, cur))
  {
    if n > 0 {
      InnerFromCandidates(stats, pair, n - 1, cur);
      if IsCandidateOf(stats[n - 1], pair) {
        assert IsLocalCandidate(stats[n - 1]);
      }
    }
  }

  /** The outer scan ends with its starting label or the label of some local
      candidate. */
  lemma {:induction false} OuterFromCandidates(stats: seq<StatsReport>, n: nat, cur: string)
    requires n <= |stats|
    ensures OuterScan(stats, n, cur) == cur || CandidateSets(stats, OuterScan(stats, n, cur))
  {
    if n > 0 {
      OuterFromCandidates(stats, n - 1, cur);
      if IsSucceededPair(stats[n - 1]) {
        InnerFromCandidates(stats, stats[n - 1], |stats|, OuterScan(stats, n - 1, cur));
      }
    }
  }

  /** No matching candidate in `stats[..n]` for `pair`: the label stays. */
  lemma {:induction false} InnerNoMatch(stats: seq<StatsReport>, pair: StatsReport, n: nat, cur: string)
    requires n <= |stats|
    requires forall j :: 0 <= j < n ==> !IsCandidateOf(stats[j], pair)
    ensures InnerScan(stats, pair, n, cur) == cur
  {
    if n > 0 {
      InnerNoMatch(stats, pair, n - 1, cur);
    }
  }

  /** The last matching candidate of the inner scan decides its label. */
  lemma {:induction false} InnerLastWins(stats: seq<StatsReport>, pair: StatsReport, n: nat, cur: string, j: nat)
    requires j < n <= |stats| && IsCandidateOf(stats[j], pair)
    requires forall j' :: j < j' < n ==> !IsCandidateOf(stats[j'], pair)
    ensures InnerScan(stats, pair, n, cur) == CandidateLabel(stats[j])
  {
    if n - 1 > j {
      InnerLastWins(stats, pair, n - 1, cur, j);
    }
  }

  /** With no match among the first `n` entries the outer scan keeps `cur`. */
  lemma {:induction false} OuterNoMatch(stats: seq<StatsReport>, n: nat, cur: string)
    requires n <= |stats|
    requires forall i, j :: 0 <= i < n && 0 <= j < |stats| ==> !MatchAt(stats, i, j)
    ensures OuterScan(stats, n, cur) == cur
  {
    if n > 0 {
      OuterNoMatch(stats, n - 1, cur);
      if IsSucceededPair(stats[n - 1]) {
        forall j | 0 <= j < |stats| ensures !IsCandidateOf(stats[j], stats[n - 1]) {
          assert !MatchAt(stats, n - 1, j);
        }
        InnerNoMatch(stats, stats[n - 1], |stats|, cur);
      }
    }
  }

  /** Later matches overwrite earlier ones: the label is that of the last
      match `(i, j)` in scan order (pairs outermost, candidates innermost). */
  lemma {:induction false} OuterLastWins(stats: seq<StatsReport>, n: nat, cur: string, i: nat, j: nat)
    requires i < n <= |stats| && MatchAt(stats, i, j)
    requires forall j' :: j < j' < |stats| ==> !MatchAt(stats, i, j')
    requires forall i', j' :: i < i' < n && 0 <= j' < |stats| ==> !MatchAt(stats, i', j')
    ensures OuterScan(stats, n, cur) == CandidateLabel(stats[j])
  {
    if n - 1 > i {
      OuterLastWins(stats, n - 1, cur, i, j);
      var p := stats[n - 1];
      if IsSucceededPair(p) {
        forall j' | 0 <= j' < |stats| ensures !IsCandidateOf(stats[j'], p) {
          assert !MatchAt(stats, n - 1, j');
        }
        InnerNoMatch(stats, p, |stats|, OuterScan(stats, n - 1, cur));
      }
    } else {
      forall j' | j < j' < |stats| ensures !IsCandidateOf(stats[j'], stats[i]) {
        assert !MatchAt(stats, i, j');
      }
      InnerLastWins(stats, stats[i], |stats|, OuterScan(stats, i, cur), j);
    }
  }

  /** The label is kept unless some succeeded pair has a matching local
      candidate. */
  lemma TransportKeptWithoutMatch(stats: seq<StatsReport>, cur: string)
    requires forall i, j :: !MatchAt(stats, i, j)
    ensures TransportAfter(stats, cur) == cur
  {
    OuterNoMatch(stats, |stats|, cur);
  }

  /** The label is the upper-cased protocol of the last match in scan order. */
  lemma TransportIsLastMatch(stats: seq<StatsReport>, cur: string, i: nat, j: nat)
    requires MatchAt(stats, i, j)
    requires forall j' :: j < j' ==> !MatchAt(stats, i, j')
    requires forall i', j' :: i < i' ==> !MatchAt(stats, i', j')
    ensures TransportAfter(stats, cur) == CandidateLabel(stats[j])
  {
    OuterLastWins(stats, |stats|, cur, i, j);
  }

  /** The nested scan the polling timer runs over one statistics sample. */
  method SelectTransport(stats: seq<StatsReport>, current: string) returns (chosen: string)
    ensures chosen == TransportAfter(stats, current)
  {
    chosen := current;
    var i := 0;
    while i < |stats|
      invariant 0 <= i <= |stats|
      invariant chosen == OuterScan(stats, i, current)
    {
      var report := stats[i];
      if IsSucceededPair(report) {
        chosen := ScanCandidates(stats, report, chosen);
      }
      i := i + 1;
    }
  }

  /** The inner loop of `SelectTransport`: every local candidate of `pair`
      overwrites the label in turn. */
  method ScanCandidates(stats: seq<StatsReport>, pair: StatsReport, start: string) returns (chosen: string)
    ensures chosen == InnerScan(stats, pair, |stats|, start)
  {
    chosen := start;
    var j := 0;
    while j < |stats|
      invariant 0 <= j <= |stats|
      invariant chosen == InnerScan(stats, pair, j, start)
    {
      if IsCandidateOf(stats[j], pair) {
        chosen := CandidateLabel(stats[j]);
      }
      j := j + 1;
    }
  }

  // ---------------------------------------------------------------- the service

  /** The roster-affecting events whose only effect here is a roster rebuild
      (attaching and detaching audio elements is DOM work, not modelled). */
  datatype RosterEvent = TrackSubscribed | TrackUnsubscribed | ActiveSpeakersChanged | TrackMuted | TrackUnmuted

  class LivekitService {
    var room: Option<RoomHandle>
    /** How many `Room` objects have been constructed. */
    var created: nat
    /** Whether the statistics timer is set. */
    var statsPolling: bool

    var connectionState: string
    var participants: seq<ParticipantInfo>
    var messages: seq<ChatMessage>
    var transport: string
    var isMuted: bool

    constructor ()
      ensures room == None && created == 0 && !statsPolling
      ensures connectionState == "disconnected" && participants == [] && messages == []
      ensures transport == NoTransport && !isMuted
    {
      room, created, statsPolling := None, 0, false;
      connectionState, participants, messages, transport, isMuted := "disconnected", [], [], NoTransport, false;
    }

    // computed signals

    function IsConnected(): (b: bool)
      reads this
      ensures b <==> connectionState == StateLabel(Connected)
    {
      connectionState == "connected"
    }

    function IsDisconnected(): (b: bool)
      reads this
      ensures b <==> connectionState == StateLabel(Disconnected)
    {
      connectionState == "disconnected"
    }

    function ParticipantCount(): (n: nat)
      reads this
      ensures n == |participants|
    {
      |participants|
    }

    /** The local identity of the room currently held, if any. */
    function LocalIdentity(view: RoomView): Option<string>
      reads this
    {
      if room.Some? then Some(view.local.identity) else None
    }

    // private helpers

    method AddMessage(msg: ChatMessage)
      modifies this
      ensures messages == old(messages) + [msg]
      ensures room == old(room) && created == old(created) && statsPolling == old(statsPolling)
      ensures connectionState == old(connectionState) && participants == old(participants)
      ensures transport == old(transport) && isMuted == old(isMuted)
    {
      messages := messages + [msg];
    }

    method AddSystemMessage(text: string, ts: Timestamp)
      modifies this
      ensures messages == old(messages) + [SystemEntry(text, ts)]
      ensures room == old(room) && created == old(created) && statsPolling == old(statsPolling)
      ensures connectionState == old(connectionState) && participants == old(participants)
      ensures transport == old(transport) && isMuted == old(isMuted)
    {
      AddMessage(SystemEntry(text, ts));
    }

    /** `updateParticipants()`: without a room nothing happens; otherwise the
        roster is replaced by a fresh projection of the room. */
    method UpdateParticipants(view: RoomView)
      modifies this
      ensures participants == (if old(room).Some? then Roster(view) else old(participants))
      ensures room == old(room) && created == old(created) && statsPolling == old(statsPolling)
      ensures connectionState == old(connectionState) && messages == old(messages)
      ensures transport == old(transport) && isMuted == old(isMuted)
    {
      if room.None? {
        return;
      }
      participants := Roster(view);
    }

    /** `cleanup()`: everything but the transcript (and the room field) goes
        back to its initial value. */
    method Cleanup()
      modifies this
      ensures !statsPolling && connectionState == "disconnected" && participants == []
      ensures transport == NoTransport && !isMuted
      ensures messages == old(messages) && room == old(room) && created == old(created)
    {
      statsPolling := false;
      connectionState := "disconnected";
      participants := [];
      transport := NoTransport;
      isMuted := false;
    }

    // operations

    /** `connect(roomName, identity)`. The token request may reject, and so may
        `room.connect` and the microphone step; the room object is kept from the
        moment it is constructed, even when a later step rejects. Events the room
        fires while connecting are separate calls of the handlers below. */
    method Connect(roomName: string, tokenOk: bool, connectOk: bool, micOk: bool, view: RoomView, ts: Timestamp)
      returns (result: Outcome)
      modifies this
      ensures !tokenOk ==>
        result.Err? && room == old(room) && created == old(created) && messages == old(messages)
        && participants == old(participants) && isMuted == old(isMuted)
      ensures tokenOk ==> room == Some(old(created)) && created == old(created) + 1
      ensures tokenOk && !(connectOk && micOk) ==>
        result.Err? && messages == old(messages) && participants == old(participants) && isMuted == old(isMuted)
      ensures tokenOk && connectOk && micOk ==>
        result == Ok && !isMuted
        && messages == old(messages) + [SystemEntry("Connected to room: " + roomName, ts)]
        && participants == Roster(view)
      ensures connectionState == old(connectionState) && transport == old(transport)
      ensures statsPolling == old(statsPolling)
    {
      if !tokenOk {
        return Err("token request failed");
      }
      room := Some(created);
      created := created + 1;
      if !connectOk {
        return Err("connect failed");
      }
      if !micOk {
        return Err("microphone could not be enabled");
      }
      isMuted := false;
      AddSystemMessage("Connected to room: " + roomName, ts);
      UpdateParticipants(view);
      result := Ok;
    }

    /** `disconnect()`: releases the room if there is one, then cleans up; a
        rejected room disconnect propagates before anything changes. */
    method Disconnect(disconnectOk: bool) returns (result: Outcome)
      modifies this
      ensures old(room).Some? && !disconnectOk ==>
        result.Err? && room == old(room) && connectionState == old(connectionState)
        && participants == old(participants) && transport == old(transport)
        && isMuted == old(isMuted) && statsPolling == old(statsPolling)
      ensures old(room).None? || disconnectOk ==>
        result == Ok && room == None && !statsPolling && connectionState == "disconnected"
        && participants == [] && transport == NoTransport && !isMuted
      ensures messages == old(messages) && created == old(created)
    {
      if room.Some? {
        if !disconnectOk {
          return Err("disconnect failed");
        }
        room := None;
      }
      Cleanup();
      result := Ok;
    }

    /** `toggleMute()`: without a room nothing happens. Otherwise the
        microphone is set to the old mute flag (unmuting when muted), the flag
        is flipped and the roster rebuilt. Returns the argument passed to
        `setMicrophoneEnabled`. */
    method ToggleMute(micOk: bool, view: RoomView) returns (micEnabled: Option<bool>, result: Outcome)
      modifies this
      ensures old(room).None? ==>
        micEnabled == None && result == Ok && isMuted == old(isMuted) && participants == old(participants)
      ensures old(room).Some? ==> micEnabled == Some(old(isMuted))
      ensures old(room).Some? && !micOk ==>
        result.Err? && isMuted == old(isMuted) && participants == old(participants)
      ensures old(room).Some? && micOk ==>
        result == Ok && isMuted == !old(isMuted) && participants == Roster(view)
      ensures room == old(room) && created == old(created) && statsPolling == old(statsPolling)
      ensures connectionState == old(connectionState) && messages == old(messages)
      ensures transport == old(transport)
    {
      micEnabled := None;
      if room.None? {
        return micEnabled, Ok;
      }
      var current := isMuted;
      micEnabled := Some(current);
      if !micOk {
        return micEnabled, Err("setMicrophoneEnabled failed");
      }
      isMuted := !current;
      UpdateParticipants(view);
      result := Ok;
    }

    /** `sendChat(text)`: without a room nothing is sent or recorded.
        Otherwise the text is sent and, once the send resolves, recorded as the
        user's own entry. Returns the text handed to the transport. */
    method SendChat(text: string, sendOk: bool, view: RoomView, ts: Timestamp) returns (sent: Option<string>, result: Outcome)
      modifies this
      ensures old(room).None? ==> sent == None && result == Ok && messages == old(messages)
      ensures old(room).Some? ==> sent == Some(text)
      ensures old(room).Some? && !sendOk ==> result.Err? && messages == old(messages)
      ensures old(room).Some? && sendOk ==>
        result == Ok && messages == old(messages) + [ChatMessage(view.local.identity, text, true, false, ts)]
      ensures room == old(room) && created == old(created) && statsPolling == old(statsPolling)
      ensures connectionState == old(connectionState) && participants == old(participants)
      ensures transport == old(transport) && isMuted == old(isMuted)
    {
      sent := None;
      if room.None? {
        return sent, Ok;
      }
      sent := Some(text);
      if !sendOk {
        return sent, Err("send failed");
      }
      AddMessage(ChatMessage(view.local.identity, text, true, false, ts));
      result := Ok;
    }

    // event handlers, registered on each room `connect` constructs

    /** `ConnectionStateChanged`: the state label follows the room; entering
        `Connected` rebuilds the roster and (re)starts the statistics timer. */
    method OnConnectionStateChanged(state: ConnectionState, view: RoomView)
      modifies this
      ensures connectionState == StateLabel(state)
      ensures state == Connected ==>
        statsPolling && participants == (if old(room).Some? then Roster(view) else old(participants))
      ensures state != Connected ==> statsPolling == old(statsPolling) && participants == old(participants)
      ensures room == old(room) && created == old(created) && messages == old(messages)
      ensures transport == old(transport) && isMuted == old(isMuted)
    {
      connectionState := StateLabel(state);
      if state == Connected {
        UpdateParticipants(view);
        statsPolling := true;
      }
    }

    /** Track subscription, active-speaker and mute events: a roster rebuild. */
    method OnRosterEvent(event: RosterEvent, view: RoomView)
      modifies this
      ensures participants == (if old(room).Some? then Roster(view) else old(participants))
      ensures room == old(room) && created == old(created) && statsPolling == old(statsPolling)
      ensures connectionState == old(connectionState) && messages == old(messages)
      ensures transport == old(transport) && isMuted == old(isMuted)
    {
      UpdateParticipants(view);
    }

    /** `ChatMessage`: one entry appended, see `ChatEntry`. */
    method OnChatMessage(text: string, sender: Option<string>, view: RoomView, ts: Timestamp)
      modifies this
      ensures messages == old(messages) + [ChatEntry(text, sender, old(LocalIdentity(view)), ts)]
      ensures room == old(room) && created == old(created) && statsPolling == old(statsPolling)
      ensures connectionState == old(connectionState) && participants == old(participants)
      ensures transport == old(transport) && isMuted == old(isMuted)
    {
      AddMessage(ChatEntry(text, sender, LocalIdentity(view), ts));
    }

    /** `ParticipantConnected`: a system entry "<identity> joined", then a
        roster rebuild. */
    method OnParticipantConnected(identity: string, view: RoomView, ts: Timestamp)
      modifies this
      ensures messages == old(messages) + [SystemEntry(identity + " joined", ts)]
      ensures participants == (if old(room).Some? then Roster(view) else old(participants))
      ensures room == old(room) && created == old(created) && statsPolling == old(statsPolling)
      ensures connectionState == old(connectionState)
      ensures transport == old(transport) && isMuted == old(isMuted)
    {
      AddSystemMessage(identity + " joined", ts);
      UpdateParticipants(view);
    }

    /** `ParticipantDisconnected`: a system entry "<identity> left", then a
        roster rebuild. */
    method OnParticipantDisconnected(identity: string, view: RoomView, ts: Timestamp)
      modifies this
      ensures messages == old(messages) + [SystemEntry(identity + " left", ts)]
      ensures participants == (if old(room).Some? then Roster(view) else old(participants))
      ensures room == old(room) && created == old(created) && statsPolling == old(statsPolling)
      ensures connectionState == old(connectionState)
      ensures transport == old(transport) && isMuted == old(isMuted)
    {
      AddSystemMessage(identity + " left", ts);
      UpdateParticipants(view);
    }

    /** `Disconnected`: a system entry, then `cleanup()`. The room field is not
        cleared here. */
    method OnDisconnected(ts: Timestamp)
      modifies this
      ensures messages == old(messages) + [SystemEntry("Disconnected from room", ts)]
      ensures !statsPolling && connectionState == "disconnected" && participants == []
      ensures transport == NoTransport && !isMuted
      ensures room == old(room) && created == old(created)
    {
      AddSystemMessage("Disconnected from room", ts);
      Cleanup();
    }

    /** One tick of the statistics timer. Without a room, or with a room that
        is not connected, the timer stops itself. Otherwise, when a sample of
        the subscriber connection's statistics is available, the transport
        label is chosen from it; when it is not, nothing changes. */
    method PollStats(roomState: ConnectionState, sample: Option<seq<StatsReport>>)
      modifies this
      ensures old(room).None? || roomState != Connected ==>
        !statsPolling && transport == old(transport)
      ensures old(room).Some? && roomState == Connected ==>
        statsPolling == old(statsPolling)
        && transport == (if sample.Some? then TransportAfter(sample.value, old(transport)) else old(transport))
      ensures room == old(room) && created == old(created) && connectionState == old(connectionState)
      ensures participants == old(participants) && messages == old(messages) && isMuted == old(isMuted)
    {
      if room.None? || roomState != Connected {
        statsPolling := false;
        return;
      }
      if sample.Some? {
        transport := SelectTransport(sample.value, transport);
      }
    }
  }

  /** Sending while connected and then receiving the transport's echo of the
      same text records it twice: no duplicate suppression is performed. */
  method EchoIsNotSuppressed(view: RoomView) returns (entries: seq<ChatMessage>)
    ensures |entries| == 3
    ensures entries[1].text == "hi" && entries[1].isSelf && entries[2].text == "hi" && entries[2].isSelf
  {
    var svc := new LivekitService();
    var r := svc.Connect("r1", true, true, true, view, 0);
    var sent;
    sent, r := svc.SendChat("hi", true, view, 1);
    svc.OnChatMessage("hi", Some(view.local.identity), view, 2);
    entries := svc.messages;
  }
}

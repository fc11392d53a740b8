/** The server's wrapper around the LiveKit server SDK: the WebSocket-to-HTTP
    rewrite of the configured URL, the fixed claims and room grant of the agent's
    access token, and the options every created room gets. The SDK calls
    themselves (signing, the room service requests) are not modelled. */
module ServerLivekit {

  import opened JsStrings

  /** The two rewrites, applied in this order, to the configured WebSocket URL. */
  function HttpUrl(wsUrl: string): (r: string)
    ensures |wsUrl| <= |r| <= |wsUrl| + 4
  {
    ReplaceFirst(ReplaceFirst(wsUrl, "ws://", "http://"), "wss://", "https://")
  }

  /** `ws://host` becomes `http://host` (provided `host` does not itself hold
      the text `wss://`, which the second rewrite would then replace). */
  lemma HttpUrlOfWs(host: string)
    requires !Contains(host, "wss://")
    ensures HttpUrl("ws://" + host) == "http://" + host
  {
    var s := "ws://" + host;
    assert OccursAt(s, "ws://", 0);
    assert IndexOf(s, "ws://") == 0;
    assert ReplaceFirst(s, "ws://", "http://") == "http://" + host by {
      assert s[5..] == host;
    }
    NoCharStarts("http://", "wss://");
    NoOccurrenceAfterPrefix("http://", host, "wss://");
  }

  /** `wss://host` becomes `https://host` (provided `host` does not itself hold
      the text `ws://`, which the first rewrite would then replace). */
  lemma HttpUrlOfWss(host: string)
    requires !Contains(host, "ws://")
    ensures HttpUrl("wss://" + host) == "https://" + host
  {
    var s := "wss://" + host;
    var prefix := "wss://";
    forall k | 0 <= k < 6 ensures !CanStartIn(prefix, "ws://", k) {
      var m := if 6 - k < 5 then 6 - k else 5;
      var w := prefix[k..k + m];
      if k == 0 {
        assert w[2] == 's' && "ws://"[..m][2] == ':';
      } else {
        assert w[0] == prefix[k] && prefix[k] != 'w';
      }
    }
    NoOccurrenceAfterPrefix("wss://", host, "ws://");
    assert ReplaceFirst(s, "ws://", "http://") == s;
    assert OccursAt(s, "wss://", 0);
    assert IndexOf(s, "wss://") == 0;
    assert s[6..] == host;
  }

  /** A URL holding neither scheme text is left unchanged. */
  lemma HttpUrlOtherwiseUnchanged(url: string)
    requires !Contains(url, "ws://") && !Contains(url, "wss://")
    ensures HttpUrl(url) == url
  {
  }

  /** Only the first `ws://` is rewritten: in `ws://a/ws://b` the second one
      stays. */
  lemma HttpUrlRewritesFirstOnly()
    ensures HttpUrl("ws://a/ws://b") == "http://a/ws://b"
  {
    var s := "ws://a/ws://b";
    assert OccursAt(s, "ws://", 0);
    var t := "http://a/ws://b";
    assert ReplaceFirst(s, "ws://", "http://") == t by {
      assert IndexOf(s, "ws://") == 0;
      assert s[5..] == "a/ws://b";
    }
    forall i | 0 <= i <= |t| ensures !OccursAt(t, "wss://", i) {
      if i + 6 <= |t| {
        assert t[i..i + 6][0] == t[i] && t[i..i + 6][2] == t[i + 2];
        assert t[i] != 'w' || t[i + 2] != 's';
      }
    }
  }

  /** An occurrence of `pat` starting at index `k` of `prefix` would agree
      with `prefix` on the overlapping part. */
  predicate CanStartIn(prefix: string, pat: string, k: nat)
    requires k <= |prefix|
  {
    var m := if |prefix| - k < |pat| then |prefix| - k else |pat|;
    prefix[k..k + m] == pat[..m]
  }

  /** No occurrence of `pat` can start inside `prefix` when `prefix` does not
      hold the first character of `pat`. */
  lemma NoCharStarts(prefix: string, pat: string)
    requires pat != [] && forall k :: 0 <= k < |prefix| ==> prefix[k] != pat[0]
    ensures forall k :: 0 <= k < |prefix| ==> !CanStartIn(prefix, pat, k)
  {
    forall k | 0 <= k < |prefix| ensures !CanStartIn(prefix, pat, k) {
      var m := if |prefix| - k < |pat| then |prefix| - k else |pat|;
      assert prefix[k..k + m][0] != pat[..m][0];
    }
  }

  /** When no occurrence of `pat` can start inside `prefix`, `pat` occurs in
      `prefix + rest` only if it occurs in `rest`. */
  lemma NoOccurrenceAfterPrefix(prefix: string, rest: string, pat: string)
    requires forall k :: 0 <= k < |prefix| ==> !CanStartIn(prefix, pat, k)
    requires !Contains(rest, pat)
    ensures !Contains(prefix + rest, pat)
  {
    var s := prefix + rest;
    forall i ensures !OccursAt(s, pat, i) {
      if i < 0 || i + |pat| > |s| {
      } else if i < |prefix| {
        var m := if |prefix| - i < |pat| then |prefix| - i else |pat|;
        assert s[i..i + |pat|][..m] == prefix[i..i + m] by {
          var w := s[i..i + |pat|];
          forall j | 0 <= j < m ensures w[j] == prefix[i..i + m][j] {
            assert w[j] == s[i + j];
          }
        }
        assert !CanStartIn(prefix, pat, i);
      } else {
        var j := i - |prefix|;
        assert !OccursAt(rest, pat, j);
        var w := s[i..i + |pat|];
        var v := rest[j..j + |pat|];
        forall t | 0 <= t < |w| ensures w[t] == v[t] {
          assert w[t] == s[i + t] && v[t] == rest[j + t];
        }
        assert w == v;
      }
    }
  }

  // ---------------------------------------------------------------- agent token

  /** The identity claims of the agent's access token. */
  datatype AgentIdentity = AgentIdentity(identity: string, name: string, ttl: string)

  /** The video grant added to the agent's access token. */
  datatype VideoGrant = VideoGrant(
    roomJoin: bool, room: string, canPublish: bool, canSubscribe: bool, canPublishData: bool)

  /** What the agent's token is built from, before signing. */
  datatype AgentTokenClaims = AgentTokenClaims(who: AgentIdentity, grant: VideoGrant)

  const AgentId := AgentIdentity("ai-agent", "AI Assistant", "1h")

  /** The claims `generateAgentToken(roomName)` signs. */
  function AgentToken(roomName: string): (t: AgentTokenClaims)
    ensures t.who == AgentId && t.grant.room == roomName
  {
    AgentTokenClaims(AgentId, VideoGrant(true, roomName, true, true, true))
  }

  /** Every agent token carries the same identity, display name and a one-hour
      lifetime, and grants join, publish, subscribe and data publishing in
      exactly the room it was requested for; so two tokens agree exactly when
      they were issued for the same room. */
  lemma AgentTokenScope(r1: string, r2: string)
    ensures AgentToken(r1).who == AgentIdentity("ai-agent", "AI Assistant", "1h")
    ensures var g := AgentToken(r1).grant;
      g.room == r1 && g.roomJoin && g.canPublish && g.canSubscribe && g.canPublishData
    ensures AgentToken(r1) == AgentToken(r2) <==> r1 == r2
  {
  }

  // ---------------------------------------------------------------- room creation

  /** The options record `createRoom(name)` sends to the room service. */
  datatype CreateRoomOptions = CreateRoomOptions(name: string, emptyTimeout: nat, maxParticipants: nat)

  function CreateRoomRequest(name: string): (o: CreateRoomOptions)
    ensures o.name == name
    ensures o.emptyTimeout == 600 && o.maxParticipants == 20
  {
    CreateRoomOptions(name, 600, 20)
  }

  /** The options the agent passes to `room.connect`. */
  datatype ConnectOptions = ConnectOptions(autoSubscribe: bool, dynacast: bool)

  function AgentConnectOptions(): (o: ConnectOptions)
    ensures o.autoSubscribe && !o.dynacast
  {
    ConnectOptions(autoSubscribe := true, dynacast := false)
  }
}

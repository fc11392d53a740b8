# LiveKit chat-over-TCP: session controllers and agent registry in Dafny

This project models the stateful core of a LiveKit chat application. Its
browser clients and a server-side AI agent talk over WebRTC data channels
(ICE over TCP). The model covers four pieces:

- **The agent orchestrator** (`Agent`, `AgentReplies`).
  - A table of the rooms the server-side agent is in, kept in insertion order like a JavaScript `Map`.
  - `joinRoom`, `leaveRoom`, `shutdown`, `isInRoom` and `getActiveRooms`.
  - The three per-room event handlers.
  - The keyword reply policy `generateResponse`. It is stated twice: as the source's chain of tests (`Classify`), and as an ordered rule table read first-match-first (`Rules`, `FirstMatch`). A lemma proves the two agree.
- **The demo client's session controller** (`DemoSession`): a class whose fields are the five observable signals.
  - The signals are connection state, roster, transcript, transport label and mute flag.
  - Every operation and event handler is a method on the class.
  - The roster is rebuilt from the room on each roster event.
  - The transport label is chosen by a nested scan over a WebRTC statistics sample. The scan is proved against a reference definition, and lemmas show that the last match wins.
- **The production client's session controller** (`ClientSession`): the RxJS variant.
  - It holds the transcript with its sender fallback chains, and the participant list.
  - It holds a three-valued connection label.
- **The server's SDK wrapper** (`ServerLivekit`).
  - The `ws://`→`http://` / `wss://`→`https://` URL rewrite, over a model of JavaScript's first-occurrence `String.replace`.
  - The claims and grant of the agent's access token.
  - The options of `createRoom`.

`JsStrings` models the JavaScript string operations these rely on:
- ASCII case mapping;
- `trim` with the ECMAScript whitespace set;
- `includes`;
- the anchored regular-expression test `/^(hi|hello|...)/` (`StartsWith`, one alternative per call);
- `replace` with a string pattern;
- `a || b` on strings.

`IndexOf` is the search that `includes` and `replace` both rely on.
`Wrappers` holds `Option` (`undefined` or a value, with `??`) and `Outcome`
(a resolved or rejected promise).

Modelling conventions:

- Each awaited step is a `bool` parameter saying whether it resolved: fetching a token, `connect`, `disconnect`, `setMicrophoneEnabled`, `sendChatMessage`. A rejection that the source lets propagate is returned as `Err`.
- A LiveKit `Room` object is an opaque number taken from a `created` counter, so "no session was created" reads as "`created` is unchanged".
- The room's own state is given to each handler as a value: its local participant, its remote participants in enumeration order, and, where read, its connection state. This is what the room reports at the moment the handler runs.
- Timestamps, `crypto.randomUUID()` and statistics samples are opaque inputs.

Behaviours of the code that the model keeps:

- The agent registers its room handlers only after `connect` has resolved.
- In both clients, a failed `connect` leaves the constructed room object in place.
- The demo client's `sendChat` sends any text given to it, blank text included.
- Neither client filters out the room's echo of a message it sent (`DemoSession.EchoIsNotSuppressed`).
- No handler is ever unregistered.
- `disconnect` in the demo client keeps the transcript.
- `getActiveRooms` returns the keys in insertion order.

Because handlers are never unregistered, and the agent's `Disconnected` handler deletes by the room name it captured, a stale room's late `Disconnected` evicts a newer room joined under the same name (`Agent.StaleDisconnectEvictsNewerRoom`).

## Model

| member | source | states |
|---|---|---|
| JsStrings.ToLower | server/src/services/agent.service.ts:68 | same length; every ASCII capital is lowered, every other character is kept |
| JsStrings.ToUpper | ice-tcp-setup/ng-demo/src/app/services/livekit.service.ts:195 | same length; every ASCII small letter is raised, every other character is kept |
| JsStrings.TrimStart | server/src/services/agent.service.ts:68 | the result is a suffix of the input; its first character is not whitespace; everything dropped is whitespace |
| JsStrings.TrimEnd | server/src/services/agent.service.ts:68 | the result is a prefix of the input; its last character is not whitespace; everything dropped is whitespace |
| JsStrings.Trim | server/src/services/agent.service.ts:68 | the result is a slice of the input with only whitespace cut on either side, and has no whitespace at either end |
| JsStrings.TrimAllWhitespace | server/src/services/agent.service.ts:68 | a whitespace-only string trims to the empty string |
| JsStrings.TrimKeepsTrimmed | server/src/services/agent.service.ts:68 | a string with no whitespace at either end is its own trim |
| JsStrings.IndexFrom | server/src/services/agent.service.ts:78 | the first index at or after `from` where the pattern occurs, or -1 exactly when there is none |
| JsStrings.IndexOf | server/src/services/agent.service.ts:78 | the first occurrence of the pattern, or -1 exactly when it occurs nowhere |
| JsStrings.Contains | server/src/services/agent.service.ts:78-94 | `includes` holds exactly when the pattern occurs at some index |
| JsStrings.StartsWith | server/src/services/agent.service.ts:74 | the anchored test `/^p/` for a literal `p` holds exactly when `p` occurs at index 0, and then `includes(p)` holds too |
| JsStrings.ReplaceFirst | server/src/services/livekit.service.ts:8-10 | without an occurrence the string is unchanged; otherwise the first occurrence, and only it, is replaced |
| JsStrings.Or | server/src/services/agent.service.ts:32 | `a \|\| b`: `a` when non-empty, else `b` |
| JsStrings.OrOpt | ice-tcp-setup/ng-demo/src/app/services/livekit.service.ts:195 | `a \|\| b` with `a` possibly undefined: `a` when present and non-empty, else `b` |
| ServerLivekit.HttpUrl | server/src/services/livekit.service.ts:8-10 | the two rewrites in order; together they lengthen the URL by at most 4 characters (2 for each scheme rewritten) and never shorten it |
| ServerLivekit.HttpUrlOfWs | server/src/services/livekit.service.ts:8-10 | `ws://h` becomes `http://h` when `h` holds no `wss://` |
| ServerLivekit.HttpUrlOfWss | server/src/services/livekit.service.ts:8-10 | `wss://h` becomes `https://h` when `h` holds no `ws://` |
| ServerLivekit.HttpUrlOtherwiseUnchanged | server/src/services/livekit.service.ts:8-10 | a URL holding neither scheme text is unchanged |
| ServerLivekit.HttpUrlRewritesFirstOnly | server/src/services/livekit.service.ts:9 | only the first `ws://` is rewritten: `ws://a/ws://b` becomes `http://a/ws://b` |
| ServerLivekit.AgentToken | server/src/services/livekit.service.ts:22-35 | the claims carry the agent's fixed identity record, and the grant names the requested room |
| ServerLivekit.AgentTokenScope | server/src/services/livekit.service.ts:22-35 | identity `ai-agent`, name `AI Assistant`, ttl `1h`; grant for exactly the requested room with join, publish, subscribe and data publishing; tokens agree exactly when their rooms do |
| ServerLivekit.CreateRoomRequest | server/src/services/livekit.service.ts:18-20 | the room keeps its name and always gets `emptyTimeout` 600 and `maxParticipants` 20 |
| ServerLivekit.AgentConnectOptions | server/src/services/agent.service.ts:19-22 | the agent connects with `autoSubscribe` on and `dynacast` off |
| AgentReplies.Normalize | server/src/services/agent.service.ts:68 | `toLowerCase().trim()`: never longer than the message, no ASCII capital left, no whitespace at either end |
| AgentReplies.Classify | server/src/services/agent.service.ts:70-98 | the chain of tests in source order; it answers the empty-message reply exactly on `""` or `" "`, and the greeting exactly when a greeting word is a prefix and the text is not a lone space |
| AgentReplies.ReplyText | server/src/services/agent.service.ts:70-98 | every reply text is non-empty |
| AgentReplies.GenerateResponse | server/src/services/agent.service.ts:67-99 | total: every message and sender get a non-empty reply |
| AgentReplies.SingleSpaceTestIsDead | server/src/services/agent.service.ts:68-70 | the normalised text is never a lone space, so that test is unreachable |
| AgentReplies.GoodbyeTestIsRedundant | server/src/services/agent.service.ts:94 | any text holding `goodbye` holds `bye` |
| AgentReplies.FirstMatchIsFirst | server/src/services/agent.service.ts:70-96 | the reply is that of the first rule that fires, whatever later rules would fire |
| AgentReplies.FirstMatchFallsBack | server/src/services/agent.service.ts:98 | when no rule fires the fallback is chosen |
| AgentReplies.FiringIndex | server/src/services/agent.service.ts:70-96 | the index of the first firing rule, or the table length when none fires |
| AgentReplies.ClassifyIsFirstMatch | server/src/services/agent.service.ts:70-98 | on every text except a lone space (which trimming never yields), the chain of tests equals the rule table read first-match-first with the echo as fallback |
| AgentReplies.GenerateResponseIsFirstMatch | server/src/services/agent.service.ts:67-99 | the source's chain of tests on `toLowerCase().trim()` equals the rule table read first-match-first, with the echo as fallback |
| AgentReplies.RuleAt | server/src/services/agent.service.ts:70-96 | when rule `k` is the first to fire, the chain chooses rule `k`'s reply |
| AgentReplies.NoRuleFires | server/src/services/agent.service.ts:98 | when no rule fires, the chain chooses the echo |
| AgentReplies.EchoKeepsOriginal | server/src/services/agent.service.ts:98 | the default reply quotes the message as received, untrimmed and in its original case |
| AgentReplies.GreetingWins | server/src/services/agent.service.ts:74-76 | a message starting with a greeting word is greeted by name, even if it also asks for help or says goodbye |
| AgentReplies.SenderLabel | server/src/services/agent.service.ts:32 | the identity when non-empty, else the name when non-empty, else `User` |
| AgentReplies.ChatReply | server/src/services/agent.service.ts:26-32 | no reply exactly when the event has no participant; otherwise the policy's reply to the message, addressed by `SenderLabel` |
| AgentReplies.WelcomeMessage | server/src/services/agent.service.ts:47 | the welcome text addressed by the name when non-empty, else the identity |
| Agent.Without | server/src/services/agent.service.ts:57 | `Map.delete` on the key order removes exactly that key, keeps distinctness, and is the identity on an absent key |
| Agent.WithoutKeepsOrder | server/src/services/agent.service.ts:113 | deleting a key that occurs once removes exactly its position and keeps the order of the rest |
| Agent.WithoutTwice | server/src/services/agent.service.ts:112-113 | deleting a key that is already gone changes nothing |
| Agent.AgentDelivery | server/src/services/agent.service.ts:34-41 | the text is sent; it is stored as the agent's message in the handler's room exactly when the send resolves |
| Agent.AgentService.constructor | server/src/services/agent.service.ts:7 | the table starts empty |
| Agent.AgentService.IsInRoom | server/src/services/agent.service.ts:132-134 | holds exactly when the room is a key of the table |
| Agent.AgentService.GetActiveRooms | server/src/services/agent.service.ts:136-138 | the key order itself, which `JoinRoom` appends to and `DeleteKey` removes from in place; exactly the table's keys, each once, as many as the table has |
| Agent.AgentService.DeleteKey | server/src/services/agent.service.ts:57 | the key leaves the table and the key order; nothing else changes |
| Agent.AgentService.JoinRoom | server/src/services/agent.service.ts:9-65 | present room: no change and no room object; token failure: error, no change; connect failure: error, table unchanged; success: the new room is stored under the name, appended to the key order, handlers registered, and the request carries the agent's token and connect options |
| Agent.AgentService.OnDisconnected | server/src/services/agent.service.ts:55-58 | deletes the room name the handler captured, whichever room is stored there now |
| Agent.AgentService.OnChatMessage | server/src/services/agent.service.ts:26-42 | answers only events with a participant, with the policy's reply, stored under the captured room name |
| Agent.AgentService.OnParticipantConnected | server/src/services/agent.service.ts:44-53 | one welcome message per join, stored under the captured room name when sent |
| Agent.AgentService.LeaveRoom | server/src/services/agent.service.ts:109-116 | absent room: no-op; resolved disconnect: only that key is removed, whether or not the `Disconnected` handler also ran; rejected disconnect: error, and the key goes only if the handler ran |
| Agent.AgentService.Shutdown | server/src/services/agent.service.ts:118-130 | a disconnect is attempted on every entry in insertion order; failures are collected, not propagated; afterwards the table is empty and SDK resources are released |
| Agent.StaleDisconnectEvictsNewerRoom | server/src/services/agent.service.ts:55-60 | a first room's late `Disconnected` removes a second room joined under the same name |
| Agent.ShutdownIsolatesFailures | server/src/services/agent.service.ts:120-128 | with two rooms whose first disconnect rejects, both are attempted, the first is reported, and the table ends empty |
| DemoSession.AnyUnmuted | ice-tcp-setup/ng-demo/src/app/services/livekit.service.ts:166 | holds exactly when some audio publication is unmuted |
| DemoSession.Roster | ice-tcp-setup/ng-demo/src/app/services/livekit.service.ts:154-169 | length 1 + number of remotes; entry 0 is the local participant, marked self, with `audioEnabled` equal to `isMicrophoneEnabled`; every other entry is the matching remote, not self, with `audioEnabled` exactly when some audio publication is unmuted |
| DemoSession.RosterSelfIsFirst | ice-tcp-setup/ng-demo/src/app/services/livekit.service.ts:158-164 | an entry is marked self exactly when it is the first |
| DemoSession.ChatEntry | ice-tcp-setup/ng-demo/src/app/services/livekit.service.ts:88-92 | sender `unknown` without a participant; own entry exactly when a room is held and the sender is its local identity |
| DemoSession.SystemEntry | ice-tcp-setup/ng-demo/src/app/services/livekit.service.ts:176-178 | empty identity, a system entry, never self |
| DemoSession.StateLabel | ice-tcp-setup/ng-demo/src/app/services/livekit.service.ts:62 | the shown label is `connected` exactly for `Connected` and `disconnected` exactly for `Disconnected` |
| DemoSession.CandidateLabel | ice-tcp-setup/ng-demo/src/app/services/livekit.service.ts:195 | `(protocol \|\| '').toUpperCase()`: as long as the protocol (0 without one), with no ASCII small letter |
| DemoSession.InnerFromCandidates | ice-tcp-setup/ng-demo/src/app/services/livekit.service.ts:193-197 | the inner scan ends with its starting label or the label of some local candidate |
| DemoSession.OuterFromCandidates | ice-tcp-setup/ng-demo/src/app/services/livekit.service.ts:191-199 | the outer scan ends with its starting label or the label of some local candidate |
| DemoSession.TransportAfter | ice-tcp-setup/ng-demo/src/app/services/livekit.service.ts:191-199 | the label after one sample is the old one or the upper-cased protocol of some local candidate in it |
| DemoSession.InnerNoMatch | ice-tcp-setup/ng-demo/src/app/services/livekit.service.ts:193-197 | the inner scan keeps the label when no entry is a matching local candidate |
| DemoSession.InnerLastWins | ice-tcp-setup/ng-demo/src/app/services/livekit.service.ts:193-197 | the inner scan ends with the label of its last matching candidate |
| DemoSession.OuterNoMatch | ice-tcp-setup/ng-demo/src/app/services/livekit.service.ts:191-199 | the outer scan keeps the label when no succeeded pair has a matching candidate |
| DemoSession.OuterLastWins | ice-tcp-setup/ng-demo/src/app/services/livekit.service.ts:191-199 | the outer scan ends with the label of the last match in scan order |
| DemoSession.TransportKeptWithoutMatch | ice-tcp-setup/ng-demo/src/app/services/livekit.service.ts:191-199 | without a succeeded candidate pair whose local candidate is present, the transport label stays |
| DemoSession.TransportIsLastMatch | ice-tcp-setup/ng-demo/src/app/services/livekit.service.ts:191-199 | the label is the upper-cased protocol (or empty) of the last local candidate matching a succeeded pair; later matches overwrite earlier ones |
| DemoSession.SelectTransport | ice-tcp-setup/ng-demo/src/app/services/livekit.service.ts:191-199 | the nested loop computes exactly the reference scan `TransportAfter` |
| DemoSession.ScanCandidates | ice-tcp-setup/ng-demo/src/app/services/livekit.service.ts:193-197 | the inner loop computes exactly the reference inner scan `InnerScan` over the whole sample |
| DemoSession.LivekitService.constructor | ice-tcp-setup/ng-demo/src/app/services/livekit.service.ts:33-41 | no room, no timer, state `disconnected`, empty roster and transcript, label `—`, not muted |
| DemoSession.LivekitService.IsConnected | ice-tcp-setup/ng-demo/src/app/services/livekit.service.ts:44 | holds exactly when the state label is that of `Connected` |
| DemoSession.LivekitService.IsDisconnected | ice-tcp-setup/ng-demo/src/app/services/livekit.service.ts:45 | holds exactly when the state label is that of `Disconnected` |
| DemoSession.LivekitService.ParticipantCount | ice-tcp-setup/ng-demo/src/app/services/livekit.service.ts:46 | the roster's length |
| DemoSession.LivekitService.AddMessage | ice-tcp-setup/ng-demo/src/app/services/livekit.service.ts:172-174 | exactly one entry is appended and the existing prefix is kept; nothing else changes |
| DemoSession.LivekitService.AddSystemMessage | ice-tcp-setup/ng-demo/src/app/services/livekit.service.ts:176-178 | appends one system entry with the given text |
| DemoSession.LivekitService.UpdateParticipants | ice-tcp-setup/ng-demo/src/app/services/livekit.service.ts:152-170 | nothing without a room; otherwise the roster is replaced by a fresh projection of the room |
| DemoSession.LivekitService.Cleanup | ice-tcp-setup/ng-demo/src/app/services/livekit.service.ts:213-219 | timer stopped, state `disconnected`, roster empty, label `—`, not muted; the transcript is untouched |
| DemoSession.LivekitService.Connect | ice-tcp-setup/ng-demo/src/app/services/livekit.service.ts:50-122 | token failure: error, no change; otherwise a new room is held even if `connect` or the microphone step then rejects; success: unmuted, "Connected to room: <name>" appended, roster rebuilt |
| DemoSession.LivekitService.Disconnect | ice-tcp-setup/ng-demo/src/app/services/livekit.service.ts:124-130 | with or without a room, ends with no room and cleaned-up state; the transcript is kept; a rejected room disconnect propagates first |
| DemoSession.LivekitService.ToggleMute | ice-tcp-setup/ng-demo/src/app/services/livekit.service.ts:132-138 | no room: no change; otherwise the microphone is set to the old mute flag, the flag is negated and the roster rebuilt |
| DemoSession.LivekitService.SendChat | ice-tcp-setup/ng-demo/src/app/services/livekit.service.ts:140-150 | no room: nothing sent or appended; otherwise the text is sent and, once the send resolves, one own entry carrying it is appended |
| DemoSession.LivekitService.OnConnectionStateChanged | ice-tcp-setup/ng-demo/src/app/services/livekit.service.ts:61-67 | the label follows the state; entering `Connected` rebuilds the roster and starts the timer |
| DemoSession.LivekitService.OnRosterEvent | ice-tcp-setup/ng-demo/src/app/services/livekit.service.ts:105-107 | a roster rebuild and nothing else |
| DemoSession.LivekitService.OnChatMessage | ice-tcp-setup/ng-demo/src/app/services/livekit.service.ts:88-92 | appends exactly one `ChatEntry` |
| DemoSession.LivekitService.OnParticipantConnected | ice-tcp-setup/ng-demo/src/app/services/livekit.service.ts:95-98 | appends "<id> joined", then rebuilds the roster |
| DemoSession.LivekitService.OnParticipantDisconnected | ice-tcp-setup/ng-demo/src/app/services/livekit.service.ts:100-103 | appends "<id> left", then rebuilds the roster |
| DemoSession.LivekitService.OnDisconnected | ice-tcp-setup/ng-demo/src/app/services/livekit.service.ts:109-112 | appends "Disconnected from room", then cleans up; the room field stays |
| DemoSession.LivekitService.PollStats | ice-tcp-setup/ng-demo/src/app/services/livekit.service.ts:182-203 | without a connected room the timer stops; otherwise an available sample sets the label by `TransportAfter` |
| DemoSession.EchoIsNotSuppressed | ice-tcp-setup/ng-demo/src/app/services/livekit.service.ts:140-150 | a sent message and the room's echo of it are both recorded as own entries |
| ClientSession.NameOr | client/src/app/services/livekit.service.ts:80 | the participant's name when present and non-empty, else the fallback |
| ClientSession.IdentityOr | client/src/app/services/livekit.service.ts:79 | the participant's identity when present and non-empty, else the fallback |
| ClientSession.ChatEntry | client/src/app/services/livekit.service.ts:71-84 | id and timestamp fall back to the generated id and the clock; identity falls back participant → local → `local`, name participant → local → `You`; local exactly when the event has no participant |
| ClientSession.OwnMessageIsLocal | client/src/app/services/livekit.service.ts:79-81 | an event without a participant is local and attributed to the local identity |
| ClientSession.ParticipantList | client/src/app/services/livekit.service.ts:112-115 | the local participant first, then the remote ones in order |
| ClientSession.ClientService.constructor | client/src/app/services/livekit.service.ts:24-28 | no room, empty transcript and list, state `disconnected` |
| ClientSession.ClientService.Connect | client/src/app/services/livekit.service.ts:36-65 | the agent-join outcome changes nothing; token failure: error, no change; connect failure: error, room kept; success: state `connected` and the list rebuilt |
| ClientSession.ClientService.OnChatMessage | client/src/app/services/livekit.service.ts:71-84 | appends exactly one `ChatEntry` |
| ClientSession.ClientService.OnParticipantChanged | client/src/app/services/livekit.service.ts:87-88 | a list rebuild and nothing else |
| ClientSession.ClientService.OnDisconnected | client/src/app/services/livekit.service.ts:91-94 | state `disconnected` and an empty list; the transcript and room are kept |
| ClientSession.ClientService.OnReconnecting | client/src/app/services/livekit.service.ts:95-97 | state `reconnecting`, nothing else |
| ClientSession.ClientService.OnReconnected | client/src/app/services/livekit.service.ts:98-100 | state `connected`, nothing else |
| ClientSession.ClientService.SendMessage | client/src/app/services/livekit.service.ts:103-108 | without a room it fails with "Not connected to a room" and sends nothing; otherwise it sends the text; it never touches the transcript |
| ClientSession.ClientService.UpdateParticipantList | client/src/app/services/livekit.service.ts:110-117 | nothing without a room; otherwise the local participant followed by the remote ones |
| ClientSession.ClientService.Disconnect | client/src/app/services/livekit.service.ts:119-127 | no room: no-op; otherwise, once disconnected, no room, empty transcript and list, state `disconnected` |
| ClientSession.ClientService.IsConnected | client/src/app/services/livekit.service.ts:129-131 | holds exactly when a room is held and the room reports `Connected` |
| ClientSession.DisconnectEventKeepsRoom | client/src/app/services/livekit.service.ts:91-94 | after a `Disconnected` event, `sendMessage` still sends and the transcript survives until `disconnect()` |

## Left out

- Concurrency. Each call runs to completion as one step, with its awaited outcomes given up front. Events that fire while a call is suspended are separate handler calls. The non-atomic check-then-insert of two overlapping `joinRoom` calls for the same room is not modelled.
- The LiveKit SDKs (`Room`, `connect`, `disconnect`, the data channel) and the HTTP requests for tokens and the agent join. Each is one success/failure parameter.
- JWT signing and the room service client. Only the claim record and the options record are modelled.
- `listRooms` in server/src/services/livekit.service.ts: a pass-through to the SDK.
- MongoDB persistence. The model records the message handed to `persistMessage` when the send resolves; a failing save is caught by the source and changes nothing.
- `dispose()` and console logging. `dispose()` is the `disposed` flag; logging has no effect on the state.
- DOM audio: attaching and detaching audio elements in the demo client's track handlers, and the `Track.Kind.Audio` test.
- The `setInterval` timer and the access to the subscriber peer connection of the demo client. The timer is the `statsPolling` flag. A missing peer connection, or a rejected `getStats`, is the `None` sample.
- `crypto.randomUUID()`, `Date.now()` and `new Date()`: opaque inputs.
- Strings are sequences of Unicode scalar values, not UTF-16 code units. A character outside the Basic Multilingual Plane is one character here and two code units in JavaScript, and a string holding a lone surrogate cannot be represented. No modelled operation depends on this, since every searched pattern is ASCII and every whitespace code lies in the Basic Multilingual Plane; only the numeric index `JsStrings.IndexOf` returns can differ, and it is used only inside `replace`.
- `JsStrings.ToLower` and `JsStrings.ToUpper` map ASCII letters only. Unicode case mapping is not modelled.
- `JsStrings.ReplaceFirst` ignores `$` substitution patterns. The replacements used here contain no `$`.
- DemoSession.LivekitService: the `?? 'me'` fallbacks on the local identity are not modelled. The client library types the identity as a string, so they never fire.
- ClientSession.ChatEntry: `payload.timestamp || Date.now()` treats zero as absent. NaN, the other falsy number, is not modelled.
- Handlers stay registered on every room object either client ever constructed. The model's handlers act on the service whichever room fired them.
- Agent.AgentService.OnChatMessage and Agent.AgentService.OnParticipantConnected: these are functions returning what the handler sends and stores. The handlers change no field of the service.

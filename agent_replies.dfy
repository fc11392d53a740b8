/** The agent's reply policy: the keyword classifier it answers each chat
    message with, the sender name it addresses, and its welcome message.
    `GenerateResponse` is written as the source's chain of tests; `Rules` and
    `FirstMatch` are an independent statement of the same policy as an ordered
    rule table where the first firing rule wins. */
module AgentReplies {

  import opened Wrappers
  import opened JsStrings

  const EmptyReply := "It seems like you sent an empty message. How can I help you?"
  const HelpReply := "I am a simple AI assistant running as a LiveKit participant. I can respond to your messages in real-time over WebRTC data channels. This POC demonstrates ICE over TCP connectivity - no UDP ports needed!"
  const HowAreYouReply := "I'm doing great, thanks for asking! I'm running as a server-side LiveKit participant connected via TCP."
  const CapabilitiesReply := "I can chat with you in real-time through LiveKit data channels. This setup uses ICE over TCP, making it compatible with corporate VPNs that block UDP traffic."
  const TransportReply := "Great question! This POC uses ICE over TCP (port 7881) instead of the default UDP transport. This means it works even in restrictive network environments like corporate VPNs that block UDP. The LiveKit server is configured with tcp_port: 7881 and the client uses iceTransportPolicy: relay."

  function GreetingReply(userIdentity: string): string {
    "Hello " + userIdentity + "! How can I help you today?"
  }

  function FarewellReply(userIdentity: string): string {
    "Goodbye " + userIdentity + "! It was nice chatting with you."
  }

  function EchoReply(userMessage: string): string {
    "You said: \"" + userMessage + "\". I'm a POC chatbot demonstrating LiveKit WebRTC over TCP. Try saying \"help\" to learn more!"
  }

  /** The alternatives of the anchored pattern `^(hi|hello|hey|greetings|howdy)`. */
  const Greetings: seq<string> := ["hi", "hello", "hey", "greetings", "howdy"]

  predicate StartsWithAny(s: string, words: seq<string>) {
    exists i :: 0 <= i < |words| && StartsWith(s, words[i])
  }

  predicate ContainsAny(s: string, words: seq<string>) {
    exists i :: 0 <= i < |words| && Contains(s, words[i])
  }

  /** The text the tests run on: `userMessage.toLowerCase().trim()`. */
  function Normalize(userMessage: string): (r: string)
    ensures |r| <= |userMessage|
    ensures forall i :: 0 <= i < |r| ==> !IsAsciiUpper(r[i])
    ensures r == [] || (!IsWhitespace(r[0]) && !IsWhitespace(r[|r| - 1]))
  {
    TrimKeepsLower(ToLower(userMessage));
    Trim(ToLower(userMessage))
  }

  lemma TrimKeepsLower(s: string)
    requires forall i :: 0 <= i < |s| ==> !IsAsciiUpper(s[i])
    ensures forall i :: 0 <= i < |Trim(s)| ==> !IsAsciiUpper(Trim(s)[i])
  {
    var r := Trim(s);
    var lo :| TrimmedSlice(s, r, lo);
    forall i | 0 <= i < |r| ensures !IsAsciiUpper(r[i]) {
      assert r[i] == s[lo + i];
    }
  }

  /** The replies the policy chooses between. */
  datatype Reply = EmptyMessage | Greeting | Help | HowAreYou | Capabilities | Transport | Farewell | Echo

  /** The text of each reply; the greeting and the farewell address the
      sender, and the echo quotes the message as received. */
  function ReplyText(kind: Reply, userMessage: string, userIdentity: string): (r: string)
    ensures |r| > 0
  {
    match kind
    case EmptyMessage => EmptyReply
    case Greeting => GreetingReply(userIdentity)
    case Help => HelpReply
    case HowAreYou => HowAreYouReply
    case Capabilities => CapabilitiesReply
    case Transport => TransportReply
    case Farewell => FarewellReply(userIdentity)
    case Echo => EchoReply(userMessage)
  }

  /** `generateResponse(userMessage, userIdentity)`: the reply chosen by the
      tests on the normalised text, rendered. It is total and never empty. */
  function GenerateResponse(userMessage: string, userIdentity: string): (r: string)
    ensures |r| > 0
  {
    ReplyText(Classify(Normalize(userMessage)), userMessage, userIdentity)
  }

  /** The tests of `generateResponse` on the normalised text, in the order the
      source runs them. The second half of the first test (`lower` equal to a
      single space) can never hold after trimming; see
      `SingleSpaceTestIsDead`. */
  function Classify(lower: string): (r: Reply)
    ensures r == EmptyMessage <==> lower == "" || lower == " "
    ensures r == Greeting <==> lower != " " && StartsWithAny(lower, Greetings)
  {
    if lower == "" || lower == " " then EmptyMessage
    else if StartsWithAny(lower, Greetings) then Greeting
    else if Contains(lower, "help") then Help
    else if Contains(lower, "how are you") then HowAreYou
    else if Contains(lower, "what can you do") then Capabilities
    else if Contains(lower, "tcp") || Contains(lower, "udp") || Contains(lower, "ice") then Transport
    else if Contains(lower, "bye") || Contains(lower, "goodbye") then Farewell
    else Echo
  }

  /** Trimming never leaves a lone space, so the reply policy's `lower === ' '`
      test is unreachable. */
  lemma SingleSpaceTestIsDead(userMessage: string)
    ensures Normalize(userMessage) != " "
  {
    assert IsWhitespace(' ');
  }

  /** Every text holding `goodbye` holds `bye`, so the second half of the
      farewell test never decides anything. */
  lemma GoodbyeTestIsRedundant(lower: string)
    ensures Contains(lower, "goodbye") ==> Contains(lower, "bye")
  {
    if Contains(lower, "goodbye") {
      var i := IndexOf(lower, "goodbye");
      var w := lower[i..i + 7];
      assert w == "goodbye";
      assert lower[i + 4..i + 7] == w[4..7];
      assert OccursAt(lower, "bye", i + 4);
    }
  }

  // ---------------------------------------------------------------- reference: a rule table

  datatype Trigger = Blank | AnyPrefix(words: seq<string>) | AnySubstring(words: seq<string>)

  datatype Rule = Rule(trigger: Trigger, reply: Reply)

  predicate Fires(t: Trigger, lower: string) {
    match t
    case Blank => lower == ""
    case AnyPrefix(ws) => StartsWithAny(lower, ws)
    case AnySubstring(ws) => ContainsAny(lower, ws)
  }

  /** The policy as an ordered table, most specific first. */
  const Rules: seq<Rule> :=
    [ Rule(Blank, EmptyMessage),
      Rule(AnyPrefix(Greetings), Greeting),
      Rule(AnySubstring(["help"]), Help),
      Rule(AnySubstring(["how are you"]), HowAreYou),
      Rule(AnySubstring(["what can you do"]), Capabilities),
      Rule(AnySubstring(["tcp", "udp", "ice"]), Transport),
      Rule(AnySubstring(["bye", "goodbye"]), Farewell) ]

  /** The reply of the first rule that fires on `lower`, or `fallback`. */
  function FirstMatch(rules: seq<Rule>, lower: string, fallback: Reply): Reply {
    if rules == [] then fallback
    else if Fires(rules[0].trigger, lower) then rules[0].reply
    else FirstMatch(rules[1..], lower, fallback)
  }

  /** First match wins: the reply is that of the first rule that fires, no
      matter which later rules would fire too. */
  lemma {:induction false} FirstMatchIsFirst(rules: seq<Rule>, lower: string, fallback: Reply, k: nat)
    requires k < |rules| && Fires(rules[k].trigger, lower)
    requires forall j :: 0 <= j < k ==> !Fires(rules[j].trigger, lower)
    ensures FirstMatch(rules, lower, fallback) == rules[k].reply
  {
    if k > 0 {
      assert !Fires(rules[0].trigger, lower);
      FirstMatchIsFirst(rules[1..], lower, fallback, k - 1);
    }
  }

  /** When no rule fires the fallback is returned. */
  lemma {:induction false} FirstMatchFallsBack(rules: seq<Rule>, lower: string, fallback: Reply)
    requires forall j :: 0 <= j < |rules| ==> !Fires(rules[j].trigger, lower)
    ensures FirstMatch(rules, lower, fallback) == fallback
  {
    if rules != [] {
      assert !Fires(rules[0].trigger, lower);
      FirstMatchFallsBack(rules[1..], lower, fallback);
    }
  }

  lemma SingleWord(s: string, w: string)
    ensures ContainsAny(s, [w]) <==> Contains(s, w)
  {
    assert [w][0] == w;
  }

  lemma TwoWords(s: string, w1: string, w2: string)
    ensures ContainsAny(s, [w1, w2]) <==> Contains(s, w1) || Contains(s, w2)
  {
    assert [w1, w2][0] == w1 && [w1, w2][1] == w2;
  }

  lemma ThreeWords(s: string, w1: string, w2: string, w3: string)
    ensures ContainsAny(s, [w1, w2, w3]) <==> Contains(s, w1) || Contains(s, w2) || Contains(s, w3)
  {
    assert [w1, w2, w3][0] == w1 && [w1, w2, w3][1] == w2 && [w1, w2, w3][2] == w3;
  }

  /** On any text trimming can produce, the source's chain of tests is
      exactly the rule table read first match first, with the echo as the
      fallback. */
  lemma ClassifyIsFirstMatch(lower: string)
    requires lower != " "
    ensures Classify(lower) == FirstMatch(Rules, lower, Echo)
  {
    var k := FiringIndex(Rules, lower);
    if k < |Rules| {
      FirstMatchIsFirst(Rules, lower, Echo, k);
      RuleAt(lower, k);
    } else {
      FirstMatchFallsBack(Rules, lower, Echo);
      NoRuleFires(lower);
    }
  }

  /** `generateResponse` answers with the reply of the first firing rule on
      the normalised text, or with the echo of the original (untrimmed)
      message when none fires. */
  lemma GenerateResponseIsFirstMatch(userMessage: string, userIdentity: string)
    ensures Classify(Normalize(userMessage)) == FirstMatch(Rules, Normalize(userMessage), Echo)
    ensures GenerateResponse(userMessage, userIdentity)
         == ReplyText(FirstMatch(Rules, Normalize(userMessage), Echo), userMessage, userIdentity)
  {
    SingleSpaceTestIsDead(userMessage);
    ClassifyIsFirstMatch(Normalize(userMessage));
  }

  /** What the `k`-th rule fires on and answers, in the chain's own terms. */
  lemma RuleAt(lower: string, k: nat)
    requires k < |Rules|
    requires lower != " "
    requires Fires(Rules[k].trigger, lower)
    requires forall j :: 0 <= j < k ==> !Fires(Rules[j].trigger, lower)
    ensures Classify(lower) == Rules[k].reply
  {
    SingleWord(lower, "help");
    SingleWord(lower, "how are you");
    SingleWord(lower, "what can you do");
    ThreeWords(lower, "tcp", "udp", "ice");
    TwoWords(lower, "bye", "goodbye");
    assert k > 0 ==> !Fires(Rules[0].trigger, lower);
    assert k > 1 ==> !Fires(Rules[1].trigger, lower);
    assert k > 2 ==> !Fires(Rules[2].trigger, lower);
    assert k > 3 ==> !Fires(Rules[3].trigger, lower);
    assert k > 4 ==> !Fires(Rules[4].trigger, lower);
    assert k > 5 ==> !Fires(Rules[5].trigger, lower);
  }

  lemma NoRuleFires(lower: string)
    requires lower != " "
    requires forall j :: 0 <= j < |Rules| ==> !Fires(Rules[j].trigger, lower)
    ensures Classify(lower) == Echo
  {
    SingleWord(lower, "help");
    SingleWord(lower, "how are you");
    SingleWord(lower, "what can you do");
    ThreeWords(lower, "tcp", "udp", "ice");
    TwoWords(lower, "bye", "goodbye");
    assert !Fires(Rules[0].trigger, lower);
    assert !Fires(Rules[1].trigger, lower);
    assert !Fires(Rules[2].trigger, lower);
    assert !Fires(Rules[3].trigger, lower);
    assert !Fires(Rules[4].trigger, lower);
    assert !Fires(Rules[5].trigger, lower);
    assert !Fires(Rules[6].trigger, lower);
  }

  /** The index of the first rule that fires, or `|rules|`. */
  function FiringIndex(rules: seq<Rule>, lower: string): (k: nat)
    ensures k <= |rules|
    ensures k < |rules| ==> Fires(rules[k].trigger, lower)
    ensures forall j :: 0 <= j < k ==> !Fires(rules[j].trigger, lower)
  {
    if rules == [] then 0
    else if Fires(rules[0].trigger, lower) then 0
    else 1 + FiringIndex(rules[1..], lower)
  }

  /** The default reply quotes the message exactly as it was received,
      untrimmed and in its original case. */
  lemma EchoKeepsOriginal(userMessage: string, userIdentity: string)
    requires forall j :: 0 <= j < |Rules| ==> !Fires(Rules[j].trigger, Normalize(userMessage))
    ensures GenerateResponse(userMessage, userIdentity) == EchoReply(userMessage)
  {
    var lower := Normalize(userMessage);
    SingleSpaceTestIsDead(userMessage);
    NoRuleFires(lower);
  }

  /** Greetings are tested before keywords: a message that starts with one of
      the greeting words is greeted even when it also asks for help or says
      goodbye. The test is a bare prefix test, so `history` counts too. */
  lemma GreetingWins(userMessage: string, userIdentity: string)
    requires StartsWithAny(Normalize(userMessage), Greetings)
    ensures GenerateResponse(userMessage, userIdentity) == GreetingReply(userIdentity)
  {
  }

  // ---------------------------------------------------------------- chat handlers

  /** A participant as the server SDK reports it; an unset name reads as `""`. */
  datatype AgentPeer = AgentPeer(identity: string, name: string)

  /** The name the reply addresses: `identity || name || 'User'`. */
  function SenderLabel(p: AgentPeer): (r: string)
    ensures p.identity != "" ==> r == p.identity
    ensures p.identity == "" && p.name != "" ==> r == p.name
    ensures p.identity == "" && p.name == "" ==> r == "User"
  {
    Or(Or(p.identity, p.name), "User")
  }

  /** The reply to a chat message, if any: messages that arrive without a
      participant are the agent's own and get none. */
  function ChatReply(text: string, sender: Option<AgentPeer>): (r: Option<string>)
    ensures r.None? <==> sender.None?
    ensures sender.Some? ==> r == Some(GenerateResponse(text, SenderLabel(sender.value)))
  {
    match sender
    case None => None
    case Some(p) => Some(GenerateResponse(text, SenderLabel(p)))
  }

  /** The greeting sent when a participant joins, addressed by
      `name || identity`. */
  function WelcomeMessage(p: AgentPeer): (r: string)
    ensures var who := if p.name != "" then p.name else p.identity;
      r == "Welcome to the room, " + who + "! I'm an AI assistant. Feel free to chat with me."
  {
    "Welcome to the room, " + Or(p.name, p.identity) + "! I'm an AI assistant. Feel free to chat with me."
  }
}

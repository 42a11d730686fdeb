/**
 * The chat page (`src/pages/AIAssistant.tsx`): an append-only message log, a blank-input
 * guard, and a simulated reply chosen at random from five canned answers. The random choice
 * and the `Date.now()` message ids are parameters.
 */
module Assistant {
  import opened Text

  datatype Role = AssistantRole | UserRole

  datatype Message = Message(id: string, role: Role, content: string)

  datatype Chat = Chat(input: string, messages: seq<Message>, isTyping: bool)

  const Greeting := "Hello! I'm your AI Studio assistant. How can I help you today with your social media management?"

  const InitialChat := Chat("", [Message("1", AssistantRole, Greeting)], false)

  /** The canned answers a reply picks from. */
  const Responses: seq<string> := [
    "I'd recommend posting at 7:00 PM on Tuesdays and Thursdays for your target audience. That's when engagement rates are highest.",
    "Based on your recent analytics, image posts with questions in the caption are performing 42% better than other content. Would you like me to help create some?",
    "Your audience demographics show a trend toward 25-34 year old professionals. Your content should focus on career growth and lifestyle balance.",
    "I've analyzed your competitors and noticed they're using more video content. Would you like me to help develop a video content strategy?",
    "Your engagement rate is 3.2% higher than the industry average. Great job! To further improve, try posting more consistently."
  ]

  const QuickPrompts: seq<string> := [
    "Analyze my last post's performance",
    "When is the best time to post?",
    "Create an Instagram post about our new product",
    "Write a tweet about industry trends",
    "Generate ideas for a YouTube series"
  ]

  /** `handleSendMessage`: blank input changes nothing; otherwise the untrimmed input is appended. */
  function Send(c: Chat, id: string): (r: Chat)
    ensures IsBlank(c.input) ==> r == c
    ensures !IsBlank(c.input) ==>
      r.messages == c.messages + [Message(id, UserRole, c.input)] && r.input == "" && r.isTyping
  {
    if IsBlank(c.input) then c
    else Chat("", c.messages + [Message(id, UserRole, c.input)], true)
  }

  /** The reply timer: one canned answer, chosen by `pick`, and the typing indicator off. */
  function Reply(c: Chat, pick: nat, id: string): (r: Chat)
    requires pick < |Responses|
    ensures r.messages == c.messages + [Message(id, AssistantRole, Responses[pick])]
    ensures !r.isTyping && r.input == c.input
  {
    c.(messages := c.messages + [Message(id, AssistantRole, Responses[pick])], isTyping := false)
  }

  /** The send button is enabled only for non-blank input while no reply is pending. */
  function SendEnabled(c: Chat): (b: bool)
    ensures b <==> !IsBlank(c.input) && !c.isTyping
  {
    !IsBlank(c.input) && !c.isTyping
  }

  function ClickSend(c: Chat, id: string): (r: Chat)
    ensures c.isTyping ==> r == c
    ensures !c.isTyping ==> r == Send(c, id)
  {
    if SendEnabled(c) then Send(c, id) else c
  }

  datatype Key = Key(name: string, shift: bool)

  /** `handleKeyDown`: Enter without Shift sends, whatever `isTyping` says. */
  function KeyDown(c: Chat, key: Key, id: string): (r: Chat)
    ensures key.name == "Enter" && !key.shift ==> r == Send(c, id)
    ensures key.name != "Enter" || key.shift ==> r == c
  {
    if key.name == "Enter" && !key.shift then Send(c, id) else c
  }

  /** `handleQuickPrompt`: only the input changes. */
  function QuickPrompt(c: Chat, i: nat): (r: Chat)
    requires i < |QuickPrompts|
    ensures r.input == QuickPrompts[i] && r.messages == c.messages && r.isTyping == c.isTyping
  {
    c.(input := QuickPrompts[i])
  }

  /** Enter sends a second message while a reply is still pending, though the button would not. */
  lemma EnterBypassesDisabledButton()
    ensures var c := Chat("again", InitialChat.messages, true);
      ClickSend(c, "2") == c && |KeyDown(c, Key("Enter", false), "2").messages| == 2
  {
    var c := Chat("again", InitialChat.messages, true);
    assert !IsWhitespace(c.input[0]);
    BlankIffAllWhitespace(c.input);
  }

  /**
   * What can happen to the chat. `Arrives` is a reply timer firing; it may fire at any point,
   * also with no send pending, which allows more runs than the page produces (there a reply
   * only follows a send), so the log properties below hold for the page's runs too.
   */
  datatype Event =
    | Typed(text: string)
    | Click(id: string)
    | Press(key: Key, id: string)
    | Quick(i: nat)
    | Arrives(pick: nat, id: string)

  function Apply(c: Chat, e: Event): Chat {
    match e
    case Typed(text) => c.(input := text)
    case Click(id) => ClickSend(c, id)
    case Press(key, id) => KeyDown(c, key, id)
    case Quick(i) => if i < |QuickPrompts| then QuickPrompt(c, i) else c
    case Arrives(pick, id) => Reply(c, pick % |Responses|, id)
  }

  function Run(c: Chat, es: seq<Event>): Chat
    decreases |es|
  {
    if |es| == 0 then c else Run(Apply(c, es[0]), es[1..])
  }

  /** Assistant messages are the greeting or a canned answer; user messages are never blank. */
  ghost predicate WellFormedLog(ms: seq<Message>) {
    forall i :: 0 <= i < |ms| ==>
      (ms[i].role == AssistantRole ==> ms[i].content == Greeting || ms[i].content in Responses) &&
      (ms[i].role == UserRole ==> !IsBlank(ms[i].content))
  }

  lemma InitialLogWellFormed()
    ensures WellFormedLog(InitialChat.messages) && |InitialChat.messages| == 1
  {
  }

  /** One event appends at most one message and keeps the log well formed. */
  lemma ApplyAppends(c: Chat, e: Event)
    ensures var r := Apply(c, e);
      c.messages <= r.messages && |r.messages| <= |c.messages| + 1
    ensures WellFormedLog(c.messages) ==> WellFormedLog(Apply(c, e).messages)
  {
  }

  /** Whatever happens, earlier messages stay as a prefix and the log stays well formed. */
  lemma {:induction false} RunOnlyAppends(c: Chat, es: seq<Event>)
    ensures c.messages <= Run(c, es).messages
    ensures |Run(c, es).messages| <= |c.messages| + |es|
    ensures WellFormedLog(c.messages) ==> WellFormedLog(Run(c, es).messages)
    decreases |es|
  {
    if |es| > 0 {
      ApplyAppends(c, es[0]);
      RunOnlyAppends(Apply(c, es[0]), es[1..]);
    }
  }
}

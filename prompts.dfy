/**
 * The prompt builders of server/prompts.js: one builder per chat topic,
 * each assembling the user's text (and an optional screenshot reference)
 * into parts joined by a blank line, behind a fixed system prompt.
 */
module Prompts {
  import opened Wrappers
  import Objects

  /** The fixed system prompt, after `.trim()`. */
  const SystemPrompt: string :=
    "You are a professional trading support analyst. Follow these rules strictly:\n"
    + "\n"
    + "\U{26A0}\U{FE0F} IMPORTANT RULES & LIMITATIONS:\n"
    + "\n"
    + "2. \U{1F4C9} Always prioritize risk management:\n"
    + "   \U{2022} Focus on capital preservation and avoiding unnecessary losses.\n"
    + "   \U{2022} Encourage discipline and controlled exposure over reward-seeking.\n"
    + "3. \U{1F4F7} Provide detailed technical analysis when users share chart screenshots:\n"
    + "   \U{2022} Highlight structure, key levels, entry zones, risk areas, and potential setups.\n"
    + "4. \U{1F9E0} Support trading psychology:\n"
    + "   \U{2022} Offer emotional support during losses, overtrading, revenge trading, and confidence drops.\n"
    + "5. \U{1F6AB} Do NOT provide financial advice:\n"
    + "   \U{2022} Offer educational insight, not investment instructions or trade signals.\n"
    + "6. \U{1F4B8} Never advise the following:\n"
    + "   \U{2022} Do NOT recommend adding money to a trading account.\n"
    + "   \U{2022} Do NOT encourage high-risk trades.\n"
    + "   \U{2022} Do NOT ask which broker the trader is using.\n"
    + "7. \U{1F91D} Be supportive and understanding:\n"
    + "   \U{2022} Respect the emotional intensity of trading.\n"
    + "   \U{2022} Respond with empathy, especially during tough drawdowns or psychological distress.\n"
    + "8. Do not mention that you are an AI or refer to yourself as a model. Speak as a human professional.\n"
    + "\n"
    + "9- reply with short answers and straight to the point.\n"
    + "\n"
    + "Always keep answers concise, structured, and actionable. Do not deviate from the user's specified topic."

  /** What `parts.join` puts between two parts. */
  const PartSeparator: string := "\n\n"

  datatype Role = System | User
  datatype Message = Message(role: Role, content: string)

  /** The five chat topics that have a builder. */
  datatype Topic = TradeSetup | AccountHealth | Psychology | FundedAccount | MarginCall

  const TopicKeys: set<string> :=
    {"trade_setup", "account_health", "psychology", "funded_account", "margin_call"}

  /** The property name under which each builder is exported. */
  function TopicKey(t: Topic): string
  {
    match t
    case TradeSetup => "trade_setup"
    case AccountHealth => "account_health"
    case Psychology => "psychology"
    case FundedAccount => "funded_account"
    case MarginCall => "margin_call"
  }

  /**
   * The builder a topic key selects, if any: only the five keys the module
   * defines as its own. (The server's own lookup also reaches inherited
   * members; see PromptsProperty.)
   */
  function TopicOf(key: string): (r: Option<Topic>)
    ensures r.Some? <==> key in TopicKeys
    ensures r.Some? ==> TopicKey(r.value) == key
  {
    if key == "trade_setup" then Some(TradeSetup)
    else if key == "account_health" then Some(AccountHealth)
    else if key == "psychology" then Some(Psychology)
    else if key == "funded_account" then Some(FundedAccount)
    else if key == "margin_call" then Some(MarginCall)
    else None
  }

  lemma TopicKeyRoundTrip(t: Topic)
    ensures TopicOf(TopicKey(t)) == Some(t)
    ensures TopicKey(t) in TopicKeys
  {
  }

  /** Exactly five keys have a builder, one per topic. */
  lemma FiveTopicKeys()
    ensures |TopicKeys| == 5
    ensures forall key :: key in TopicKeys <==> exists t :: TopicKey(t) == key
  {
    var ks := ["trade_setup", "account_health", "psychology", "funded_account", "margin_call"];
    assert ks[0] != ks[1] && ks[0] != ks[2] && ks[0] != ks[3] && ks[0] != ks[4];
    assert ks[1] != ks[2] && ks[1] != ks[3] && ks[1] != ks[4];
    assert ks[2] != ks[3] && ks[2] != ks[4] && ks[3] != ks[4];
    assert TopicKeys == {ks[0]} + {ks[1]} + {ks[2]} + {ks[3]} + {ks[4]};
    forall key | key in TopicKeys ensures exists t :: TopicKey(t) == key {
      assert TopicKey(TopicOf(key).value) == key;
    }
  }

  /** The label in front of the screenshot reference, per topic. */
  function ScreenshotLabel(t: Topic): string
  {
    match t
    case TradeSetup => "Chart screenshot: "
    case AccountHealth => "Account screenshot: "
    case Psychology => "Optional context screenshot: "
    case FundedAccount => "Challenge/stats screenshot: "
    case MarginCall => "Critical screenshot: "
  }

  /** The label in front of the user's own text, per topic. */
  function InputLabel(t: Topic): string
  {
    match t
    case TradeSetup => "Trade details: "
    case AccountHealth => "Account details: "
    case Psychology => "User emotional state: "
    case FundedAccount => "Details: "
    case MarginCall => "Emergency margin call details: "
  }

  /** The fixed request that trade_setup adds as a part of its own. */
  const TradeAnalysisRequest: string :=
    "Please analyze in sections:\n- Entry quality\n- Stop loss appropriateness\n- Take profit realism\n"
    + "- Risk/Reward ratio\n- Suggestions to improve\n- Potential red flags"

  /** The instruction the other four builders append to the user's text, inside the same part. */
  function Instruction(t: Topic): string
  {
    match t
    case TradeSetup => ""
    case AccountHealth =>
      ". Provide a breakdown of:\n- Risk exposure\n- Lot sizing\n- Overtrading signs\n"
      + "- Recommendations to stabilize the account"
    case Psychology =>
      ". Provide mindset support, actionable coping techniques, and encouragement. Identify if they show "
      + "signs of revenge trading, overtrading, fear, or overconfidence. Emphasize staying disciplined and "
      + "preserving capital, and help them refocus."
    case FundedAccount =>
      ". Review whether the user is at risk of violation, managing position sizing properly, and on track "
      + "to pass the evaluation. Highlight compliance with rules, drawdown risk, and give suggestions to "
      + "stay within acceptable boundaries."
    case MarginCall =>
      ". Provide immediate risk mitigation steps, including what to close first, how to reduce exposure, "
      + "and psychological advice to remain calm. Emphasize preserving capital above all."
  }

  /**
   * What distinguishes one builder from another: the label in front of the
   * screenshot reference, the label and the instruction around the user's
   * text, and the fixed part trade_setup adds after it.
   */
  datatype Template = Template(screenshotLabel: string, inputLabel: string, instruction: string,
                               closingPart: Option<string>)

  function TemplateOf(t: Topic): Template
  {
    Template(ScreenshotLabel(t), InputLabel(t), Instruction(t),
             if t == TradeSetup then Some(TradeAnalysisRequest) else None)
  }

  /** `parts.join("\n\n")`. */
  function Join(parts: seq<string>): string
  {
    if |parts| == 0 then ""
    else if |parts| == 1 then parts[0]
    else parts[0] + PartSeparator + Join(parts[1..])
  }

  /** The `parts` array a builder fills: the screenshot part only for a non-empty URL, then the template's parts. */
  function PartsOf(tp: Template, input: string, imageUrl: string): (r: seq<string>)
    ensures |r| == (if imageUrl != "" then 1 else 0) + (if tp.closingPart.Some? then 2 else 1)
    ensures imageUrl != "" ==> r[0] == tp.screenshotLabel + imageUrl
  {
    (if imageUrl != "" then [tp.screenshotLabel + imageUrl] else [])
    + [tp.inputLabel + input + tp.instruction]
    + (match tp.closingPart case Some(p) => [p] case None => [])
  }

  /** The parts of topic `t`'s builder. */
  function Parts(t: Topic, input: string, imageUrl: string): (r: seq<string>)
    ensures |r| == (if imageUrl != "" then 1 else 0) + (if t == TradeSetup then 2 else 1)
    ensures imageUrl != "" ==> r[0] == ScreenshotLabel(t) + imageUrl
  {
    PartsOf(TemplateOf(t), input, imageUrl)
  }

  /** The content of the user message. */
  function Content(t: Topic, input: string, imageUrl: string): string
  {
    Join(Parts(t, input, imageUrl))
  }

  /** `buildMessage`: the system prompt first, then the user's content. */
  function BuildMessage(userContent: string): seq<Message>
  {
    [Message(System, SystemPrompt), Message(User, userContent)]
  }

  /** The builder `prompts[key]` for topic `t`, applied to the user's text and image reference. */
  function Build(t: Topic, input: string, imageUrl: string): (r: seq<Message>)
    ensures |r| == 2
    ensures r[0].role == System && r[0].content == SystemPrompt
    ensures r[1].role == User && r[1].content == Content(t, input, imageUrl)
  {
    BuildMessage(Content(t, input, imageUrl))
  }

  /** What comes before the user's text in the content. */
  function HeadOf(tp: Template, imageUrl: string): string
  {
    (if imageUrl != "" then tp.screenshotLabel + imageUrl + PartSeparator else "") + tp.inputLabel
  }

  /** What comes after the user's text in the content. */
  function TailOf(tp: Template): string
  {
    tp.instruction + match tp.closingPart case Some(p) => PartSeparator + p case None => ""
  }

  lemma JoinCons(p: string, rest: seq<string>)
    requires rest != []
    ensures Join([p] + rest) == p + PartSeparator + Join(rest)
  {
  }

  lemma LayoutOf(tp: Template, input: string, imageUrl: string)
    ensures Join(PartsOf(tp, input, imageUrl)) == HeadOf(tp, imageUrl) + input + TailOf(tp)
  {
    var first := tp.inputLabel + input + tp.instruction;
    var body := [first] + match tp.closingPart case Some(p) => [p] case None => [];
    if tp.closingPart.Some? {
      JoinCons(first, [tp.closingPart.value]);
    }
    assert Join(body) == tp.inputLabel + input + TailOf(tp);
    if imageUrl != "" {
      assert PartsOf(tp, input, imageUrl) == [tp.screenshotLabel + imageUrl] + body;
      JoinCons(tp.screenshotLabel + imageUrl, body);
    } else {
      assert PartsOf(tp, input, imageUrl) == body;
    }
  }

  /**
   * The user's text appears verbatim, once, between a head that depends only
   * on the topic and the image reference and a tail that depends only on the topic.
   */
  lemma ContentLayout(t: Topic, input: string, imageUrl: string)
    ensures Content(t, input, imageUrl) == HeadOf(TemplateOf(t), imageUrl) + input + TailOf(TemplateOf(t))
  {
    LayoutOf(TemplateOf(t), input, imageUrl);
  }

  /** Each topic's screenshot label and input label differ within both. */
  lemma LabelsDiffer(t: Topic) returns (k: nat)
    ensures k < |ScreenshotLabel(t)| && k < |InputLabel(t)|
    ensures ScreenshotLabel(t)[k] != InputLabel(t)[k]
  {
    k := if t == AccountHealth then 8 else 0;
  }

  lemma PrefixDecided(pre: string, rest: string, other: string, k: nat)
    requires k < |pre| && k < |other| && pre[k] != other[k]
    ensures pre <= pre + rest
    ensures !(pre <= other + rest)
  {
  }

  /** For a template whose two labels differ, the content starts with the screenshot label exactly when a URL was given. */
  lemma ScreenshotFirstIffImageOf(tp: Template, input: string, imageUrl: string, k: nat)
    requires k < |tp.screenshotLabel| && k < |tp.inputLabel| && tp.screenshotLabel[k] != tp.inputLabel[k]
    ensures tp.screenshotLabel <= Join(PartsOf(tp, input, imageUrl)) <==> imageUrl != ""
  {
    LayoutOf(tp, input, imageUrl);
    var rest := input + TailOf(tp);
    if imageUrl == "" {
      assert HeadOf(tp, imageUrl) + input + TailOf(tp) == tp.inputLabel + rest;
      PrefixDecided(tp.screenshotLabel, rest, tp.inputLabel, k);
    } else {
      var after := imageUrl + PartSeparator + tp.inputLabel + rest;
      assert HeadOf(tp, imageUrl) + input + TailOf(tp) == tp.screenshotLabel + after;
      PrefixDecided(tp.screenshotLabel, after, tp.inputLabel, k);
    }
  }

  /** The content starts with the topic's screenshot label exactly when an image reference was given. */
  lemma ScreenshotFirstIffImage(t: Topic, input: string, imageUrl: string)
    ensures ScreenshotLabel(t) <= Content(t, input, imageUrl) <==> imageUrl != ""
  {
    var tp := TemplateOf(t);
    assert tp.screenshotLabel == ScreenshotLabel(t) && tp.inputLabel == InputLabel(t);
    var k := LabelsDiffer(t);
    ScreenshotFirstIffImageOf(tp, input, imageUrl, k);
    assert Content(t, input, imageUrl) == Join(PartsOf(tp, input, imageUrl));
  }

  /** Without an image reference the four single-part builders send their template and nothing else. */
  lemma NoImageSinglePart(t: Topic, input: string)
    requires t != TradeSetup
    ensures Content(t, input, "") == InputLabel(t) + input + Instruction(t)
  {
    LayoutOf(TemplateOf(t), input, "");
  }

  // ---- The lookup `prompts[topic]` and the call that follows it ----

  /** The exported object's own properties: each builder under its key. */
  const Builders: map<string, Topic> :=
    map["trade_setup" := TradeSetup, "account_health" := AccountHealth, "psychology" := Psychology,
        "funded_account" := FundedAccount, "margin_call" := MarginCall]

  /** `prompts[key]` as the server evaluates it: own builders, then inherited members. */
  function PromptsProperty(key: string): (p: Objects.Property<Topic>)
    ensures p.Own? <==> TopicOf(key).Some?
    ensures p.Own? ==> p.value == TopicOf(key).value
    ensures p.Inherited? <==> key in Objects.PrototypeMembers
    ensures p.Inherited? ==> p.name == key
    ensures p.Undefined? <==> key !in TopicKeys + Objects.PrototypeMembers
  {
    Objects.Get(Builders, key)
  }

  /** The lookup that was evidently meant: the five own builders and nothing else. */
  function OwnBuilderProperty(key: string): (p: Objects.Property<Topic>)
    ensures !p.Inherited?
    ensures p.Own? <==> TopicOf(key).Some?
    ensures p.Own? ==> p.value == TopicOf(key).value
  {
    Objects.GetOwn(Builders, key)
  }

  /**
   * The server's `if (!promptBuilder)` guard tests PromptsProperty: a topic
   * named after an inherited member passes it although no builder has that name.
   */
  lemma InheritedNamePassesTopicGuard()
    ensures PromptsProperty("toString") == Objects.Inherited("toString")
    ensures TopicOf("toString") == None
  {
  }

  /**
   * The inherited members that return when called as a builder, with `this`
   * undefined and the message string as first argument: `constructor`
   * (`Object`) wraps the message in a String object, `toString` gives
   * "[object Undefined]" and `isPrototypeOf` gives false. Every other
   * inherited member needs a `this` and throws a TypeError, and
   * `__proto__` is not a function at all.
   */
  const ReturningMembers: set<string> := {"constructor", "toString", "isPrototypeOf"}

  /** What the server hands to the completion service: messages, or what an inherited member returned. */
  datatype Payload = Messages(messages: seq<Message>) | NotMessages(member: string)

  datatype Call = Returned(payload: Payload) | Threw

  /** `promptBuilder(message, imageUrl)` for what the lookup found. */
  function CallBuilder(p: Objects.Property<Topic>, input: string, imageUrl: string): (c: Call)
    ensures c.Returned? <==> p.Own? || (p.Inherited? && p.name in ReturningMembers)
    ensures p.Own? ==> c == Returned(Messages(Build(p.value, input, imageUrl)))
    ensures c.Returned? && c.payload.NotMessages? ==> p.Inherited? && c.payload.member == p.name
  {
    match p
    case Own(t) => Returned(Messages(Build(t, input, imageUrl)))
    case Inherited(name) => if name in ReturningMembers then Returned(NotMessages(name)) else Threw
    case Undefined => Threw
  }

  /**
   * Of the topics that pass the server's guard, the five keys yield messages,
   * three inherited names yield a value that is not a message list, and the
   * other nine inherited names throw.
   */
  lemma GuardedCallOutcomes(key: string, input: string, imageUrl: string)
    requires !PromptsProperty(key).Undefined?
    ensures var c := CallBuilder(PromptsProperty(key), input, imageUrl);
            && (c.Returned? && c.payload.Messages? <==> key in TopicKeys)
            && (c.Returned? && c.payload.NotMessages? <==> key in ReturningMembers)
            && (c.Threw? <==> key in Objects.PrototypeMembers - ReturningMembers)
  {
  }
}

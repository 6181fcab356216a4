/** The reply worker: which plans a message produces, and what it asks the model. */
module Workers {
  import opened Prelude
  import opened Dicts
  import opened Json
  import opened Token
  import opened Memory
  import opened Outside
  import opened Replay
  import OrderRef
  import Queries

  /** Python's text tables beyond ASCII: `\w`, and `str.lower`. */
  datatype Unicode = Unicode(word: char -> bool, lower: string -> string)

  // ---- the request ------------------------------------------------------------------------

  function CustomerPart(summary: string): string { "\n\n## Customer Context\n" + summary }

  function GuidelinesPart(skills: seq<string>): string { "\n\n## Service Guidelines\n" + Join("\n\n---\n\n", skills) }

  /** The opening text, then what is known of the customer, then the guidelines. */
  function Prompt(base: string, summary: Option<string>, skills: seq<string>): string
  {
    base
    + (if summary.Some? && summary.value != "" then CustomerPart(summary.value) else "")
    + (if skills != [] then GuidelinesPart(skills) else "")
  }

  lemma PromptAlone(base: string)
    ensures Prompt(base, None, []) == base
  {
    AppendNothing(base);
  }

  /** After the base prompt comes the customer's context, if there is one. */
  lemma PromptWithContext(base: string, summary: string)
    ensures Prompt(base, Some(summary), [])
         == base + if summary == "" then "" else "\n\n## Customer Context\n" + summary
  {
    AppendNothing(base + if summary == "" then "" else CustomerPart(summary));
  }

  /** After that come the guidelines, if there are some, separated by rules. */
  lemma PromptWithGuidelines(base: string, summary: Option<string>, first: string, rest: seq<string>)
    ensures Prompt(base, summary, [first] + rest)
         == Prompt(base, summary, [])
            + ("\n\n## Service Guidelines\n"
               + if rest == [] then first else first + "\n\n---\n\n" + Join("\n\n---\n\n", rest))
  {
    AppendNothing(base + if summary.Some? && summary.value != "" then CustomerPart(summary.value) else "");
    JoinFromFront("\n\n---\n\n", first, rest);
  }

  method BuildSystemPrompt(base: string, summary: Option<string>, skills: seq<string>) returns (prompt: string)
    ensures prompt == Prompt(base, summary, skills)
  {
    var parts := [base];
    ConcatOne(base);
    if summary.Some? && summary.value != "" { parts := AddPart(parts, CustomerPart(summary.value)); }
    ghost var soFar := Concat(parts);
    if skills != [] { parts := AddPart(parts, GuidelinesPart(skills)); }
    prompt := Concat(parts);
    assert soFar + "" == soFar && base + "" == base;
  }

  lemma ConcatOne<T>(part: seq<T>)
    ensures Concat([part]) == part
  {
    Queries.ConcatSnoc([], part);
    assert [] + [part] == [part] && Concat([]) + part == part;
  }

  /** `parts.append(part)` */
  method AddPart(parts: seq<string>, part: string) returns (more: seq<string>)
    ensures more == parts + [part] && Concat(more) == Concat(parts) + part
  {
    more := parts + [part];
    Queries.ConcatSnoc(parts, part);
  }

  /** The customer's words: the text parts joined by spaces, stripped. */
  function CustomerText(m: InboundMessage): string
  {
    var parts := Filter(m.content, (p: ContentPart) => p.kind == "text");
    Strip(Join(" ", Texts(parts)))
  }

  /** A message of texts says them joined by spaces and stripped; its recorded text has them line by line. */
  lemma TextsAreSaid(m: InboundMessage, texts: seq<string>)
    requires |m.content| == |texts|
    requires forall i :: 0 <= i < |texts| ==> m.content[i] == ContentPart("text", Some(texts[i])) && texts[i] != ""
    ensures CustomerText(m) == Strip(Join(" ", texts)) && TextConcat(m) == Join("\n", texts)
  {
    FilterAll(m.content, (p: ContentPart) => p.kind == "text");
    FilterAll(m.content, (p: ContentPart) => p.kind == "text" && p.text.Some? && p.text.value != "");
    assert Texts(m.content) == texts;
  }

  /** Parts that are not texts say nothing. */
  lemma OtherPartsSayNothing(m: InboundMessage, texts: seq<ContentPart>)
    requires texts == Filter(m.content, (p: ContentPart) => p.kind == "text")
    ensures CustomerText(m) == CustomerText(m.(content := texts)) && TextConcat(m) == TextConcat(m.(content := texts))
  {
    FilterMembers(m.content, (p: ContentPart) => p.kind == "text");
    FilterAll(texts, (p: ContentPart) => p.kind == "text");
    FilterTwice(m.content, (p: ContentPart) => p.kind == "text",
                (p: ContentPart) => p.kind == "text" && p.text.Some? && p.text.value != "",
                (p: ContentPart) => p.kind == "text" && p.text.Some? && p.text.value != "");
  }

  /** The messages of a request: the system prompt and the customer's words. */
  function Opening(base: string, summary: Option<string>, skills: seq<string>, text: string): seq<LlmMessage>
  {
    [LlmMessage("system", JStr(Prompt(base, summary, skills))), LlmMessage("user", JStr(text))]
  }

  // ---- the plans --------------------------------------------------------------------------

  function SendArgs(conversation: string, text: string): Args
  {
    var members := [("conversation_id", JStr(conversation)), ("text", JStr(text))];
    ObjectIsWellFormed(members);
    JObj(members)
  }

  function OrderArgs(order: string): Args
  {
    var members := [("order_id", JStr(order))];
    ObjectIsWellFormed(members);
    JObj(members)
  }

  predicate IsLookup(p: ActionPlan) { p.toolId == "crm.get_order" && p.risk == Green }
  predicate IsReply(p: ActionPlan) { p.toolId == "channel.send" && p.risk == OrangeC }

  /** The text refers to an order. */
  ghost predicate RefersToOrder(text: string, u: Unicode)
  {
    exists i: nat, j: nat :: OrderRef.Matches(text, i, j, u.word)
  }

  /** The plan looks up the leftmost order reference of the text, in lower case. */
  ghost predicate LooksUpFirstOrder(p: ActionPlan, text: string, u: Unicode)
  {
    exists i: nat, j: nat ::
      && OrderRef.Matches(text, i, j, u.word)
      && (forall c: nat, d: nat :: c < i ==> !OrderRef.Matches(text, c, d, u.word))
      && p.args.At("order_id") == JStr(u.lower(text[i..j]))
  }

  /** The plan says this text in this conversation. */
  predicate Says(p: ActionPlan, conversation: string, text: string)
  {
    p.args.At("conversation_id") == JStr(conversation) && p.args.At("text") == JStr(text)
  }

  /** The lookups come first, at most one, of the first order the text refers to; then the reply, which says the model's
      answer in the message's conversation. */
  ghost predicate PlansFor(plans: seq<ActionPlan>, conversation: string, text: string, u: Unicode, answer: string)
  {
    && |plans| == (if RefersToOrder(text, u) then 2 else 1)
    && (|plans| == 2 ==> IsLookup(plans[0]) && LooksUpFirstOrder(plans[0], text, u))
    && (|plans| == 2 ==> "crm-lookup-" <= plans[0].actionId) && "cs-reply-" <= plans[|plans| - 1].actionId
    && IsReply(plans[|plans| - 1]) && Says(plans[|plans| - 1], conversation, answer)
  }

  lemma SendArgsFields(conversation: string, text: string)
    ensures SendArgs(conversation, text).At("conversation_id") == JStr(conversation)
    ensures SendArgs(conversation, text).At("text") == JStr(text)
  {
    var ms := SendArgs(conversation, text).members;
    forall i, j | 0 <= i < j < |ms| ensures Keys(ms)[i] != Keys(ms)[j] { assert ms[i].0 != ms[j].0; }
    GetAtPosition(ms, 0);
    GetAtPosition(ms, 1);
  }

  class CSReplyWorker {
    const llm: ReplayingLlmClient
    const model: string
    const basePrompt: string
    const world: World
    const unicode: Unicode

    constructor (llm: ReplayingLlmClient, model: string, basePrompt: string, world: World, unicode: Unicode)
      ensures this.llm == llm && this.model == model && this.basePrompt == basePrompt
      ensures this.world == world && this.unicode == unicode
    {
      this.llm, this.model, this.basePrompt, this.world, this.unicode := llm, model, basePrompt, world, unicode;
    }

    /** The model is asked once, with the prompt of this context and the customer's words, and its answer becomes a
        reply that waits for approval, behind a read-only lookup if the words refer to an order. `None` is an exception
        of the LLM client. */
    method Run(message: InboundMessage, summary: Option<string>, skills: seq<string>)
      returns (r: Option<seq<ActionPlan>>)
      requires llm.Valid()
      modifies llm, llm.fallback`asked, world`drawn
      ensures llm.Valid() && llm.calls == old(llm.calls) + 1
      ensures llm.fallback.asked == old(llm.fallback.asked)
                + llm.Requests(old(llm.calls), Opening(basePrompt, summary, skills, CustomerText(message)), JStr(model))
      ensures r.Some? <==> llm.Answer(old(llm.calls), |old(llm.fallback.asked)|).Some?
      ensures r.Some? ==> PlansFor(r.value, message.conversation, CustomerText(message), unicode,
                                   llm.Answer(old(llm.calls), |old(llm.fallback.asked)|).value)
    {
      var text := CustomerText(message);
      var plans := LookUpOrder(text);
      var prompt := BuildSystemPrompt(basePrompt, summary, skills);
      var answer := llm.Chat([LlmMessage("system", JStr(prompt)), LlmMessage("user", JStr(text))], JStr(model));
      if answer.None? { return None; }
      var reply := Reply(message.conversation, answer.value);
      r := Some(plans + [reply]);
    }

    method LookUpOrder(text: string) returns (plans: seq<ActionPlan>)
      modifies world`drawn
      ensures |plans| == if RefersToOrder(text, unicode) then 1 else 0
      ensures plans != [] ==> "crm-lookup-" <= plans[0].actionId
      ensures plans != [] ==> IsLookup(plans[0]) && LooksUpFirstOrder(plans[0], text, unicode)
    {
      var found := OrderRef.Search(text, unicode.word);
      OrderRef.SearchFindsLeftmostMatch(text, unicode.word);
      if found.None? { return []; }
      var order := unicode.lower(text[found.value.0..found.value.1]);
      var hex := world.Hex();
      plans := [ActionPlan("crm-lookup-" + hex, "crm.get_order", OrderArgs(order), "Look up order " + order + " in CRM",
                           Green)];
    }

    method Reply(conversation: string, answer: string) returns (plan: ActionPlan)
      modifies world`drawn
      ensures IsReply(plan) && Says(plan, conversation, answer) && "cs-reply-" <= plan.actionId
    {
      var hex := world.Hex();
      SendArgsFields(conversation, answer);
      plan := ActionPlan("cs-reply-" + hex, "channel.send", SendArgs(conversation, answer),
                         "Send LLM-generated reply to customer", OrangeC);
    }
  }
}

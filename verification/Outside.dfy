/** What the program cannot compute: the clock, uuid digits, the model behind the LLM client and the tools
    behind the registry. Each answer is fixed in advance by a field; the counters say how many were taken. */
module Outside {
  import opened Prelude
  import opened Json
  import opened Timestamps
  import opened Token

  type Utc = s: Stamp | s.offset == Some(0) witness DateTime(1, 1, 1, 0, 0, 0, 0, Some(0))

  datatype LlmMessage = LlmMessage(role: string, content: Json)

  /** An absent error is null. */
  datatype ToolResult = ToolResult(toolId: string, success: bool, data: Json, error: Json)
  {
    /** Python can hold it. */
    predicate Held() { data.WellFormed() && error.WellFormed() }
  }

  /** What goes to a model: the messages and the model's name. */
  type Request = (seq<LlmMessage>, Json)

  class World {
    const times: nat -> Utc
    const digits: nat -> string
    /** `None` is a call that raises. */
    const replies: nat -> Option<string>
    const results: nat -> Option<ToolResult>
    var ticks: nat
    var drawn: nat
    /** The requests the model received. */
    var asked: seq<Request>
    /** The plans whose tool was called. */
    var called: seq<ActionPlan>

    /** Tools return what Python can hold. */
    ghost predicate Valid()
    {
      forall k :: results(k).Some? ==> results(k).value.Held()
    }

    constructor (times: nat -> Utc, digits: nat -> string, replies: nat -> Option<string>,
                 results: nat -> Option<ToolResult>)
      requires forall k :: results(k).Some? ==> results(k).value.Held()
      ensures Valid()
      ensures asked == [] && called == []
    {
      this.times, this.digits, this.replies, this.results := times, digits, replies, results;
      ticks, drawn, asked, called := 0, 0, [], [];
    }

    method Now() returns (t: Utc)
      modifies this`ticks
      ensures t == times(old(ticks)) && ticks == old(ticks) + 1
    {
      t := times(ticks);
      ticks := ticks + 1;
    }

    method Hex() returns (h: string)
      modifies this`drawn
      ensures h == digits(old(drawn)) && drawn == old(drawn) + 1
    {
      h := digits(drawn);
      drawn := drawn + 1;
    }

    method Ask(messages: seq<LlmMessage>, model: Json) returns (r: Option<string>)
      modifies this`asked
      ensures r == replies(|old(asked)|) && asked == old(asked) + [(messages, model)]
    {
      r := replies(|asked|);
      asked := asked + [(messages, model)];
    }

    method CallTool(plan: ActionPlan) returns (r: Option<ToolResult>)
      modifies this`called
      ensures r == results(|old(called)|) && called == old(called) + [plan]
    {
      r := results(|called|);
      called := called + [plan];
    }
  }
}

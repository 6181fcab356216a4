/** TraceLoader: one pass over a conversation that builds the inbound list and the two caches. */
module Traces {
  import opened Prelude
  import opened Dicts
  import opened Json
  import opened JsonRoundTrip
  import opened L0Store

  datatype CachedTool = CachedTool(success: Json, data: Json, error: Json)

  datatype Trace = Trace(conversation: string, events: seq<L0Event>, inbound: seq<L0Event>,
                         llmCache: Dict<string, string>, toolCache: Dict<string, CachedTool>)

  /** Python's `str(x)`; the text of lists and dicts comes from `repr`, a parameter. */
  function PyStr(v: Json, repr: Json -> string): string
  {
    match v
    case JNull => "None"
    case JBool(b) => if b then "True" else "False"
    case JInt(_) => Dumps(v, UNICODE)
    case JFloat(_) => Dumps(v, UNICODE)
    case JStr(s) => s
    case _ => repr(v)
  }

  /** Texts are themselves, numbers read back, and the constants have Python's names. */
  lemma PyStrOfScalars(n: int, f: Float, s: string, repr: Json -> string)
    ensures PyStr(JStr(s), repr) == s && PyStr(JNull, repr) == "None"
    ensures PyStr(JBool(true), repr) == "True" && PyStr(JBool(false), repr) == "False"
    ensures Loads(PyStr(JInt(n), repr)) == Some(JInt(n)) && Loads(PyStr(JFloat(f), repr)) == Some(JFloat(f))
  {
    LoadsDumps(JInt(n), UNICODE);
    LoadsDumps(JFloat(f), UNICODE);
  }

  predicate IsInbound(e: L0Event) { e.kind == "inbound_message" }

  /** The recording id of an LLM call that has a usable output. */
  function ReplyKey(e: L0Event, repr: Json -> string): Option<string>
  {
    if e.kind == "llm_call" && e.payload.At("recording_id").Truthy() && e.payload.At("output").Truthy()
    then Some(PyStr(e.payload.At("recording_id"), repr)) else None
  }

  function ReplyText(e: L0Event, repr: Json -> string): string
  {
    PyStr(e.payload.At("output"), repr)
  }

  /** The action id a tool result is recorded under. */
  function ToolKey(e: L0Event, repr: Json -> string): Option<string>
  {
    if e.kind == "tool_result" && e.payload.At("action_id").Truthy()
    then Some(PyStr(e.payload.At("action_id"), repr)) else None
  }

  function ToolRecord(e: L0Event): CachedTool
  {
    CachedTool(e.payload.At("success"), e.payload.At("data"), e.payload.At("error"))
  }

  function LlmCache(events: seq<L0Event>, repr: Json -> string): Dict<string, string>
  {
    Collect(events, (e: L0Event) => ReplyKey(e, repr), (e: L0Event) => ReplyText(e, repr))
  }

  function ToolCache(events: seq<L0Event>, repr: Json -> string): Dict<string, CachedTool>
  {
    Collect(events, (e: L0Event) => ToolKey(e, repr), ToolRecord)
  }

  function TraceOf(conversation: string, events: seq<L0Event>, repr: Json -> string): Trace
  {
    Trace(conversation, events, Filter(events, IsInbound), LlmCache(events, repr), ToolCache(events, repr))
  }

  lemma LoadedOneMore(events: seq<L0Event>, i: nat, repr: Json -> string)
    requires i < |events|
    ensures Filter(events[..i + 1], IsInbound)
            == Filter(events[..i], IsInbound) + if events[i].kind == "inbound_message" then [events[i]] else []
    ensures LlmCache(events[..i + 1], repr)
            == match ReplyKey(events[i], repr) {
                 case None => LlmCache(events[..i], repr)
                 case Some(k) => Put(LlmCache(events[..i], repr), k, ReplyText(events[i], repr))
               }
    ensures ToolCache(events[..i + 1], repr)
            == match ToolKey(events[i], repr) {
                 case None => ToolCache(events[..i], repr)
                 case Some(k) => Put(ToolCache(events[..i], repr), k, ToolRecord(events[i]))
               }
  {
    assert events[..i + 1][..i] == events[..i];
  }

  class TraceLoader {
    const l0: L0RawEventStore
    const repr: Json -> string

    constructor (l0: L0RawEventStore, repr: Json -> string)
      ensures this.l0 == l0 && this.repr == repr
    {
      this.l0, this.repr := l0, repr;
    }

    method Load(conversation: string) returns (trace: Trace)
      requires l0.Valid()
      ensures trace == TraceOf(conversation, Listing(l0.events, conversation, 1000), repr)
    {
      var events := l0.List(conversation, 1000);
      var inbound: seq<L0Event> := [];
      var llmCache: Dict<string, string> := [];
      var toolCache: Dict<string, CachedTool> := [];
      for i := 0 to |events|
        invariant inbound == Filter(events[..i], IsInbound)
        invariant llmCache == LlmCache(events[..i], repr)
        invariant toolCache == ToolCache(events[..i], repr)
      {
        var event := events[i];
        LoadedOneMore(events, i, repr);
        if event.kind == "inbound_message" {
          inbound := inbound + [event];
        } else if event.kind == "llm_call" {
          var recordingId, output := event.payload.At("recording_id"), event.payload.At("output");
          if recordingId.Truthy() && output.Truthy() {
            llmCache := Put(llmCache, PyStr(recordingId, repr), PyStr(output, repr));
          }
        } else if event.kind == "tool_result" {
          var actionId := event.payload.At("action_id");
          if actionId.Truthy() {
            toolCache := Put(toolCache, PyStr(actionId, repr),
                             CachedTool(event.payload.At("success"), event.payload.At("data"),
                                        event.payload.At("error")));
          }
        }
      }
      assert events[..|events|] == events;
      trace := Trace(conversation, events, inbound, llmCache, toolCache);
    }
  }

  // ---- what the caches hold ---------------------------------------------------------------

  /** The event is a tool result recorded under this action id. */
  predicate ResultUnder(e: L0Event, k: string, repr: Json -> string)
  {
    e.kind == "tool_result" && e.payload.At("action_id").Truthy() && PyStr(e.payload.At("action_id"), repr) == k
  }

  /** The event is an LLM call with an output, recorded under this id. */
  predicate ReplyUnder(e: L0Event, k: string, repr: Json -> string)
  {
    && e.kind == "llm_call" && e.payload.At("output").Truthy()
    && e.payload.At("recording_id").Truthy() && PyStr(e.payload.At("recording_id"), repr) == k
  }

  /** Element i is the last one of which p holds. */
  predicate IsLast<T>(s: seq<T>, i: nat, p: T -> bool)
  {
    i < |s| && p(s[i]) && forall j {:trigger s[j]} :: i < j < |s| ==> !p(s[j])
  }

  lemma LastUnderKey<T>(s: seq<T>, key: T -> Option<string>, k: string, p: T -> bool, i: nat)
    requires forall x :: p(x) <==> key(x) == Some(k)
    ensures IsLast(s, i, p) <==> LastWith(s, key, k, i)
    ensures (exists x :: x in s && p(x)) <==> !NoneWith(s, key, k)
  {
    if !NoneWith(s, key, k) {
      var j :| 0 <= j < |s| && key(s[j]) == Some(k);
      assert s[j] in s && p(s[j]);
    }
  }

  /** The tool cache answers for an action id exactly when some result was recorded under it, and then with success,
      data and error of the last one. */
  lemma ToolCacheHoldsLastResult(events: seq<L0Event>, repr: Json -> string, k: string)
    ensures Get(ToolCache(events, repr), k).Some? <==> exists e :: e in events && ResultUnder(e, k, repr)
    ensures forall i: nat :: IsLast(events, i, e => ResultUnder(e, k, repr)) ==>
              var p := events[i].payload;
              Get(ToolCache(events, repr), k) == Some(CachedTool(p.At("success"), p.At("data"), p.At("error")))
  {
    var key, under := (e: L0Event) => ToolKey(e, repr), (e: L0Event) => ResultUnder(e, k, repr);
    CollectKeepsLast(events, key, ToolRecord, k);
    forall i: nat ensures IsLast(events, i, under) <==> LastWith(events, key, k, i) {
      LastUnderKey(events, key, k, under, i);
    }
    LastUnderKey(events, key, k, under, 0);
    assert (exists e :: e in events && under(e)) <==> exists e :: e in events && ResultUnder(e, k, repr);
  }

  /** The LLM cache answers for a recording id exactly when some call with an output was recorded under it, and then
      with the output of the last one. */
  lemma LlmCacheHoldsLastReply(events: seq<L0Event>, repr: Json -> string, k: string)
    ensures Get(LlmCache(events, repr), k).Some? <==> exists e :: e in events && ReplyUnder(e, k, repr)
    ensures forall i: nat :: IsLast(events, i, e => ReplyUnder(e, k, repr)) ==>
              Get(LlmCache(events, repr), k) == Some(PyStr(events[i].payload.At("output"), repr))
  {
    var key, val := (e: L0Event) => ReplyKey(e, repr), (e: L0Event) => ReplyText(e, repr);
    var under := (e: L0Event) => ReplyUnder(e, k, repr);
    CollectKeepsLast(events, key, val, k);
    forall i: nat ensures IsLast(events, i, under) <==> LastWith(events, key, k, i) {
      LastUnderKey(events, key, k, under, i);
    }
    LastUnderKey(events, key, k, under, 0);
    assert (exists e :: e in events && under(e)) <==> exists e :: e in events && ReplyUnder(e, k, repr);
  }

  /** The n-th value of the LLM cache is the last output of the n-th distinct recording id, ids counted in
      the order in which they first occur. */
  lemma NthReplyIsFinalOutput(events: seq<L0Event>, repr: Json -> string, n: nat)
    requires n < |LlmCache(events, repr)|
    ensures var d := LlmCache(events, repr);
            && InFirstOrder(Keys(d), events, (e: L0Event) => ReplyKey(e, repr))
            && exists i: nat :: IsLast(events, i, e => ReplyUnder(e, Keys(d)[n], repr))
                                && Values(d)[n] == PyStr(events[i].payload.At("output"), repr)
  {
    var key, val := (e: L0Event) => ReplyKey(e, repr), (e: L0Event) => ReplyText(e, repr);
    NthValueIsFinal(events, key, val, n);
    var d := LlmCache(events, repr);
    var i: nat :| LastWith(events, key, Keys(d)[n], i) && Values(d)[n] == val(events[i]);
    LastUnderKey(events, key, Keys(d)[n], (e: L0Event) => ReplyUnder(e, Keys(d)[n], repr), i);
  }

  /** The recording ids of the calls with an output among the first f events. */
  function IdsBefore(events: seq<L0Event>, f: nat, repr: Json -> string): set<string>
    requires f <= |events|
  {
    KeysBefore(events, f, (e: L0Event) => ReplyKey(e, repr))
  }

  /** The place of a recording id in the LLM cache is the number of ids that occur before it does. */
  lemma ReplyPosition(events: seq<L0Event>, repr: Json -> string, id: string, f: nat)
    requires f < |events| && ReplyUnder(events[f], id, repr)
    requires forall j {:trigger events[j]} :: 0 <= j < f ==> !ReplyUnder(events[j], id, repr)
    ensures var d, n := LlmCache(events, repr), |IdsBefore(events, f, repr)|;
            n < |d| && Keys(d)[n] == id && Get(d, id) == Some(Values(d)[n])
  {
    var key, val := (e: L0Event) => ReplyKey(e, repr), (e: L0Event) => ReplyText(e, repr);
    KeyPosition(events, key, val, id, f);
    CollectKeysInFirstOrder(events, key, val);
    GetAtPosition(LlmCache(events, repr), |IdsBefore(events, f, repr)|);
  }
}

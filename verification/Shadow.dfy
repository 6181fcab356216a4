/** ShadowRunner: one what-if replay of the badcase a proposal names, and the gate it may block. */
module Shadow {
  import opened Prelude
  import opened Json
  import opened L0Store
  import opened Outside
  import opened Replay
  import opened Agents
  import opened Engine
  import opened Proposals
  import Traces
  import Differ

  datatype ShadowResult = ShadowResult(proposal: string, verdict: Option<Differ.Verdict>, session: Option<string>)
  {
    predicate BlocksGate() { verdict == Some(Differ.Inconclusive) }
  }

  lemma {:induction false} NoneCounted<T>(s: seq<T>, p: T -> bool)
    ensures Count(s, p) == 0 <==> forall i :: 0 <= i < |s| ==> !p(s[i])
  {
    if s != [] { NoneCounted(s[..|s| - 1], p); }
  }

  predicate HasEvents(events: seq<L0Event>, conversation: string)
  {
    exists i :: 0 <= i < |events| && events[i].conversation == conversation
  }

  lemma {:induction false} ListingIsEmptyIffNoEvents(events: seq<L0Event>, conversation: string)
    ensures Listing(events, conversation, 1000) == [] <==> !HasEvents(events, conversation)
  {
    ListingLength(events, conversation, 1000);
    NoneCounted(events, (e: L0Event) => e.conversation == conversation);
  }

  class ShadowRunner {
    const engine: ReplayEngine

    constructor (engine: ReplayEngine)
      ensures this.engine == engine
    {
      this.engine := engine;
    }

    /** The id of the badcase conversation. */
    function Named(p: Proposal): Json { p.evidence.At("badcase_conversation_id") }

    /** The what-if replay of the named conversation under the overrides of the payload. */
    function SessionOf(p: Proposal): ReplaySession
    {
      ReplaySession(Traces.PyStr(Named(p), engine.repr), WhatIf,
                    ReplayOverrides(p.payload.At("prompt_override"), p.payload.At("model_override"), {}))
    }

    /** The model was asked one question per message, in order, under the overrides of the proposal's payload. */
    ghost predicate AskedUnderPayload(p: Proposal, inbound: seq<L0Event>, n: nat, before: seq<Request>,
                                      after: seq<Request>)
    {
      && |after| == |before| + n && n <= |inbound| && after[..|before|] == before
      && forall k {:trigger inbound[k]} :: 0 <= k < n ==>
           after[|before| + k] == Question(engine.basePrompt, p.payload.At("prompt_override"),
                                           p.payload.At("model_override"), inbound[k], engine.repr)
    }

    lemma ReplayAsksUnderPayload(p: Proposal, trace: Traces.Trace, tried: nat, before: seq<Request>)
      requires tried <= |trace.inbound|
      ensures AskedUnderPayload(p, trace.inbound, tried, before, before + engine.AskedFor(trace, SessionOf(p), tried))
    {
      var asked := engine.AskedFor(trace, SessionOf(p), tried);
      forall k {:trigger trace.inbound[k]} | 0 <= k < tried
        ensures asked[k] == Question(engine.basePrompt, p.payload.At("prompt_override"),
                                     p.payload.At("model_override"), trace.inbound[k], engine.repr)
      {
        engine.AskedForQuestions(trace, SessionOf(p), tried, k);
      }
    }

    /** A run that returns blocks the gate exactly when the proposal names a badcase conversation that has no recorded
        events. No name, no replay. A named conversation is replayed in that session: for every message the run came to,
        in order, the model was asked the words of that message under the payload's overrides, and verdict and session
        id are the replay's. */
    method Run(p: Proposal)
      returns (r: Option<ShadowResult>, ghost replay: Option<ReplayResult>, ghost orch: Orchestrator?, ghost tried: nat,
               ghost parts: seq<seq<L0Event>>)
      requires engine.Wired() && engine.l0.Valid()
      modifies engine.world
      ensures r.Some? ==>
                var named := p.evidence.At("badcase_conversation_id");
                r.value.BlocksGate() <==>
                  named.Truthy() && !HasEvents(engine.l0.events, Traces.PyStr(named, engine.repr))
      ensures !Named(p).Truthy() ==>
                r == Some(ShadowResult(p.id, None, None)) && engine.world.asked == old(engine.world.asked)
      ensures Named(p).Truthy() ==>
                r == if replay.None? then None
                     else Some(ShadowResult(p.id, Some(replay.value.verdict), Some(replay.value.session)))
      ensures Named(p).Truthy() && HasEvents(engine.l0.events, SessionOf(p).conversation) ==>
                && orch != null && orch.worker.llm.mode.WhatIf? && orch.tools.mode.WhatIf? && orch.tools.rerun == {}
                && engine.Replayed(orch, engine.Baseline(SessionOf(p).conversation), SessionOf(p), tried, parts, replay,
                                   old(engine.world.asked))
                && AskedUnderPayload(p, engine.Baseline(SessionOf(p).conversation).inbound, tried,
                                     old(engine.world.asked), engine.world.asked)
    {
      replay, orch, tried, parts := None, null, 0, [];
      var named := p.evidence.At("badcase_conversation_id");
      if !named.Truthy() { return Some(ShadowResult(p.id, None, None)), None, null, 0, []; }
      var overrides := ReplayOverrides(p.payload.At("prompt_override"), p.payload.At("model_override"), {});
      var session := ReplaySession(Traces.PyStr(named, engine.repr), WhatIf, overrides);
      ListingIsEmptyIffNoEvents(engine.l0.events, session.conversation);
      var result: Option<ReplayResult>;
      result, orch, tried, parts := engine.Replay(session);
      replay := result;
      if HasEvents(engine.l0.events, session.conversation) {
        ReplayAsksUnderPayload(p, engine.Baseline(session.conversation), tried, old(engine.world.asked));
      }
      if result.None? { return None, None, orch, tried, parts; }
      r := Some(ShadowResult(p.id, Some(result.value.verdict), Some(result.value.session)));
    }
  }
}

/** ReplayDiffer: the index loop over two event lists, and its verdict. */
module Differ {
  import opened Prelude
  import opened Json
  import opened JsonRoundTrip
  import opened Canon
  import opened L0Store

  datatype DivergenceKind = ActionChanged | ContentChanged | ToolMissing | ToolAdded | LlmOutputChanged

  datatype DivergencePoint = DivergencePoint(step: int, kind: DivergenceKind,
                                             baselineSummary: string, replaySummary: string)

  datatype Verdict = BadcaseFixed | BadcaseRemains | NewRegression | Inconclusive

  function CanonOf(payload: Payload): string
  {
    CanonText(payload, UNICODE)
  }

  function Summarize(payload: Payload): string
  {
    var s := Dumps(payload, UNICODE);
    if |s| > 120 then s[..120] + "..." else s
  }

  function Summary(e: L0Event): string
  {
    e.kind + ": " + Summarize(e.payload)
  }

  predicate ToolKind(kind: string) { kind == "tool_call" || kind == "tool_result" }

  function ClassifyDivergence(b: L0Event, r: L0Event): DivergenceKind
  {
    if b.kind != r.kind && ToolKind(r.kind) then ToolAdded
    else if b.kind != r.kind && ToolKind(b.kind) then ToolMissing
    else if b.kind == "llm_call" || r.kind == "llm_call" then LlmOutputChanged
    else ContentChanged
  }

  // ---- what a diff should say -------------------------------------------------------------

  function Longer(b: seq<L0Event>, r: seq<L0Event>): nat
  {
    if |b| > |r| then |b| else |r|
  }

  /** At step i one side is missing, or the kinds or the payloads, as JSON values, are different. */
  predicate Differs(b: seq<L0Event>, r: seq<L0Event>, i: nat)
  {
    i >= |b| || i >= |r| || b[i].kind != r[i].kind || Denote(b[i].payload) != Denote(r[i].payload)
  }

  function Side(s: seq<L0Event>, i: nat): Option<L0Event>
  {
    if i < |s| then Some(s[i]) else None
  }

  /** What the diff reports for a step, if anything, given the two events it finds there. */
  function PointAt(i: nat, b: Option<L0Event>, r: Option<L0Event>): Option<DivergencePoint>
  {
    match (b, r)
    case (None, None) => None
    case (None, Some(y)) =>
      Some(DivergencePoint(i, if ToolKind(y.kind) then ToolAdded else ContentChanged, "<missing>", Summary(y)))
    case (Some(x), None) =>
      Some(DivergencePoint(i, if ToolKind(x.kind) then ToolMissing else ContentChanged, Summary(x), "<missing>"))
    case (Some(x), Some(y)) =>
      if x.kind == y.kind && Denote(x.payload) == Denote(y.payload) then None
      else Some(DivergencePoint(i, ClassifyDivergence(x, y), Summary(x), Summary(y)))
  }

  type Reporter = (nat, Option<L0Event>, Option<L0Event>) -> Option<DivergencePoint>

  function StepsOf(b: seq<L0Event>, r: seq<L0Event>, point: Reporter): nat -> Option<DivergencePoint>
  {
    (i: nat) => point(i, Side(b, i), Side(r, i))
  }

  /** The reports of the first n steps. */
  function Reports(n: nat, at: nat -> Option<DivergencePoint>): seq<DivergencePoint>
  {
    if n == 0 then []
    else Reports(n - 1, at) + if at(n - 1).Some? then [at(n - 1).value] else []
  }

  function Divergences(b: seq<L0Event>, r: seq<L0Event>): seq<DivergencePoint>
  {
    DivergencesBy(b, r, PointAt)
  }

  function DivergencesBy(b: seq<L0Event>, r: seq<L0Event>, point: Reporter): seq<DivergencePoint>
  {
    Reports(Longer(b, r), StepsOf(b, r, point))
  }

  /** A tool result that was a success is one no more. */
  predicate Regressed(b: seq<L0Event>, r: seq<L0Event>, i: nat)
  {
    && i < |b| && i < |r| && b[i].kind == "tool_result" && r[i].kind == "tool_result"
    && b[i].payload.At("success") == JBool(true) && r[i].payload.At("success") != JBool(true)
  }

  ghost function VerdictOf(badcase: Option<int>, b: seq<L0Event>, r: seq<L0Event>): Verdict
  {
    if exists i: nat :: Regressed(b, r, i) then NewRegression
    else if badcase.Some? && !(0 <= badcase.value < Longer(b, r) && Differs(b, r, badcase.value)) then BadcaseRemains
    else BadcaseFixed
  }

  // ---- the code ---------------------------------------------------------------------------

  /** `ReplayDiffer(badcase_event_index=...)` */
  datatype ReplayDiffer = ReplayDiffer(badcase: Option<int>)
  {
    method Diff(baseline: seq<L0Event>, replay: seq<L0Event>) returns (points: seq<DivergencePoint>, verdict: Verdict)
      ensures points == Divergences(baseline, replay)
      ensures verdict == VerdictOf(badcase, baseline, replay)
    {
      points := [];
      var maxLen := if |baseline| > |replay| then |baseline| else |replay|;
      for i := 0 to maxLen
        invariant points == Reports(i, StepsOf(baseline, replay, PointAt))
      {
        assert StepsOf(baseline, replay, PointAt)(i) == PointAt(i, Side(baseline, i), Side(replay, i));
        if i >= |baseline| {
          var r := replay[i];
          points := points + [DivergencePoint(i, if ToolKind(r.kind) then ToolAdded else ContentChanged,
                                              "<missing>", r.kind + ": " + Summarize(r.payload))];
        } else if i >= |replay| {
          var b := baseline[i];
          points := points + [DivergencePoint(i, if ToolKind(b.kind) then ToolMissing else ContentChanged,
                                              b.kind + ": " + Summarize(b.payload), "<missing>")];
        } else {
          var b, r := baseline[i], replay[i];
          CanonTextIsInjective(b.payload, r.payload, UNICODE);
          if b.kind != r.kind || CanonOf(b.payload) != CanonOf(r.payload) {
            points := points + [DivergencePoint(i, ClassifyDivergence(b, r), b.kind + ": " + Summarize(b.payload),
                                                r.kind + ": " + Summarize(r.payload))];
          }
        }
      }
      VerdictClosedForm(this, baseline, replay);
      verdict := DetermineVerdict(baseline, replay, points);
    }

    function DetermineVerdict(b: seq<L0Event>, r: seq<L0Event>, points: seq<DivergencePoint>): Verdict
      requires forall p :: p in points ==> p.step >= 0
    {
      if points == [] then (if badcase.Some? then BadcaseRemains else BadcaseFixed)
      else if exists p :: p in points && IsNewFailure(b, r, p) then NewRegression
      else if badcase.Some? && !(exists p :: p in points && p.step == badcase.value) then BadcaseRemains
      else BadcaseFixed
    }

    predicate IsNewFailure(b: seq<L0Event>, r: seq<L0Event>, p: DivergencePoint)
      requires p.step >= 0
    {
      && p.step < |b| && p.step < |r|
      && b[p.step].kind == "tool_result" && r[p.step].kind == "tool_result"
      && b[p.step].payload.At("success") == JBool(true) && r[p.step].payload.At("success") != JBool(true)
    }
  }

  // ---- soundness and completeness ---------------------------------------------------------

  predicate StepsIncrease(points: seq<DivergencePoint>)
  {
    forall i, j :: 0 <= i < j < |points| ==> points[i].step < points[j].step
  }

  /** Some point reports step i. */
  predicate Listed(points: seq<DivergencePoint>, i: nat)
  {
    exists p :: p in points && p.step == i
  }

  ghost predicate Exact(points: seq<DivergencePoint>, b: seq<L0Event>, r: seq<L0Event>)
  {
    forall i: nat :: Listed(points, i) <==> i < Longer(b, r) && Differs(b, r, i)
  }

  predicate Indexed(at: nat -> Option<DivergencePoint>, n: nat)
  {
    forall i: nat :: i < n && at(i).Some? ==> at(i).value.step == i
  }

  lemma {:induction false} ReportsAreExact(n: nat, at: nat -> Option<DivergencePoint>)
    requires Indexed(at, n)
    ensures StepsIncrease(Reports(n, at))
    ensures forall p :: p in Reports(n, at) ==> 0 <= p.step < n && at(p.step) == Some(p)
    ensures forall i: nat :: i < n && at(i).Some? ==> at(i).value in Reports(n, at)
  {
    if n > 0 {
      ReportsAreExact(n - 1, at);
      var before := Reports(n - 1, at);
      forall i | 0 <= i < |before| ensures before[i].step < n - 1 { assert before[i] in before; }
    }
  }

  lemma PointAtReports(b: seq<L0Event>, r: seq<L0Event>, i: nat)
    ensures var p := PointAt(i, Side(b, i), Side(r, i));
            (p.Some? <==> i < Longer(b, r) && Differs(b, r, i)) && (p.Some? ==> p.value.step == i)
  {}

  /** The reported steps increase strictly and are exactly the steps at which the two sides differ. */
  lemma DiffIsSoundAndComplete(b: seq<L0Event>, r: seq<L0Event>)
    ensures StepsIncrease(Divergences(b, r))
    ensures forall p :: p in Divergences(b, r) ==> p.step >= 0
    ensures Exact(Divergences(b, r), b, r)
  {
    var at := StepsOf(b, r, PointAt);
    forall i: nat ensures at(i).Some? <==> i < Longer(b, r) && Differs(b, r, i)
                  ensures at(i).Some? ==> at(i).value.step == i
    {
      PointAtReports(b, r, i);
    }
    DivergencesAreExact(b, r, PointAt);
  }

  lemma DivergencesAreExact(b: seq<L0Event>, r: seq<L0Event>, point: Reporter)
    requires forall i: nat :: var at := StepsOf(b, r, point);
               (at(i).Some? <==> i < Longer(b, r) && Differs(b, r, i)) && (at(i).Some? ==> at(i).value.step == i)
    ensures StepsIncrease(DivergencesBy(b, r, point))
    ensures forall p :: p in DivergencesBy(b, r, point) ==> p.step >= 0
    ensures Exact(DivergencesBy(b, r, point), b, r)
  {
    ReportsAreExact(Longer(b, r), StepsOf(b, r, point));
    StepsOfReports(Longer(b, r), StepsOf(b, r, point), DivergencesBy(b, r, point));
  }

  lemma StepsOfReports(n: nat, at: nat -> Option<DivergencePoint>, points: seq<DivergencePoint>)
    requires Indexed(at, n)
    requires forall p :: p in points ==> 0 <= p.step < n && at(p.step) == Some(p)
    requires forall i: nat :: i < n && at(i).Some? ==> at(i).value in points
    ensures forall i: nat :: Listed(points, i) <==> i < n && at(i).Some?
  {
    forall i: nat ensures Listed(points, i) <==> i < n && at(i).Some? {
      if i < n && at(i).Some? { assert at(i).value in points; }
    }
  }

  /** No divergence means: same length, and step by step the same kinds and equal payloads. */
  lemma DiffIsEmptyIffEqual(b: seq<L0Event>, r: seq<L0Event>)
    ensures Divergences(b, r) == [] <==>
            |b| == |r| && forall i :: 0 <= i < |b| ==>
              b[i].kind == r[i].kind && Denote(b[i].payload) == Denote(r[i].payload)
  {
    DiffIsSoundAndComplete(b, r);
    assert |b| < |r| ==> Differs(b, r, |b|);
    assert |r| < |b| ==> Differs(b, r, |r|);
    var points := Divergences(b, r);
    if points == [] {
      forall i: nat | i < Longer(b, r) ensures !Differs(b, r, i) { assert !Listed(points, i); }
      forall i | 0 <= i < |b| ensures b[i].kind == r[i].kind && Denote(b[i].payload) == Denote(r[i].payload) {
        assert !Differs(b, r, i);
      }
    } else {
      assert points[0] in points;
      var i: nat := points[0].step;
      assert Listed(points, i);
    }
  }

  /** The event is a tool call or a tool result. */
  predicate IsTool(e: Option<L0Event>) { e.Some? && (e.value.kind == "tool_call" || e.value.kind == "tool_result") }

  predicate IsLlm(e: Option<L0Event>) { e.Some? && e.value.kind == "llm_call" }

  lemma KindOfPoint(i: nat, x: Option<L0Event>, y: Option<L0Event>)
    requires PointAt(i, x, y).Some?
    ensures var kind := PointAt(i, x, y).value.kind;
            && (kind.ToolAdded? <==> IsTool(y) && (x.None? || x.value.kind != y.value.kind))
            && (kind.ToolMissing? <==> IsTool(x) && !IsTool(y))
            && (kind.LlmOutputChanged? <==> x.Some? && y.Some? && (IsLlm(x) || IsLlm(y)) && !IsTool(x) && !IsTool(y))
            && !kind.ActionChanged?
  {}

  /** What the kind of a reported point says about the two sides; ACTION_CHANGED is never reported. */
  lemma {:induction false} KindsSayWhatChanged(b: seq<L0Event>, r: seq<L0Event>, p: DivergencePoint)
    requires p in Divergences(b, r)
    ensures p.step >= 0
    ensures var x, y := Side(b, p.step), Side(r, p.step);
            && (p.kind.ToolAdded? <==> IsTool(y) && (x.None? || x.value.kind != y.value.kind))
            && (p.kind.ToolMissing? <==> IsTool(x) && !IsTool(y))
            && (p.kind.LlmOutputChanged? <==> x.Some? && y.Some? && (IsLlm(x) || IsLlm(y)) && !IsTool(x) && !IsTool(y))
            && !p.kind.ActionChanged?
  {
    PointOfDivergence(b, r, p);
    KindOfPoint(p.step, Side(b, p.step), Side(r, p.step));
  }

  lemma PointOfDivergence(b: seq<L0Event>, r: seq<L0Event>, p: DivergencePoint)
    requires p in Divergences(b, r)
    ensures p.step >= 0 && PointAt(p.step, Side(b, p.step), Side(r, p.step)) == Some(p)
  {
    DiffIsSoundAndComplete(b, r);
    forall i: nat {:trigger StepsOf(b, r, PointAt)(i)} | StepsOf(b, r, PointAt)(i).Some?
      ensures StepsOf(b, r, PointAt)(i).value.step == i
    {
      PointAtReports(b, r, i);
    }
    PointIsOfItsStep(b, r, p, PointAt);
  }

  lemma PointIsOfItsStep(b: seq<L0Event>, r: seq<L0Event>, p: DivergencePoint, point: Reporter)
    requires p in DivergencesBy(b, r, point) && p.step >= 0
    requires forall i: nat {:trigger StepsOf(b, r, point)(i)} ::
               StepsOf(b, r, point)(i).Some? ==> StepsOf(b, r, point)(i).value.step == i
    ensures point(p.step, Side(b, p.step), Side(r, p.step)) == Some(p)
  {
    ReportsAreExact(Longer(b, r), StepsOf(b, r, point));
    assert StepsOf(b, r, point)(p.step) == Some(p);
  }

  /** The text shows this side: `<missing>` if there is none, else its kind and then its payload as written, whole and
      readable if that takes at most 120 characters, else cut there and marked. */
  predicate Shows(text: string, side: Option<L0Event>)
  {
    match side
    case None => text == "<missing>"
    case Some(e) =>
      var head, written := e.kind + ": ", Dumps(e.payload, UNICODE);
      && head <= text
      && (|written| <= 120 ==> Loads(text[|head|..]) == Some(e.payload))
      && (|written| > 120 ==> text[|head|..] == written[..120] + "...")
  }

  lemma SummaryShows(e: L0Event)
    ensures Shows(Summary(e), Some(e))
  {
    var head := e.kind + ": ";
    assert Summary(e)[|head|..] == Summarize(e.payload);
    LoadsDumps(e.payload, UNICODE);
  }

  lemma PointShows(i: nat, x: Option<L0Event>, y: Option<L0Event>)
    requires PointAt(i, x, y).Some?
    ensures Shows(PointAt(i, x, y).value.baselineSummary, x) && Shows(PointAt(i, x, y).value.replaySummary, y)
  {
    if x.Some? { SummaryShows(x.value); }
    if y.Some? { SummaryShows(y.value); }
  }

  /** A reported point shows, for its step, the baseline's side as the baseline and the replay's as the replay. */
  lemma {:induction false} SummariesShowTheirSides(b: seq<L0Event>, r: seq<L0Event>, p: DivergencePoint)
    requires p in Divergences(b, r)
    ensures p.step >= 0 && Shows(p.baselineSummary, Side(b, p.step)) && Shows(p.replaySummary, Side(r, p.step))
  {
    PointOfDivergence(b, r, p);
    PointShows(p.step, Side(b, p.step), Side(r, p.step));
  }

  function Shift(points: seq<DivergencePoint>, k: nat): (s: seq<DivergencePoint>)
    ensures |s| == |points|
  {
    seq(|points|, i requires 0 <= i < |points| => points[i].(step := points[i].step + k))
  }

  lemma ShiftSnoc(points: seq<DivergencePoint>, p: DivergencePoint, k: nat)
    ensures Shift(points + [p], k) == Shift(points, k) + [p.(step := p.step + k)]
  {}

  function Moved(p: Option<DivergencePoint>, k: nat): Option<DivergencePoint>
  {
    if p.None? then None else Some(p.value.(step := p.value.step + k))
  }

  /** shifted says at step k + i what at says at step i, moved by k, and nothing before step k. */
  ghost predicate ShiftOf(at: nat -> Option<DivergencePoint>, shifted: nat -> Option<DivergencePoint>, k: nat)
  {
    && (forall i: nat {:trigger shifted(i)} :: i < k ==> shifted(i) == None)
    && forall i: nat {:trigger at(i)} :: shifted(k + i) == Moved(at(i), k)
  }

  lemma {:induction false} ReportsShift(k: nat, n: nat, at: nat -> Option<DivergencePoint>,
                                        shifted: nat -> Option<DivergencePoint>)
    requires ShiftOf(at, shifted, k)
    ensures Reports(k + n, shifted) == Shift(Reports(n, at), k)
  {
    if n > 0 {
      ReportsShift(k, n - 1, at, shifted);
      assert shifted(k + (n - 1)) == Moved(at(n - 1), k);
      if at(n - 1).Some? { ShiftSnoc(Reports(n - 1, at), at(n - 1).value, k); }
    } else {
      NothingReported(k, shifted);
    }
  }

  lemma {:induction false} NothingReported(k: nat, at: nat -> Option<DivergencePoint>)
    requires forall i: nat :: i < k ==> at(i) == None
    ensures Reports(k, at) == []
  {
    if k > 0 { NothingReported(k - 1, at); }
  }

  /** The reporter says the same of two events at every step, and nothing of an event beside itself. */
  ghost predicate ReportsByContent(point: Reporter)
  {
    && (forall i: nat, e :: IsSilent(point, i, e))
    && forall i: nat, k: nat, x, y :: Moves(point, i, k, x, y)
  }

  predicate IsSilent(point: Reporter, i: nat, e: L0Event) { point(i, Some(e), Some(e)) == None }

  predicate Moves(point: Reporter, i: nat, k: nat, x: Option<L0Event>, y: Option<L0Event>)
  {
    point(k + i, x, y) == Moved(point(i, x, y), k)
  }

  lemma SidesShift(pre: seq<L0Event>, s: seq<L0Event>, i: nat)
    ensures Side(pre + s, |pre| + i) == Side(s, i)
    ensures i < |pre| ==> Side(pre + s, i) == Some(pre[i])
  {
    if i < |s| { assert (pre + s)[|pre| + i] == s[i]; }
  }

  lemma StepShifts(pre: seq<L0Event>, b: seq<L0Event>, r: seq<L0Event>, point: Reporter, i: nat)
    requires Moves(point, i, |pre|, Side(b, i), Side(r, i))
    ensures StepsOf(pre + b, pre + r, point)(|pre| + i) == Moved(StepsOf(b, r, point)(i), |pre|)
  {
    SidesShift(pre, b, i);
    SidesShift(pre, r, i);
  }

  lemma SharedStepIsSilent(pre: seq<L0Event>, b: seq<L0Event>, r: seq<L0Event>, point: Reporter, i: nat)
    requires i < |pre| && IsSilent(point, i, pre[i])
    ensures StepsOf(pre + b, pre + r, point)(i) == None
  {
    SidesShift(pre, b, i);
    SidesShift(pre, r, i);
  }

  lemma DivergencesShift(pre: seq<L0Event>, b: seq<L0Event>, r: seq<L0Event>, point: Reporter)
    requires ShiftOf(StepsOf(b, r, point), StepsOf(pre + b, pre + r, point), |pre|)
    ensures DivergencesBy(pre + b, pre + r, point) == Shift(DivergencesBy(b, r, point), |pre|)
  {
    ReportsShift(|pre|, Longer(b, r), StepsOf(b, r, point), StepsOf(pre + b, pre + r, point));
  }

  lemma PointMoves(i: nat, k: nat, x: Option<L0Event>, y: Option<L0Event>)
    ensures PointAt(k + i, x, y) == Moved(PointAt(i, x, y), k)
  {}

  lemma EqualEventsAreSilent(i: nat, e: L0Event)
    ensures PointAt(i, Some(e), Some(e)) == None
  {}

  lemma PointAtReportsByContent()
    ensures ReportsByContent(PointAt)
  {
    forall i: nat, e ensures IsSilent(PointAt, i, e) { EqualEventsAreSilent(i, e); }
    forall i: nat, k: nat, x, y ensures Moves(PointAt, i, k, x, y) { PointMoves(i, k, x, y); }
  }

  lemma StepsShift(pre: seq<L0Event>, b: seq<L0Event>, r: seq<L0Event>, point: Reporter)
    requires ReportsByContent(point)
    ensures ShiftOf(StepsOf(b, r, point), StepsOf(pre + b, pre + r, point), |pre|)
  {
    var at, shifted := StepsOf(b, r, point), StepsOf(pre + b, pre + r, point);
    forall i: nat {:trigger shifted(i)} | i < |pre| ensures shifted(i) == None {
      SharedStepIsSilent(pre, b, r, point, i);
    }
    forall i: nat {:trigger at(i)} ensures shifted(|pre| + i) == Moved(at(i), |pre|) {
      StepShifts(pre, b, r, point, i);
    }
  }

  /** Putting the same events before both sides shifts the steps and changes nothing else. */
  lemma CommonPrefixShifts(pre: seq<L0Event>, b: seq<L0Event>, r: seq<L0Event>)
    ensures Divergences(pre + b, pre + r) == Shift(Divergences(b, r), |pre|)
  {
    PointAtReportsByContent();
    StepsShift(pre, b, r, PointAt);
    DivergencesShift(pre, b, r, PointAt);
  }

  // ---- verdict ----------------------------------------------------------------------------

  lemma OnlyTrueDenotesTrue(x: Json, y: Json)
    requires Denote(x) == Denote(y) && x == JBool(true)
    ensures y == JBool(true)
  {}

  /** A lost success is always a divergence. */
  lemma RegressionDiverges(b: seq<L0Event>, r: seq<L0Event>, i: nat)
    requires Regressed(b, r, i)
    ensures i < Longer(b, r) && Differs(b, r, i)
  {
    if !Differs(b, r, i) {
      AtDenotes(b[i].payload, r[i].payload, "success");
      OnlyTrueDenotesTrue(b[i].payload.At("success"), r[i].payload.At("success"));
    }
  }

  lemma NewFailureIffRegressed(d: ReplayDiffer, b: seq<L0Event>, r: seq<L0Event>, points: seq<DivergencePoint>)
    requires forall p :: p in points ==> p.step >= 0
    requires Exact(points, b, r)
    ensures (exists p :: p in points && d.IsNewFailure(b, r, p)) <==> exists i: nat :: Regressed(b, r, i)
  {
    if i: nat :| Regressed(b, r, i) {
      RegressionDiverges(b, r, i);
      assert Listed(points, i);
      var p :| p in points && p.step == i;
      assert d.IsNewFailure(b, r, p);
    }
    forall p | p in points && d.IsNewFailure(b, r, p) ensures exists i: nat :: Regressed(b, r, i) {
      assert Regressed(b, r, p.step);
    }
  }

  lemma VerdictFromSteps(d: ReplayDiffer, b: seq<L0Event>, r: seq<L0Event>, points: seq<DivergencePoint>)
    requires forall p :: p in points ==> p.step >= 0
    requires Exact(points, b, r)
    ensures d.DetermineVerdict(b, r, points) == VerdictOf(d.badcase, b, r)
  {
    NewFailureIffRegressed(d, b, r, points);
    if d.badcase.Some? && 0 <= d.badcase.value { assert Listed(points, d.badcase.value) <==>
             d.badcase.value < Longer(b, r) && Differs(b, r, d.badcase.value); }
  }

  /** A tool result that had succeeded and does so no more. */
  predicate LostSuccess(x: L0Event, y: L0Event)
  {
    && x.kind == "tool_result" && x.payload.At("success") == JBool(true)
    && y.kind == "tool_result" && y.payload.At("success") != JBool(true)
  }

  /** The verdict in closed form; the differ never answers Inconclusive. */
  lemma VerdictClosedForm(d: ReplayDiffer, b: seq<L0Event>, r: seq<L0Event>)
    ensures forall p :: p in Divergences(b, r) ==> p.step >= 0
    ensures d.DetermineVerdict(b, r, Divergences(b, r)) == VerdictOf(d.badcase, b, r)
    ensures VerdictOf(d.badcase, b, r) != Inconclusive
    ensures VerdictOf(d.badcase, b, r) == NewRegression <==>
              exists i {:trigger b[i]} :: 0 <= i < |b| && i < |r| && LostSuccess(b[i], r[i])
    ensures VerdictOf(d.badcase, b, r) == BadcaseRemains ==> d.badcase.Some?
    ensures VerdictOf(d.badcase, b, r) != NewRegression && d.badcase.Some? && 0 <= d.badcase.value ==>
              var x, y := Side(b, d.badcase.value), Side(r, d.badcase.value);
              VerdictOf(d.badcase, b, r) == BadcaseRemains <==>
                x.Some? == y.Some?
                && (x.Some? ==> x.value.kind == y.value.kind && Denote(x.value.payload) == Denote(y.value.payload))
  {
    if i :| 0 <= i < |b| && i < |r| && LostSuccess(b[i], r[i]) { assert Regressed(b, r, i); }
    DiffIsSoundAndComplete(b, r);
    VerdictFromSteps(d, b, r, Divergences(b, r));
  }
}

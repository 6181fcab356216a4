/** Proposals and the SQLite table that holds them. A saved row always goes to the end of the table. */
module Proposals {
  import opened Prelude
  import opened Json
  import opened JsonRoundTrip

  datatype Dimension = Skill | Memory | CrmTool
  {
    function Text(): string { match this case Skill => "skill" case Memory => "memory" case CrmTool => "crm_tool" }
  }

  datatype Action = Create | Update | Deprecate
  {
    function Text(): string { match this case Create => "create" case Update => "update" case Deprecate => "deprecate" }
  }

  datatype Status = Pending | ShadowRunning | HitlPending | AutoPromoted | HitlApproved | Rejected
  {
    function Text(): string
    {
      match this
      case Pending => "pending" case ShadowRunning => "shadow_running" case HitlPending => "hitl_pending"
      case AutoPromoted => "auto_promoted" case HitlApproved => "hitl_approved" case Rejected => "rejected"
    }
  }

  datatype Gate = Promote | Ask | Refuse
  {
    function Text(): string {
      match this case Promote => "auto_promote" case Ask => "hitl_pending" case Refuse => "rejected"
    }
  }

  type Object = j: Json | j.JObj? && j.WellFormed() witness JObj([])

  datatype Proposal = Proposal(id: string, dimension: Dimension, action: Action, payload: Object, evidence: Object,
                               confidence: real, risk: string, status: Status, replay: Option<Object>,
                               gate: Option<Gate>, reviewer: Option<string>, note: Option<string>,
                               trace: Option<string>)

  /** A row of `proposals`; the rows are held in `rowid` order. */
  datatype Row = Row(id: string, dimension: string, action: string, payload: string, evidence: string,
                     confidence: real, risk: string, status: string, replay: Option<string>,
                     gate: Option<string>, reviewer: Option<string>, note: Option<string>, trace: Option<string>)

  function Encode(p: Proposal): Row
  {
    Row(p.id, p.dimension.Text(), p.action.Text(), Dumps(p.payload, DEFAULT), Dumps(p.evidence, DEFAULT),
        p.confidence, p.risk, p.status.Text(), if p.replay.Some? then Some(Dumps(p.replay.value, DEFAULT)) else None,
        if p.gate.Some? then Some(p.gate.value.Text()) else None, p.reviewer, p.note, p.trace)
  }

  function DimensionOf(s: string): Option<Dimension>
  {
    if s == "skill" then Some(Skill)
    else if s == "memory" then Some(Memory)
    else if s == "crm_tool" then Some(CrmTool)
    else None
  }

  function ActionOf(s: string): Option<Action>
  {
    if s == "create" then Some(Create)
    else if s == "update" then Some(Update)
    else if s == "deprecate" then Some(Deprecate)
    else None
  }

  function StatusOf(s: string): Option<Status>
  {
    if s == "pending" then Some(Pending) else if s == "shadow_running" then Some(ShadowRunning)
    else if s == "hitl_pending" then Some(HitlPending) else if s == "auto_promoted" then Some(AutoPromoted)
    else if s == "hitl_approved" then Some(HitlApproved) else if s == "rejected" then Some(Rejected) else None
  }

  function GateOf(s: Option<string>): Option<Option<Gate>>
  {
    if s.None? then Some(None) else if s.value == "auto_promote" then Some(Some(Promote))
    else if s.value == "hitl_pending" then Some(Some(Ask))
    else if s.value == "rejected" then Some(Some(Refuse))
    else None
  }

  function ObjectOf(s: string): Option<Object>
  {
    var j :- Loads(s);
    if j.JObj? && j.WellFormed() then Some(j) else None
  }

  function ReplayOf(s: Option<string>): Option<Option<Object>>
  {
    if s.None? then Some(None)
    else
      var o :- ObjectOf(s.value);
      Some(Some(o))
  }

  /** `_row_to_proposal`; `None` is the error of a text the enumerations or JSON do not know. */
  function Decode(r: Row): Option<Proposal>
  {
    var dimension :- DimensionOf(r.dimension);
    var action :- ActionOf(r.action);
    var payload :- ObjectOf(r.payload);
    var evidence :- ObjectOf(r.evidence);
    var status :- StatusOf(r.status);
    var replay :- ReplayOf(r.replay);
    var gate :- GateOf(r.gate);
    Some(Proposal(r.id, dimension, action, payload, evidence, r.confidence, r.risk, status, replay, gate,
                  r.reviewer, r.note, r.trace))
  }

  /** The columns hold the texts of the enumerations. */
  lemma ColumnsHoldEnumTexts(p: Proposal)
    ensures var r := Encode(p);
            && r.dimension == (match p.dimension
                 case Skill => "skill" case Memory => "memory" case CrmTool => "crm_tool")
            && r.action == (match p.action
                 case Create => "create" case Update => "update" case Deprecate => "deprecate")
            && r.status == (match p.status
                 case Pending => "pending" case ShadowRunning => "shadow_running" case HitlPending => "hitl_pending"
                 case AutoPromoted => "auto_promoted" case HitlApproved => "hitl_approved" case Rejected => "rejected")
            && r.gate == (match p.gate
                 case None => None case Some(Promote) => Some("auto_promote") case Some(Ask) => Some("hitl_pending")
                 case Some(Refuse) => Some("rejected"))
  {}

  lemma NamesReadBack(d: Dimension, a: Action)
    ensures DimensionOf(d.Text()) == Some(d) && ActionOf(a.Text()) == Some(a)
  {}

  lemma StatusReadsBack(s: Status)
    ensures StatusOf(s.Text()) == Some(s)
  {}

  lemma GateReadsBack(g: Option<Gate>)
    ensures GateOf(if g.Some? then Some(g.value.Text()) else None) == Some(g)
  {}

  lemma ObjectReadsBack(o: Object)
    ensures ObjectOf(Dumps(o, DEFAULT)) == Some(o)
  {
    LoadsDumps(o, DEFAULT);
  }

  lemma ReplayReadsBack(o: Option<Object>)
    ensures ReplayOf(if o.Some? then Some(Dumps(o.value, DEFAULT)) else None) == Some(o)
  {
    if o.Some? { ObjectReadsBack(o.value); }
  }

  lemma DecodesByParts(r: Row, p: Proposal)
    requires r.id == p.id && r.confidence == p.confidence && r.risk == p.risk
    requires r.reviewer == p.reviewer && r.note == p.note && r.trace == p.trace
    requires DimensionOf(r.dimension) == Some(p.dimension) && ActionOf(r.action) == Some(p.action)
    requires ObjectOf(r.payload) == Some(p.payload) && ObjectOf(r.evidence) == Some(p.evidence)
    requires StatusOf(r.status) == Some(p.status) && ReplayOf(r.replay) == Some(p.replay)
             && GateOf(r.gate) == Some(p.gate)
    ensures Decode(r) == Some(p)
  {}

  /** A row reads back as the proposal it was written from, every field of it. */
  lemma {:induction false} DecodeEncode(p: Proposal)
    ensures Decode(Encode(p)) == Some(p)
  {
    NamesReadBack(p.dimension, p.action);
    StatusReadsBack(p.status);
    GateReadsBack(p.gate);
    ObjectReadsBack(p.payload);
    ObjectReadsBack(p.evidence);
    ReplayReadsBack(p.replay);
    DecodesByParts(Encode(p), p);
  }

  lemma StatusTextsDiffer(s: Status, t: Status)
    ensures s.Text() == t.Text() <==> s == t
  {
    StatusReadsBack(s);
    StatusReadsBack(t);
  }

  lemma DimensionTextsDiffer(d: Dimension, e: Dimension)
    ensures d.Text() == e.Text() <==> d == e
  {
    NamesReadBack(d, Create);
    NamesReadBack(e, Create);
  }
}

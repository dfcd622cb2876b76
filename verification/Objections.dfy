/** The objection machine: what becomes of the stored objection after a turn
    (agent/objections.py). */
module Objections {
  import opened Commercial
  import opened Evidence
  import opened Leads
  import opened TurnNormalizer
  import opened Planner
  import opened Stages

  const MARGIN: set<char> := {' ', '|'}

  /** `_append_evidence` */
  function AppendEvidence(log: string, message: string): string {
    if message == "" || Infix(message, log) then log else Strip(log + " | " + message, MARGIN)
  }

  /** `_resolves_current_objection` */
  predicate Resolves(o: Objection, a: Analysis, p: Plan) {
    && o.active && !o.resolved && !a.HasObjection() && a.relation == ResolvedRelation
    && (p.macro != HandleObjection || LeavesFlow(p.step))
  }

  /** `_starts_or_replaces_objection` */
  predicate StartsOrReplaces(o: Objection, a: Analysis, p: Plan) {
    && a.NewHard()
    && (!o.active || o.resolved || a.objectionType != o.type_ || p.step == ThankAndAsk)
  }

  function NextTurn(o: Objection): nat { o.lastUpdated + 1 }

  function Resolved(o: Objection, message: string): Objection {
    o.(step := ResolvedStep, lastUpdated := NextTurn(o), paused := false, pausedReason := NoReason, resolved := true,
       active := false, status := ResolvedStatus, relation := ResolvedRelation,
       resolvedReason := SemanticResolution, evidence := AppendEvidence(o.evidence, message))
  }

  function HandledInline(o: Objection, message: string): Objection {
    o.(active := false, resolved := true, status := ResolvedStatus, relation := ResolvedRelation,
       resolvedReason := SoftConcernHandledInline, evidence := AppendEvidence(o.evidence, message))
  }

  function Paused(o: Objection, a: Analysis, message: string): Objection {
    o.(paused := true, pausedReason := CurrentIntentAnswered, status := PausedStatus,
       relation := RelationOr(a, Unrelated), lastUpdated := NextTurn(o),
       evidence := AppendEvidence(o.evidence, message))
  }

  function Started(o: Objection, a: Analysis, p: Plan, move: StageMove, message: string): Objection {
    Objection(true, a.objectionType, a.objectionStrength, ActiveStatus, NewRelation, p.step,
              NextTurn(o), NextTurn(o), Some(OrDiscovery(move.before, move.previous)), message, false, false,
              NoReason, NoReason)
  }

  function Continued(o: Objection, a: Analysis, p: Plan, message: string): Objection {
    var done := LeavesFlow(p.step);
    o.(step := p.step, lastUpdated := NextTurn(o), paused := false, pausedReason := NoReason,
       resolved := done, active := !done, status := if done then ResolvedStatus else ActiveStatus,
       relation := if done then ResolvedRelation else RelationOr(a, Continuation),
       resolvedReason := if done then FlowCompleted else o.resolvedReason,
       evidence := AppendEvidence(o.evidence, message))
  }

  /** `ObjectionFlowService.transition`, as one expression. */
  function NextObjection(o: Objection, a: Analysis, p: Plan, move: StageMove, message: string): Objection {
    if Resolves(o, a, p) then Resolved(o, message)
    else if p.macro != HandleObjection then
      if o.active && !o.resolved then if o.strength != Hard then HandledInline(o, message) else Paused(o, a, message)
      else NO_OBJECTION
    else if StartsOrReplaces(o, a, p) then Started(o, a, p, move, message)
    else if o.active && !o.resolved then Continued(o, a, p, message)
    else NO_OBJECTION
  }

  /** The objection as the service works on it: what it is about stays, the rest
      is overwritten in place. */
  class ActiveObjection {
    const type_: ObjectionType
    const strength: ObjectionStrength
    const started: nat
    const stageBefore: Option<Stage>
    var active: bool
    var status: ObjectionStatus
    var relation: ObjectionRelation
    var step: FlowStep
    var lastUpdated: nat
    var evidence: string
    var resolved: bool
    var paused: bool
    var pausedReason: Reason
    var resolvedReason: Reason

    constructor (o: Objection)
      ensures Value() == o
    {
      type_, strength, started, stageBefore := o.type_, o.strength, o.started, o.stageBefore;
      active, status, relation, step := o.active, o.status, o.relation, o.step;
      lastUpdated, evidence, resolved, paused := o.lastUpdated, o.evidence, o.resolved, o.paused;
      pausedReason, resolvedReason := o.pausedReason, o.resolvedReason;
    }

    function Value(): Objection
      reads this
    {
      Objection(active, type_, strength, status, relation, step, started, lastUpdated, stageBefore,
                evidence, resolved, paused, pausedReason, resolvedReason)
    }

    method CloseAs(reason: Reason, message: string)
      modifies this
      ensures Value() == old(Value()).(
                active := false, resolved := true, status := ResolvedStatus, relation := ResolvedRelation,
                resolvedReason := reason, evidence := AppendEvidence(old(evidence), message))
    {
      active := false;
      resolved := true;
      status := ResolvedStatus;
      relation := ResolvedRelation;
      resolvedReason := reason;
      evidence := AppendEvidence(evidence, message);
    }

    method Settle(message: string)
      modifies this
      ensures Value() == Resolved(old(Value()), message)
    {
      step := ResolvedStep;
      lastUpdated := lastUpdated + 1;
      paused := false;
      pausedReason := NoReason;
      CloseAs(SemanticResolution, message);
    }

    method HandleInline(message: string)
      modifies this
      ensures Value() == HandledInline(old(Value()), message)
    {
      CloseAs(SoftConcernHandledInline, message);
    }

    method Pause(a: Analysis, message: string)
      modifies this
      ensures Value() == Paused(old(Value()), a, message)
    {
      paused := true;
      pausedReason := CurrentIntentAnswered;
      status := PausedStatus;
      relation := RelationOr(a, Unrelated);
      lastUpdated := lastUpdated + 1;
      evidence := AppendEvidence(evidence, message);
    }

    method Continue(a: Analysis, p: Plan, message: string)
      modifies this
      ensures Value() == Continued(old(Value()), a, p, message)
    {
      var done := LeavesFlow(p.step);
      step := p.step;
      lastUpdated := lastUpdated + 1;
      paused := false;
      pausedReason := NoReason;
      resolved := done;
      active := !done;
      status := if done then ResolvedStatus else ActiveStatus;
      relation := RelationOr(a, Continuation);
      if done {
        resolvedReason := FlowCompleted;
        relation := ResolvedRelation;
      }
      evidence := AppendEvidence(evidence, message);
    }

    /** Returns this object, overwritten, or a new one; what it is worth is the
        value `NextObjection` describes. */
    method Transition(a: Analysis, p: Plan, move: StageMove, message: string) returns (next: ActiveObjection)
      modifies this
      ensures next == this || fresh(next)
      ensures next.Value() == NextObjection(old(Value()), a, p, move, message)
    {
      if Resolves(Value(), a, p) {
        Settle(message);
        return this;
      }
      if p.macro != HandleObjection {
        if active && !resolved {
          if strength != Hard {
            HandleInline(message);
          } else {
            Pause(a, message);
          }
          return this;
        }
        next := new ActiveObjection(NO_OBJECTION);
        return;
      }
      if StartsOrReplaces(Value(), a, p) {
        next := new ActiveObjection(Started(Value(), a, p, move, message));
        return;
      }
      if active && !resolved {
        Continue(a, p, message);
        return this;
      }
      next := new ActiveObjection(NO_OBJECTION);
    }
  }

  // ---------- the fate of an objection in one turn ----------

  /** A turn that closes a blocking objection: its relation is RESOLVED, and it
      raises no objection of its own, or raises the same one again in a turn
      that asks for no handover. */
  predicate Closes(s: PlannerState) {
    && s.Analysis().relation == ResolvedRelation
    && (!s.Analysis().HasObjection() || (InSale(s) && s.Analysis().objectionType == s.Objection().type_))
  }

  /** A turn that puts another hard objection in its place. */
  predicate Supersedes(s: PlannerState) {
    InSale(s) && s.Analysis().NewHard() && s.Analysis().objectionType != s.Objection().type_
  }

  /** The same objection, still blocking, one turn later. */
  ghost predicate Endures(o: Objection, next: Objection) {
    && Blocks(next) && next.type_ == o.type_ && next.started == o.started
    && next.stageBefore == o.stageBefore && next.lastUpdated == o.lastUpdated + 1
  }

  /** What a turn makes of a stored objection that blocks: exactly one of three
      things. No other branch, pause or soft concern can drop it. */
  ghost predicate Fate(s: PlannerState, p: Plan, next: Objection) {
    var o := s.Objection();
    if Closes(s) then next.resolved && !next.active && next.type_ == o.type_
    else if Supersedes(s) then
      Blocks(next) && next.type_ == s.Analysis().objectionType && next.started == o.lastUpdated + 1
    else Endures(o, next) && (next.paused <==> p.macro != HandleObjection)
  }

  /** The step a sound open objection moves to never restarts the flow, and
      leaves it only when the turn resolves the objection. */
  lemma NextStepMoves(s: PlannerState)
    requires SoundObjection(s.Objection()) && s.Objection().active
    ensures var step := NextObjectionStep(s);
            && step != ThankAndAsk && step != NoStep
            && (LeavesFlow(step) <==> s.Analysis().relation == ResolvedRelation)
  {
  }

  lemma BlockingObjectionHasThreeFates(s: PlannerState, p: Plan, move: StageMove, message: string, next: Objection)
    requires SoundObjection(s.Objection()) && Blocks(s.Objection()) && Sound(s, p)
    requires next == NextObjection(s.Objection(), s.Analysis(), p, move, message)
    ensures Fate(s, p, next)
  {
    NextStepMoves(s);
  }

  /** With nothing blocking, an objection is opened by a hard objection in a turn
      that asks for no handover, and by nothing else. */
  lemma OnlyHardObjectionsOpen(s: PlannerState, p: Plan, move: StageMove, message: string, next: Objection)
    requires SoundObjection(s.Objection()) && !Blocks(s.Objection()) && Sound(s, p)
    requires next == NextObjection(s.Objection(), s.Analysis(), p, move, message)
    ensures if InSale(s) && s.Analysis().NewHard()
            then Blocks(next) && next.type_ == s.Analysis().objectionType && next.started == NextTurn(s.Objection())
            else next == NO_OBJECTION
  {
  }

  /** The invariant of stored objections is kept by every planned turn. */
  lemma ObjectionStaysSound(s: PlannerState, p: Plan, move: StageMove, message: string, next: Objection)
    requires SoundObjection(s.Objection()) && Sound(s, p)
    requires next == NextObjection(s.Objection(), s.Analysis(), p, move, message)
    ensures SoundObjection(next)
    ensures s.Objection().active ==> next.lastUpdated == s.Objection().lastUpdated + 1
  {
    if s.Objection().active {
      NextStepMoves(s);
    }
  }

  // ---------- three views of the same fact ----------

  ghost predicate BlockingView(p: Plan) { p.overlay.Some? && p.overlay.value.blockingClose }

  /** A hard objection raised while nothing blocks, in a turn that hands over. */
  ghost predicate RaisedWhileLeaving(s: PlannerState) {
    !Blocks(s.Objection()) && s.Analysis().NewHard() && !InSale(s)
  }

  /** The open objection, raised again as hard and called resolved in one turn. */
  ghost predicate RaisedAndResolved(s: PlannerState) {
    && Blocks(s.Objection()) && s.Analysis().NewHard() && InSale(s)
    && s.Analysis().objectionType == s.Objection().type_ && s.Analysis().relation == ResolvedRelation
  }

  /** The stage machine's mode and the planner's overlay always agree. */
  lemma ModeFollowsOverlay(s: PlannerState, p: Plan)
    requires SoundObjection(s.Objection()) && Sound(s, p)
    ensures Mode(s.lead, p) == HandlingObjection <==> BlockingView(p)
  {
  }

  /** Both agree with the stored objection, but in two situations; in those the
      turn still blocks while nothing is left open. */
  lemma OverlayFollowsObjection(s: PlannerState, p: Plan, move: StageMove, message: string, next: Objection)
    requires SoundObjection(s.Objection()) && Sound(s, p)
    requires next == NextObjection(s.Objection(), s.Analysis(), p, move, message)
    ensures (BlockingView(p) <==> Blocks(next)) <==> !RaisedWhileLeaving(s) && !RaisedAndResolved(s)
    ensures Blocks(next) ==> BlockingView(p)
  {
    if Blocks(s.Objection()) {
      BlockingObjectionHasThreeFates(s, p, move, message, next);
    } else {
      OnlyHardObjectionsOpen(s, p, move, message, next);
    }
  }

  // ---------- the evidence log ----------

  /** A text is on the log when it occurs there without its margins. */
  predicate Logged(text: string, log: string) {
    Infix(Strip(text, MARGIN), log)
  }

  predicate Firm(core: string) {
    core != "" && core[0] !in MARGIN && core[|core| - 1] !in MARGIN
  }

  lemma StripKeepsFirm(core: string, text: string)
    requires Firm(core) && Infix(core, text)
    ensures Infix(core, Strip(text, MARGIN))
  {
    var k :| 0 <= k <= |text| && OccursAt(core, text, k);
    var r, i, j := Strip(text, MARGIN), Head(text, MARGIN), Tail(text, MARGIN);
    HeadFacts(text, MARGIN);
    TailFacts(text, MARGIN);
    assert text[k] == text[k..k + |core|][0] == core[0];
    assert text[k + |core| - 1] == text[k..k + |core|][|core| - 1] == core[|core| - 1];
    assert i <= k;
    assert k + |core| <= j;
    SliceOfSlice(text, i, j, k, k + |core|);
    assert OccursAt(core, r, k - i);
  }

  lemma SliceOfSlice(text: string, i: nat, j: nat, a: nat, b: nat)
    requires i <= a <= b <= j <= |text|
    ensures text[i..j][a - i..b - i] == text[a..b]
  {
    var inner := text[i..j][a - i..b - i];
    assert |inner| == |text[a..b]|;
    forall x | 0 <= x < |inner| ensures inner[x] == text[a..b][x] {
      assert inner[x] == text[i..j][a - i + x] == text[a + x];
    }
  }

  lemma InfixOfSum(core: string, a: string, b: string, c: string)
    requires Infix(core, a) || Infix(core, c)
    ensures Infix(core, a + b + c)
  {
    var all := a + b + c;
    if Infix(core, a) {
      var k :| 0 <= k <= |a| && OccursAt(core, a, k);
      assert all[k..k + |core|] == a[k..k + |core|];
      assert OccursAt(core, all, k);
    } else {
      var k :| 0 <= k <= |c| && OccursAt(core, c, k);
      var at := |a| + |b| + k;
      assert all[at..at + |core|] == c[k..k + |core|];
      assert OccursAt(core, all, at);
    }
  }

  lemma StrippedOccurs(text: string)
    ensures Infix(Strip(text, MARGIN), text)
  {
    StripFacts(text, MARGIN);
    var r, i := Strip(text, MARGIN), Head(text, MARGIN);
    if r == "" {
      assert OccursAt(r, text, 0);
    } else {
      assert OccursAt(r, text, i);
    }
  }

  /** The log loses nothing: the new message is on it, and so is everything that
      was on it before. */
  lemma EvidenceAccumulates(log: string, message: string, text: string)
    ensures Logged(message, AppendEvidence(log, message))
    ensures Logged(text, log) ==> Logged(text, AppendEvidence(log, message))
  {
    var sum := log + " | " + message;
    StrippedOccurs(message);
    StripFacts(message, MARGIN);
    StripFacts(text, MARGIN);
    if message == "" {
      assert OccursAt("", log, 0);
    } else if Infix(message, log) {
      InfixTransitive(Strip(message, MARGIN), message, log);
    } else {
      LoggedInSum(message, log, message);
      if Logged(text, log) {
        LoggedInSum(text, log, message);
      }
    }
  }

  lemma LoggedInSum(text: string, log: string, message: string)
    requires Logged(text, log) || Logged(text, message)
    ensures Logged(text, Strip(log + " | " + message, MARGIN))
  {
    var core := Strip(text, MARGIN);
    StripFacts(text, MARGIN);
    if core == "" {
      assert OccursAt(core, Strip(log + " | " + message, MARGIN), 0);
    } else {
      InfixOfSum(core, log, " | ", message);
      StripKeepsFirm(core, log + " | " + message);
    }
  }
}

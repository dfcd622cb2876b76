/** The stage machine: where a plan takes the sale (agent/stages.py). */
module Stages {
  import opened Commercial
  import opened Leads
  import opened Planner

  /** ALLOWED_TRANSITIONS */
  predicate Edge(from: Stage, to: Stage) {
    match from
    case New => to in {Discovery, Educating, Qualified, Comparing, SolutionRecommended, UnknownRecovery}
    case Discovery => to in {Discovery, Educating, Qualified, Comparing, SolutionRecommended, UnknownRecovery}
    case Educating =>
      to in {Discovery, Educating, Qualified, Comparing, SolutionRecommended, ReadyToStart, UnknownRecovery}
    case Comparing =>
      to in {Discovery, Educating, Comparing, Qualified, SolutionRecommended, ReadyToStart, UnknownRecovery}
    case Qualified =>
      to in {Discovery, Educating, Comparing, Qualified, SolutionRecommended, ReadyToStart, UnknownRecovery}
    case SolutionRecommended =>
      to in {Discovery, Educating, Comparing, SolutionRecommended, ReadyToStart, UnknownRecovery}
    case ReadyToStart => to in {Discovery, Educating, ReadyToStart, Closing, UnknownRecovery}
    case Closing => to in {Closing, PostPurchase, Handoff, UnknownRecovery}
    case PostPurchase => to in {PostPurchase, Handoff}
    case Handoff => to == Handoff
    case UnknownRecovery => to in {UnknownRecovery, Discovery, Educating}
    case ObjectionHandling => false
  }

  /** `normalize_stage` */
  function NormalizeStage(value: StoredStage, default_: Stage): Stage {
    match value
    case Blank => default_
    case Stored(stage) => if stage == ObjectionHandling then default_ else stage
    case LegacyRecommended => SolutionRecommended
    case LegacyUnknown => UnknownRecovery
    case Unrecognised(_) => UnknownRecovery
  }

  /** `normalize_optional_stage` */
  function NormalizeOptional(value: StoredStage): Option<Stage> {
    if value == Blank then None else Some(NormalizeStage(value, New))
  }

  function OrDiscovery(a: Option<Stage>, b: Option<Stage>): Stage {
    if a.Some? then a.value else if b.Some? then b.value else Discovery
  }

  /** `is_transition_allowed` */
  predicate Allowed(from: Stage, to: Stage, macro: MacroAction) {
    if from == to then true
    else if to == ObjectionHandling || from == ObjectionHandling then false
    else if to == Closing then macro == DirectClose
    else if to == Handoff then macro == HandoffToMiguel
    else Edge(from, to)
  }

  predicate LeavesFlow(step: FlowStep) {
    step == ResolvedStep || step == CloseOrContinue
  }

  datatype StageMove = StageMove(
    current: Stage, previous: Option<Stage>, before: Option<Stage>, mode: ConversationMode,
    changed: bool, invalid: bool)

  /** The stage a stored lead is at: one stored as handling an objection is at
      the stage the objection interrupted. */
  function StageOf(lead: Lead): Stage {
    if lead.currentStage == Stored(ObjectionHandling) then
      OrDiscovery(NormalizeOptional(lead.stageBefore), NormalizeOptional(lead.previousStage))
    else NormalizeStage(lead.currentStage, New)
  }

  /** `_conversation_mode` */
  function Mode(lead: Lead, p: Plan): ConversationMode {
    if p.overlay.Some? && p.overlay.value.status == ResolvedStatus then NormalMode
    else if p.overlay.Some? && p.overlay.value.mode == HandlingObjection then HandlingObjection
    else if p.macro == HandleObjection && !LeavesFlow(p.step) then HandlingObjection
    else if Blocks(lead.objection) then HandlingObjection
    else NormalMode
  }

  /** `SalesStageTransitionService.transition`, as one expression. */
  function Move(lead: Lead, p: Plan): StageMove {
    var from := StageOf(lead);
    var before := NormalizeOptional(lead.stageBefore);
    var target := if p.target == ObjectionHandling
                  then OrDiscovery(before, Either(NormalizeOptional(lead.previousStage), Some(from)))
                  else p.target;
    var ok := Allowed(from, target, p.macro);
    var next := if ok then target else from;
    StageMove(
      next,
      if next != from then Some(from) else NormalizeOptional(lead.previousStage),
      if p.macro == HandleObjection && !LeavesFlow(p.step) && before.None? then Some(from) else before,
      Mode(lead, p), next != from, !ok)
  }

  /** The same, the way the service computes it: by rebinding its locals. */
  method Transition(lead: Lead, p: Plan) returns (move: StageMove)
    ensures move == Move(lead, p)
  {
    var previous := NormalizeOptional(lead.previousStage);
    var before := NormalizeOptional(lead.stageBefore);
    var current := NormalizeStage(lead.currentStage, New);
    if lead.currentStage == Stored(ObjectionHandling) {
      current := OrDiscovery(before, previous);
    }
    var target := p.target;
    if target == ObjectionHandling {
      target := OrDiscovery(before, Either(previous, Some(current)));
    }
    var allowed := Allowed(current, target, p.macro);
    var next := if allowed then target else current;
    if p.macro == HandleObjection && !LeavesFlow(p.step) && before.None? {
      before := Some(current);
    }
    if next != current {
      previous := Some(current);
    }
    var mode := Mode(lead, p);
    return StageMove(next, previous, before, mode, next != current, !allowed);
  }

  // ---------- what a move can do ----------

  /** No move ends in the stage of handling an objection or leaves a trace of it,
      whatever is stored: not in any of the three stage fields. */
  lemma NoMoveStoresObjectionHandling(lead: Lead, p: Plan)
    ensures var m := Move(lead, p);
            m.current != ObjectionHandling && m.previous != Some(ObjectionHandling)
            && m.before != Some(ObjectionHandling)
  {
  }

  /** Every change of stage is an edge of the table, a close or a handover; and a
      lead is closed or handed over by such a plan only. */
  lemma ChangesFollowTheTable(lead: Lead, p: Plan)
    ensures var m := Move(lead, p);
            && (m.changed <==> m.current != StageOf(lead))
            && (m.changed ==>
                  && m.previous == Some(StageOf(lead))
                  && (m.current == Closing ==> p.macro == DirectClose)
                  && (m.current == Handoff ==> p.macro == HandoffToMiguel)
                  && (m.current != Closing && m.current != Handoff ==> Edge(StageOf(lead), m.current))
                  && m.current != New)
            && (m.invalid ==> !m.changed)
  {
    NoMoveStoresObjectionHandling(lead, p);
  }
}

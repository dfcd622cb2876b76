/** Where the sale can be, over whole conversations. */
module StageSafety {
  import opened Commercial
  import opened Evidence
  import opened Leads
  import opened TurnNormalizer
  import opened Planner
  import opened Stages
  import opened Objections
  import opened Engine
  import opened Runs
  import opened Conversations

  // ---------- what is stored ----------

  /** A stage field the current engine can have written. */
  predicate Current(s: StoredStage) {
    s == Blank || (s.Stored? && s.stage != ObjectionHandling)
  }

  /** The stored objection goes on, open or settled: it is open, and the turn puts
      no new one in its place. */
  predicate CarriesOver(o: Objection, a: Analysis, p: Plan) {
    o.active && !o.resolved && !(p.macro == HandleObjection && StartsOrReplaces(o, a, p))
  }

  /** From any stored lead, legacy values included: after one turn none of the
      three stage fields of the lead holds the objection stage or a name of the
      first version. The stage remembered inside the objection is cleaned only
      with the objection: exactly one carried over keeps the objection stage. */
  lemma OneTurnCleansTheStages(s: PlannerState, p: Plan, message: string)
    ensures var after := RecordOf(s, p, message).after;
            && Current(after.currentStage) && after.currentStage != Blank
            && Current(after.previousStage) && Current(after.stageBefore)
            && (after.objection.stageBefore == Some(ObjectionHandling) <==>
                  s.Objection().stageBefore == Some(ObjectionHandling) && CarriesOver(s.Objection(), s.Analysis(), p))
  {
    NoMoveStoresObjectionHandling(s.lead, p);
    MemoryOfTheObjection(s.Objection(), s.Analysis(), p, Move(s.lead, p), message);
  }

  lemma MemoryOfTheObjection(o: Objection, a: Analysis, p: Plan, move: StageMove, message: string)
    requires move.before != Some(ObjectionHandling) && move.previous != Some(ObjectionHandling)
    ensures NextObjection(o, a, p, move, message).stageBefore ==
            if CarriesOver(o, a, p) then o.stageBefore
            else if p.macro == HandleObjection && StartsOrReplaces(o, a, p)
                 then Some(OrDiscovery(move.before, move.previous))
            else None
  {
  }

  // ---------- which changes can happen ----------

  /** The changes of stage a turn can make. */
  ghost predicate LegalChange(from: Stage, to: Stage, macro: MacroAction) {
    || to == from
    || (to == Closing && macro == DirectClose)
    || (to == Handoff && macro == HandoffToMiguel)
    || (to != Closing && to != Handoff && to != New && Edge(from, to))
  }

  /** In every turn: closing is entered on a close and a handover by a handover
      plan, new is never entered again, and everything else is an edge of the
      table; a lead handed over leaves that stage by a close only. */
  lemma EveryChangeIsLegal(s: PlannerState, p: Plan, message: string)
    ensures var r := RecordOf(s, p, message);
            && r.after.currentStage == Stored(r.move.current)
            && LegalChange(StageOf(s.lead), r.move.current, p.macro)
            && (StageOf(s.lead) == Handoff && r.move.current != Handoff ==>
                  r.move.current == Closing && p.macro == DirectClose)
  {
    ChangesFollowTheTable(s.lead, p);
  }

  // ---------- what a fresh lead never reaches ----------

  /** Neither the stage after a purchase nor a foreign name anywhere. */
  predicate BeforePurchase(l: Lead) {
    && l.currentStage.Stored? && Current(l.currentStage) && l.currentStage != Stored(PostPurchase)
    && Current(l.previousStage) && l.previousStage != Stored(PostPurchase)
    && Current(l.stageBefore) && l.stageBefore != Stored(PostPurchase)
    && l.objection.stageBefore != Some(PostPurchase) && l.objection.stageBefore != Some(ObjectionHandling)
  }

  lemma FreshIsBeforePurchase()
    ensures BeforePurchase(FRESH)
  {
  }

  lemma PlansStayBeforePurchase(s: PlannerState, p: Plan)
    requires Sound(s, p) && BeforePurchase(s.lead)
    ensures p.target != PostPurchase && p.target != ObjectionHandling
  {
    assert CommercialStage(s) != PostPurchase by {
      var before := if s.Objection().stageBefore.Some? then Stored(s.Objection().stageBefore.value) else Blank;
      assert FirstStage([before, s.lead.currentStage, s.lead.previousStage]) ==
             if before != Blank then before else s.lead.currentStage;
    }
  }

  lemma MoveStaysBeforePurchase(lead: Lead, p: Plan)
    requires BeforePurchase(lead) && p.target != PostPurchase && p.target != ObjectionHandling
    ensures var m := Move(lead, p);
            && m.current != PostPurchase && m.current != ObjectionHandling
            && m.previous != Some(PostPurchase) && m.previous != Some(ObjectionHandling)
            && m.before != Some(PostPurchase) && m.before != Some(ObjectionHandling)
  {
  }

  lemma ObjectionStaysBeforePurchase(o: Objection, a: Analysis, p: Plan, move: StageMove, message: string)
    requires o.stageBefore != Some(PostPurchase) && o.stageBefore != Some(ObjectionHandling)
    requires move.previous != Some(PostPurchase) && move.previous != Some(ObjectionHandling)
    requires move.before != Some(PostPurchase) && move.before != Some(ObjectionHandling)
    ensures var next := NextObjection(o, a, p, move, message);
            next.stageBefore != Some(PostPurchase) && next.stageBefore != Some(ObjectionHandling)
  {
  }

  lemma TurnStaysBeforePurchase(policy: SalesPolicy, norm: Normalizer, lead: Lead, input: TurnInput, r: TurnRecord)
    requires Keeps(policy) && BeforePurchase(lead) && r == TakeTurn(policy, norm, lead, input)
    ensures BeforePurchase(r.after)
  {
    StateLearns(norm, lead, input, r.state);
    PlansStayBeforePurchase(r.state, r.plan);
    MoveStaysBeforePurchase(r.state.lead, r.plan);
    ObjectionStaysBeforePurchase(lead.objection, r.state.Analysis(), r.plan, r.move, input.message);
  }

  /** From a fresh lead the stage after a purchase is never reached, nor stored in
      any field. */
  lemma PostPurchaseIsUnreachable(policy: SalesPolicy, norm: Normalizer, start: Lead, inputs: seq<TurnInput>)
    requires Keeps(policy) && BeforePurchase(start)
    ensures BeforePurchase(Converse(policy, norm, start, inputs))
  {
    forall l, input | BeforePurchase(l) ensures BeforePurchase(TurnStep(policy, norm)(l, input)) {
      TurnStaysBeforePurchase(policy, norm, l, input, TakeTurn(policy, norm, l, input));
    }
    RunKeeps(TurnStep(policy, norm), start, inputs, l => BeforePurchase(l), _ => true);
  }

  // ---------- handling an objection does not move the sale ----------

  /** The sale is at `stage`, and no other stage is remembered from an earlier
      objection. */
  predicate Anchored(l: Lead, stage: Stage) {
    && l.currentStage == Stored(stage) && stage != ObjectionHandling
    && (l.stageBefore == Blank || l.stageBefore == Stored(stage))
    && (l.objection.stageBefore == None || l.objection.stageBefore == Some(stage))
  }

  /** Exactly when a turn that handles an objection moves the sale: when the
      stage remembered by the objection is another one and the table leads there. */
  lemma WhenHandlingMovesTheSale(s: PlannerState, p: Plan, stage: Stage)
    requires Sound(s, p) && p.macro == HandleObjection
    requires s.lead.currentStage == Stored(stage) && stage != ObjectionHandling
    requires s.Objection().stageBefore != Some(ObjectionHandling)
    ensures var remembered := s.Objection().stageBefore;
            Move(s.lead, p).current != stage <==>
              remembered.Some? && remembered.value != stage && Allowed(stage, remembered.value, HandleObjection)
  {
    var before := if s.Objection().stageBefore.Some? then Stored(s.Objection().stageBefore.value) else Blank;
    assert FirstStage([before, s.lead.currentStage, s.lead.previousStage]) ==
           if before != Blank then before else s.lead.currentStage;
  }

  lemma EnduringKeepsAnchor(s: PlannerState, p: Plan, move: StageMove, message: string, next: Objection)
    requires Sound(s, p) && SoundObjection(s.Objection()) && Blocks(s.Objection()) && !Supersedes(s)
    requires next == NextObjection(s.Objection(), s.Analysis(), p, move, message)
    ensures next.stageBefore == s.Objection().stageBefore
  {
    BlockingObjectionHasThreeFates(s, p, move, message, next);
  }

  lemma AnchoredMemory(s: PlannerState, p: Plan, message: string, stage: Stage, move: StageMove, next: Objection)
    requires Sound(s, p) && SoundObjection(s.Objection()) && Anchored(s.lead, stage)
    requires move == Move(s.lead, p) && next == NextObjection(s.Objection(), s.Analysis(), p, move, message)
    requires p.macro == HandleObjection
    ensures next.stageBefore == None || next.stageBefore == Some(stage)
  {
    if !Blocks(s.Objection()) {
      OnlyHardObjectionsOpen(s, p, move, message, next);
    } else if !Supersedes(s) {
      EnduringKeepsAnchor(s, p, move, message, next);
    }
  }

  lemma AnchoredTurn(s: PlannerState, p: Plan, message: string, stage: Stage)
    requires Sound(s, p) && SoundObjection(s.Objection()) && Anchored(s.lead, stage) && p.macro == HandleObjection
    ensures Anchored(RecordOf(s, p, message).after, stage)
  {
    var r := RecordOf(s, p, message);
    WhenHandlingMovesTheSale(s, p, stage);
    AnchoredMemory(s, p, message, stage, r.move, r.after.objection);
  }

  predicate Handles(policy: SalesPolicy, norm: Normalizer, lead: Lead, input: TurnInput) {
    policy(StateOf(norm, lead, input)).macro == HandleObjection
  }

  lemma HandlingTurnKeepsAnchor(policy: SalesPolicy, norm: Normalizer, lead: Lead, input: TurnInput,
                                after: Lead, stage: Stage)
    requires Keeps(policy) && after == TakeTurn(policy, norm, lead, input).after
    requires SoundLead(lead) && Anchored(lead, stage) && Handles(policy, norm, lead, input)
    ensures SoundLead(after) && Anchored(after, stage)
  {
    var s := StateOf(norm, lead, input);
    TurnKeepsSoundLead(policy, norm, lead, input, TakeTurn(policy, norm, lead, input));
    StateLearns(norm, lead, input, s);
    AnchoredTurn(s, policy(s), input.message, stage);
  }

  /** For a lead whose stage is a valid one and who has no other stage remembered,
      any number of consecutive turns that handle objections, the same or new
      ones, leave the stage where it is. */
  lemma HandlingObjectionsDoesNotMoveTheSale(policy: SalesPolicy, norm: Normalizer, start: Lead,
                                             inputs: seq<TurnInput>, stage: Stage)
    requires Keeps(policy) && SoundLead(start) && Anchored(start, stage)
    requires Throughout(TurnStep(policy, norm), start, inputs, (l, input) => Handles(policy, norm, l, input))
    ensures Converse(policy, norm, start, inputs).currentStage == Stored(stage)
  {
    var step := TurnStep(policy, norm);
    forall l, input | SoundLead(l) && Anchored(l, stage) && Handles(policy, norm, l, input)
      ensures SoundLead(step(l, input)) && Anchored(step(l, input), stage)
    {
      HandlingTurnKeepsAnchor(policy, norm, l, input, step(l, input), stage);
    }
    RunKeepsWhile(step, start, inputs, l => SoundLead(l) && Anchored(l, stage),
                  (l, input) => Handles(policy, norm, l, input));
  }

  /** What an open or past objection remembers, the lead remembers too. */
  predicate RemembersTogether(l: Lead) {
    l.stageBefore == Blank ==> l.objection.stageBefore.None?
  }

  lemma TurnRemembersTogether(s: PlannerState, p: Plan, message: string)
    requires Sound(s, p) && SoundObjection(s.Objection()) && RemembersTogether(s.lead)
    ensures RemembersTogether(RecordOf(s, p, message).after)
  {
    var move := Move(s.lead, p);
    var next := NextObjection(s.Objection(), s.Analysis(), p, move, message);
    if !Blocks(s.Objection()) {
      OnlyHardObjectionsOpen(s, p, move, message, next);
    } else if !Supersedes(s) {
      EnduringKeepsAnchor(s, p, move, message, next);
    }
  }

  lemma TakenTurnRemembersTogether(policy: SalesPolicy, norm: Normalizer, lead: Lead, input: TurnInput, r: TurnRecord)
    requires Keeps(policy) && SoundLead(lead) && RemembersTogether(lead) && r == TakeTurn(policy, norm, lead, input)
    ensures SoundLead(r.after) && RemembersTogether(r.after)
  {
    TurnKeepsSoundLead(policy, norm, lead, input, r);
    StateLearns(norm, lead, input, r.state);
    TurnRemembersTogether(r.state, r.plan, input.message);
  }

  /** On every run from a fresh lead a blank memory of the lead means that there
      is nothing to remember, so that `Anchored` is a matter of the lead's own
      two stage fields. */
  lemma RunRemembersTogether(policy: SalesPolicy, norm: Normalizer, start: Lead, inputs: seq<TurnInput>)
    requires Keeps(policy) && SoundLead(start) && RemembersTogether(start)
    ensures var l := Converse(policy, norm, start, inputs);
            l.stageBefore == Blank && l.currentStage.Stored? && l.currentStage.stage != ObjectionHandling ==>
              Anchored(l, l.currentStage.stage)
  {
    var step := TurnStep(policy, norm);
    forall l, input | SoundLead(l) && RemembersTogether(l)
      ensures SoundLead(step(l, input)) && RemembersTogether(step(l, input))
    {
      TakenTurnRemembersTogether(policy, norm, l, input, TakeTurn(policy, norm, l, input));
    }
    RunKeeps(step, start, inputs, l => SoundLead(l) && RemembersTogether(l), _ => true);
  }

  /** The stage remembered by an earlier objection is never cleared, and without
      the condition above it does move the sale: the turn that opens a new
      objection remembers the old stage, and the next turn that handles it goes
      back there wherever the table allows. */
  lemma StaleMemoryMovesTheSale(s: PlannerState, p: Plan, message: string, t: PlannerState, q: Plan,
                                stage: Stage, stale: Stage)
    requires Sound(s, p) && SoundObjection(s.Objection()) && p.macro == HandleObjection
    requires !Blocks(s.Objection()) && s.Objection().stageBefore == None
    requires s.lead.currentStage == Stored(stage) && s.lead.stageBefore == Stored(stale)
    requires stage != ObjectionHandling && stale != ObjectionHandling && stage != stale
    requires Allowed(stage, stale, HandleObjection)
    requires Sound(t, q) && q.macro == HandleObjection
    requires var after := RecordOf(s, p, message).after;
             t.lead.currentStage == after.currentStage && t.lead.objection == after.objection
    ensures Move(s.lead, p).current == stage && Move(t.lead, q).current == stale
  {
    var move := Move(s.lead, p);
    var next := NextObjection(s.Objection(), s.Analysis(), p, move, message);
    WhenHandlingMovesTheSale(s, p, stage);
    OnlyHardObjectionsOpen(s, p, move, message, next);
    assert next.stageBefore == Some(stale);
    WhenHandlingMovesTheSale(t, q, stage);
    assert q.target == CommercialStage(t);
    var before := Stored(stale);
    assert FirstStage([before, t.lead.currentStage, t.lead.previousStage]) == before;
  }
}

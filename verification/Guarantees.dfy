/** The guarantees of the engine itself: its own planner, from a fresh lead, over
    conversations of any length and any content. */
module Guarantees {
  import opened Commercial
  import opened Evidence
  import opened Observations
  import Requirements
  import opened Leads
  import opened TurnNormalizer
  import opened Planner
  import opened Objections
  import opened Engine
  import opened Conversations
  import opened CloseSafety
  import opened StageSafety
  import opened Promises

  /** The engine as it runs: its own planner, and a lead it has never seen. */
  predicate Fresh(start: Lead) { start == FRESH }

  ghost predicate OwnPlanner(policy: SalesPolicy) { policy == PlanFor }

  lemma FreshStart(start: Lead)
    requires Fresh(start)
    ensures SoundLead(start) && Undecided(start) && BeforePurchase(start) && RemembersTogether(start)
    ensures Requirements.Invariant(start.profile.ledger)
  {
    FreshIsSound();
    FreshIsBeforePurchase();
  }

  /** Everything stored about a reached lead is in order: its objection, its
      ledger, its stage fields. */
  lemma ReachedLeadsAreSound(policy: SalesPolicy, norm: Normalizer, inputs: seq<TurnInput>, start: Lead)
    requires OwnPlanner(policy) && Fresh(start)
    ensures var lead := Converse(policy, norm, start, inputs); SoundLead(lead) && BeforePurchase(lead)
  {
    ThePlannerKeeps();
    FreshStart(start);
    RunKeepsSoundLead(policy, norm, start, inputs);
    PostPurchaseIsUnreachable(policy, norm, start, inputs);
  }

  /** What has to be true of a turn that closes the sale. */
  ghost predicate ClosesSafely(policy: SalesPolicy, norm: Normalizer, start: Lead, inputs: seq<TurnInput>,
                               input: TurnInput, r: TurnRecord) {
    && FitToClose(r.state) && StartsExplicitly(norm, input)
    && Rests(policy, norm, start, inputs + [input], r.state)
    && r.after.currentStage == Stored(Closing) && !r.after.objection.active
  }

  /** Every close is fit to be made, asked for in words or by accepting the link,
      rests on a commitment of this conversation and leaves nothing open. */
  lemma EngineClosesSafely(policy: SalesPolicy, norm: Normalizer, inputs: seq<TurnInput>, start: Lead, input: TurnInput)
    requires OwnPlanner(policy) && Fresh(start)
    ensures var r := TakeTurn(policy, norm, Converse(policy, norm, start, inputs), input);
            r.plan.macro == DirectClose ==> ClosesSafely(policy, norm, start, inputs, input, r)
  {
    var lead := Converse(policy, norm, start, inputs);
    var r := TakeTurn(policy, norm, lead, input);
    if r.plan.macro == DirectClose {
      ThePlannerKeeps();
      FreshStart(start);
      EveryCloseIsSafe(policy, norm, start, inputs, lead, input, r);
      EveryCloseWasCommittedTo(policy, norm, start, inputs, lead, input, r.state);
    }
  }

  /** A blocking objection of a reached lead outlives any undisturbed continuation. */
  lemma EngineKeepsObjections(policy: SalesPolicy, norm: Normalizer, inputs: seq<TurnInput>, start: Lead,
                              later: seq<TurnInput>)
    requires OwnPlanner(policy) && Fresh(start)
    ensures var open := Converse(policy, norm, start, inputs).objection;
            Blocks(open) && Undisturbed(norm, later, open.type_) ==>
              SameEpisodeAfter(open, |later|, Converse(policy, norm, start, inputs + later).objection)
  {
    var lead := Converse(policy, norm, start, inputs);
    if Blocks(lead.objection) && Undisturbed(norm, later, lead.objection.type_) {
      ThePlannerKeeps();
      FreshStart(start);
      HardObjectionSurvives(policy, norm, start, inputs, later, lead);
    }
  }

  /** The three views agree, but in the two situations named, and the question
      planned is one still open. */
  ghost predicate Coherent(lead: Lead, r: TurnRecord) {
    && (r.after.mode == HandlingObjection <==> BlockingView(r.plan))
    && ((BlockingView(r.plan) <==> Blocks(r.after.objection)) <==>
          !RaisedWhileLeaving(r.state) && !RaisedAndResolved(r.state))
    && (IsQuestion(r.plan.cta) <==> r.plan.key.Some?) && AsksNothingKnown(lead, r.plan)
  }

  lemma OneTurnAsksNothingKnown(policy: SalesPolicy, norm: Normalizer, lead: Lead, input: TurnInput, r: TurnRecord)
    requires Keeps(policy) && r == TakeTurn(policy, norm, lead, input)
    ensures (IsQuestion(r.plan.cta) <==> r.plan.key.Some?) && AsksNothingKnown(lead, r.plan)
  {
    StateLearns(norm, lead, input, r.state);
    SoundPlansAskNothingKnown(lead, r.state, r.plan);
  }

  lemma EngineTurnsAreCoherent(policy: SalesPolicy, norm: Normalizer, inputs: seq<TurnInput>, start: Lead,
                               input: TurnInput)
    requires OwnPlanner(policy) && Fresh(start)
    ensures var lead := Converse(policy, norm, start, inputs);
            Coherent(lead, TakeTurn(policy, norm, lead, input))
  {
    var lead := Converse(policy, norm, start, inputs);
    var r := TakeTurn(policy, norm, lead, input);
    ReachedLeadsAreSound(policy, norm, inputs, start);
    ThePlannerKeeps();
    ViewsAgree(policy, norm, lead, input, r);
    OneTurnAsksNothingKnown(policy, norm, lead, input, r);
  }

  /** What a reached lead requires is what the last turn to touch it asked for. */
  lemma EngineRemembersRequirements(policy: SalesPolicy, norm: Normalizer, inputs: seq<TurnInput>, start: Lead,
                                    e: Action)
    requires OwnPlanner(policy) && Fresh(start)
    ensures var ledger := Converse(policy, norm, start, inputs).profile.ledger;
            e in Requirements.Active(ledger.actions) <==>
              Requirements.LastWriter(false, Deltas(policy, norm, start, inputs), Requirements.OnActions(), e)
  {
    FreshStart(start);
    RequirementsFollowTheConversation(policy, norm, start, inputs, Deltas(policy, norm, start, inputs),
                                      Converse(policy, norm, start, inputs).profile.ledger, CloseSale, e);
  }
}

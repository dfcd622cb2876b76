/** What holds over whole conversations: every run of the engine, whatever the
    analyzer, the resolvers and the lead say. */
module Conversations {
  import opened Commercial
  import opened Evidence
  import opened Observations
  import Requirements
  import opened Leads
  import opened TurnNormalizer
  import opened LeadState
  import opened Planner
  import opened Stages
  import opened Objections
  import opened Engine
  import opened Runs

  // ---------- invariants of stored leads ----------

  ghost predicate SoundLead(l: Lead) {
    SoundObjection(l.objection) && Requirements.Invariant(l.profile.ledger)
  }

  lemma TurnKeepsSoundLead(policy: SalesPolicy, norm: Normalizer, lead: Lead, input: TurnInput, r: TurnRecord)
    requires Keeps(policy) && SoundLead(lead) && r == TakeTurn(policy, norm, lead, input)
    ensures SoundLead(r.state.lead) && SoundLead(r.after)
  {
    var s := r.state;
    StateLearns(norm, lead, input, s);
    UpdateKeepsLedger(lead, input, s.turn);
    ObjectionStaysSound(s, r.plan, r.move, input.message, r.after.objection);
  }

  lemma RunKeepsSoundLead(policy: SalesPolicy, norm: Normalizer, lead: Lead, inputs: seq<TurnInput>)
    requires Keeps(policy) && SoundLead(lead)
    ensures SoundLead(Converse(policy, norm, lead, inputs))
  {
    forall l, input | SoundLead(l) ensures SoundLead(TurnStep(policy, norm)(l, input)) {
      TurnKeepsSoundLead(policy, norm, l, input, TakeTurn(policy, norm, l, input));
    }
    RunKeeps(TurnStep(policy, norm), lead, inputs, l => SoundLead(l), _ => true);
  }

  // ---------- the life of an objection ----------

  /** A turn that can end an objection of this type: its message contains, word
      for word, a resolution or a hard objection of another type. */
  predicate Disturbs(norm: Normalizer, input: TurnInput, type_: ObjectionType) {
    var o := input.observation;
    || (o.relation == ResolvedObserved && Quotes(norm, o.relationSpan, input.message))
    || (o.objectionType != NoObjection && o.objectionType != type_ && o.objectionStrength == Hard
        && Quotes(norm, o.objectionSpan, input.message))
  }

  /** The same blocking objection, at a later moment. */
  ghost predicate SameEpisode(first: Objection, later: Objection) {
    && Blocks(later) && later.type_ == first.type_ && later.started == first.started
    && later.stageBefore == first.stageBefore && later.lastUpdated >= first.lastUpdated
  }

  /** The same objection so many turns later, each of them counted. */
  ghost predicate SameEpisodeAfter(first: Objection, turns: nat, later: Objection) {
    SameEpisode(first, later) && later.lastUpdated == first.lastUpdated + turns
  }

  lemma UndisturbedNeitherClosesNorSupersedes(norm: Normalizer, lead: Lead, input: TurnInput, s: PlannerState)
    requires s.Analysis() == Analyze(norm, input, lead) && s.Objection() == lead.objection
    requires lead.objection.type_ != NoObjection && !Disturbs(norm, input, lead.objection.type_)
    ensures !Closes(s) && !Supersedes(s)
  {
    ResolutionIsQuoted(norm, input, lead);
  }

  lemma EnduringTurn(s: PlannerState, p: Plan, move: StageMove, message: string, next: Objection, first: Objection)
    requires SoundObjection(s.Objection()) && Sound(s, p) && SameEpisode(first, s.Objection())
    requires next == NextObjection(s.Objection(), s.Analysis(), p, move, message)
    requires !Closes(s) && !Supersedes(s)
    ensures SameEpisode(first, next) && next.lastUpdated == s.Objection().lastUpdated + 1
  {
    BlockingObjectionHasThreeFates(s, p, move, message, next);
  }

  lemma UndisturbedTurnEndures(policy: SalesPolicy, norm: Normalizer, first: Objection, lead: Lead,
                               input: TurnInput, r: TurnRecord)
    requires Keeps(policy) && r == TakeTurn(policy, norm, lead, input)
    requires SoundLead(lead) && SameEpisode(first, lead.objection) && !Disturbs(norm, input, first.type_)
    ensures SoundLead(r.after) && SameEpisode(first, r.after.objection)
    ensures r.after.objection.lastUpdated == lead.objection.lastUpdated + 1
  {
    TurnKeepsSoundLead(policy, norm, lead, input, r);
    StateLearns(norm, lead, input, r.state);
    UndisturbedNeitherClosesNorSupersedes(norm, lead, input, r.state);
    EnduringTurn(r.state, r.plan, r.move, input.message, r.after.objection, first);
  }

  ghost predicate Undisturbed(norm: Normalizer, inputs: seq<TurnInput>, type_: ObjectionType) {
    forall i :: 0 <= i < |inputs| ==> !Disturbs(norm, inputs[i], type_)
  }

  /** What an undisturbed past makes of an objection. */
  ghost predicate Carried(norm: Normalizer, first: Objection, past: seq<TurnInput>, l: Lead) {
    Undisturbed(norm, past, first.type_) ==> SoundLead(l) && SameEpisodeAfter(first, |past|, l.objection)
  }

  lemma TurnCarries(policy: SalesPolicy, norm: Normalizer, first: Objection, past: seq<TurnInput>, lead: Lead,
                    input: TurnInput, r: TurnRecord)
    requires Keeps(policy) && Carried(norm, first, past, lead) && r == TakeTurn(policy, norm, lead, input)
    ensures Carried(norm, first, past + [input], r.after)
  {
    if Undisturbed(norm, past + [input], first.type_) {
      var all := past + [input];
      assert !Disturbs(norm, all[|past|], first.type_);
      assert forall i :: 0 <= i < |past| ==> past[i] == all[i];
      UndisturbedTurnEndures(policy, norm, first, lead, input, r);
    }
  }

  lemma StartCarries(norm: Normalizer, lead: Lead)
    requires SoundLead(lead) && Blocks(lead.objection)
    ensures Carried(norm, lead.objection, [], lead)
  {
  }

  lemma RunCarries(policy: SalesPolicy, norm: Normalizer, first: Objection, lead: Lead, inputs: seq<TurnInput>,
                   after: Lead)
    requires Keeps(policy) && Carried(norm, first, [], lead) && after == Converse(policy, norm, lead, inputs)
    ensures Carried(norm, first, inputs, after)
  {
    var step := TurnStep(policy, norm);
    forall past, input | Carried(norm, first, past, Run(step, lead, past))
      ensures Carried(norm, first, past + [input], step(Run(step, lead, past), input))
    {
      var l := Run(step, lead, past);
      TurnCarries(policy, norm, first, past, l, input, TakeTurn(policy, norm, l, input));
    }
    RunRelates(step, lead, inputs, (past, l) => Carried(norm, first, past, l));
  }

  lemma UndisturbedRunEndures(policy: SalesPolicy, norm: Normalizer, lead: Lead, inputs: seq<TurnInput>, after: Lead)
    requires Keeps(policy) && SoundLead(lead) && Blocks(lead.objection)
    requires Undisturbed(norm, inputs, lead.objection.type_) && after == Converse(policy, norm, lead, inputs)
    ensures SameEpisodeAfter(lead.objection, |inputs|, after.objection)
  {
    StartCarries(norm, lead);
    RunCarries(policy, norm, lead.objection, lead, inputs, after);
  }

  lemma FreshIsSound()
    ensures SoundLead(FRESH)
  {
  }

  /** On every run from a fresh lead, or any sound one, a hard objection once
      active stays active, paused or not, and counts every turn, until a message
      resolves it in words it contains or raises another hard objection in words
      it contains. */
  lemma HardObjectionSurvives(policy: SalesPolicy, norm: Normalizer, start: Lead, before: seq<TurnInput>,
                              later: seq<TurnInput>, mid: Lead)
    requires Keeps(policy) && SoundLead(start)
    requires mid == Converse(policy, norm, start, before) && Blocks(mid.objection)
    requires Undisturbed(norm, later, mid.objection.type_)
    ensures SameEpisodeAfter(mid.objection, |later|, Converse(policy, norm, start, before + later).objection)
  {
    RunKeepsSoundLead(policy, norm, start, before);
    UndisturbedRunEndures(policy, norm, mid, later, Converse(policy, norm, mid, later));
    RunConcat(TurnStep(policy, norm), start, before, later);
  }
}

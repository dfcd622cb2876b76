/** What every turn of every conversation promises: the views agree, nothing
    known is asked, the ledger is the history of its deltas, the evidence of an
    objection is complete. */
module Promises {
  import opened Commercial
  import opened Evidence
  import opened Observations
  import Requirements
  import opened Leads
  import opened TurnNormalizer
  import opened LeadState
  import opened Planner
  import opened Stages
  import opened Objections
  import opened Engine
  import opened Runs
  import opened Conversations

  // ---------- the three views ----------

  /** After every turn from a sound lead, and so on every run from a fresh one,
      the stored mode says "handling an objection" exactly when the plan's overlay
      blocks a close; and both say so exactly when the stored objection blocks,
      but in the two situations named. */
  lemma ViewsAgree(policy: SalesPolicy, norm: Normalizer, lead: Lead, input: TurnInput, r: TurnRecord)
    requires Keeps(policy) && SoundLead(lead) && r == TakeTurn(policy, norm, lead, input)
    ensures r.after.mode == HandlingObjection <==> BlockingView(r.plan)
    ensures (BlockingView(r.plan) <==> Blocks(r.after.objection)) <==>
              !RaisedWhileLeaving(r.state) && !RaisedAndResolved(r.state)
  {
    StateLearns(norm, lead, input, r.state);
    ModeFollowsOverlay(r.state, r.plan);
    OverlayFollowsObjection(r.state, r.plan, r.move, input.message, r.after.objection);
  }

  // ---------- questions ----------

  lemma KnowledgeChains(a: Lead, b: Lead, c: Lead)
    requires KnowsAtLeast(a, b) && KnowsAtLeast(b, c)
    ensures KnowsAtLeast(a, c)
  {
  }

  lemma TurnKeepsKnowledge(policy: SalesPolicy, norm: Normalizer, start: Lead, lead: Lead, input: TurnInput)
    requires KnowsAtLeast(start, lead)
    ensures KnowsAtLeast(start, TakeTurn(policy, norm, lead, input).after)
    ensures KnowsAtLeast(start, StateOf(norm, lead, input).lead)
  {
    var s := StateOf(norm, lead, input);
    StateLearns(norm, lead, input, s);
    KnowledgeChains(start, lead, s.lead);
  }

  lemma RunKeepsKnowledge(policy: SalesPolicy, norm: Normalizer, start: Lead, inputs: seq<TurnInput>)
    ensures KnowsAtLeast(start, Converse(policy, norm, start, inputs))
  {
    var step := TurnStep(policy, norm);
    forall l, input | KnowsAtLeast(start, l) ensures KnowsAtLeast(start, step(l, input)) {
      TurnKeepsKnowledge(policy, norm, start, l, input);
    }
    RunKeeps(step, start, inputs, l => KnowsAtLeast(start, l), _ => true);
  }

  /** Once a lead's business, channel, pain or requirement is known, no turn of
      any later conversation plans the question for it. */
  ghost predicate AsksNothingKnown(start: Lead, p: Plan) {
    && (start.businessType != "" ==> p.key != Some(BusinessTypeKey))
    && (start.mainChannel != "" ==> p.key != Some(MainChannelKey))
    && (start.pain != "" ==> p.key != Some(PainOrGoalKey))
    && (start.profile.actionRequirement != UnknownRequirement ==> p.key != Some(ActionRequirementKey))
  }

  lemma SoundPlansAskNothingKnown(start: Lead, s: PlannerState, p: Plan)
    requires Sound(s, p) && s.memory == MemoryOf(s.lead) && KnowsAtLeast(start, s.lead)
    ensures AsksNothingKnown(start, p)
  {
  }

  lemma KnownIsNeverAskedAgain(policy: SalesPolicy, norm: Normalizer, start: Lead, inputs: seq<TurnInput>,
                               lead: Lead, input: TurnInput, s: PlannerState)
    requires Keeps(policy) && lead == Converse(policy, norm, start, inputs) && s == StateOf(norm, lead, input)
    ensures AsksNothingKnown(start, policy(s))
    ensures IsQuestion(policy(s).cta) <==> policy(s).key.Some?
  {
    RunKeepsKnowledge(policy, norm, start, inputs);
    TurnKeepsKnowledge(policy, norm, start, lead, input);
    StateLearns(norm, lead, input, s);
    SoundPlansAskNothingKnown(start, s, policy(s));
  }

  // ---------- the ledger of a conversation ----------

  function DeltaOut(norm: Normalizer): (Lead, TurnInput) -> Requirements.Delta {
    (lead, input) => DeltaOf(lead, input, Normalize(norm, input, lead))
  }

  /** The deltas the turns of a conversation merge into the ledger. */
  function Deltas(policy: SalesPolicy, norm: Normalizer, start: Lead, inputs: seq<TurnInput>): seq<Requirements.Delta> {
    Outputs(TurnStep(policy, norm), DeltaOut(norm), start, inputs)
  }

  lemma TurnMergesItsDelta(policy: SalesPolicy, norm: Normalizer, lead: Lead, input: TurnInput)
    ensures TakeTurn(policy, norm, lead, input).after.profile.ledger ==
            Requirements.Step(lead.profile.ledger, DeltaOf(lead, input, Normalize(norm, input, lead)))
  {
  }

  /** The ledger a conversation ends with is the run of its turns' deltas, so that
      every theorem about runs of the ledger speaks of conversations. */
  lemma LedgerIsItsHistory(policy: SalesPolicy, norm: Normalizer, start: Lead, inputs: seq<TurnInput>)
    ensures Requirements.Legitimate(Deltas(policy, norm, start, inputs))
    ensures Converse(policy, norm, start, inputs).profile.ledger ==
            Requirements.Run(start.profile.ledger, Deltas(policy, norm, start, inputs))
  {
    var step, out := TurnStep(policy, norm), DeltaOut(norm);
    forall l, input ensures out(l, input).Consistent() && out(l, input).Sorted() {
      DeltaIsLegitimate(l, input, Normalize(norm, input, l));
    }
    OutputsAll(step, out, start, inputs, (d: Requirements.Delta) => d.Consistent() && d.Sorted());
    var view := (l: Lead) => l.profile.ledger;
    forall l, input ensures view(step(l, input)) == Requirements.MERGES(view(l), out(l, input)) {
      TurnMergesItsDelta(policy, norm, l, input);
    }
    RunRefines(step, out, view, Requirements.MERGES, start, inputs);
  }

  /** After any conversation, an action or a capability is required exactly when
      the last turn whose delta touched it asked for it and did not drop it. */
  lemma RequirementsFollowTheConversation(policy: SalesPolicy, norm: Normalizer, start: Lead,
                                          inputs: seq<TurnInput>, deltas: seq<Requirements.Delta>,
                                          ledger: Requirements.Ledger, c: Capability, e: Action)
    requires Requirements.Invariant(start.profile.ledger)
    requires deltas == Deltas(policy, norm, start, inputs)
    requires ledger == Converse(policy, norm, start, inputs).profile.ledger
    ensures var first := start.profile.ledger;
            && (c in Requirements.Active(ledger.informational) <==>
                  Requirements.LastWriter(c in Requirements.Active(first.informational), deltas,
                                          Requirements.OnInformational(), c))
            && (c in Requirements.Active(ledger.sales) <==>
                  Requirements.LastWriter(c in Requirements.Active(first.sales), deltas, Requirements.OnSales(), c))
            && (e in Requirements.Active(ledger.actions) <==>
                  Requirements.LastWriter(e in Requirements.Active(first.actions), deltas, Requirements.OnActions(), e))
  {
    LedgerIsItsHistory(policy, norm, start, inputs);
    Requirements.LastWriterWins(start.profile.ledger, deltas, c, e);
  }

  // ---------- the evidence of an objection ----------

  lemma EnduringTurnLogs(s: PlannerState, p: Plan, move: StageMove, message: string, next: Objection, text: string)
    requires SoundObjection(s.Objection()) && Blocks(s.Objection()) && Sound(s, p) && !Supersedes(s)
    requires next == NextObjection(s.Objection(), s.Analysis(), p, move, message)
    ensures next.evidence == AppendEvidence(s.Objection().evidence, message)
    ensures Logged(message, next.evidence)
    ensures Logged(text, s.Objection().evidence) ==> Logged(text, next.evidence)
  {
    NextStepMoves(s);
    EvidenceAccumulates(s.Objection().evidence, message, text);
  }

  lemma UndisturbedTurnLogs(policy: SalesPolicy, norm: Normalizer, lead: Lead, input: TurnInput,
                            r: TurnRecord, text: string)
    requires Keeps(policy) && SoundLead(lead) && Blocks(lead.objection) && r == TakeTurn(policy, norm, lead, input)
    requires !Disturbs(norm, input, lead.objection.type_)
    ensures Logged(input.message, r.after.objection.evidence)
    ensures Logged(text, lead.objection.evidence) ==> Logged(text, r.after.objection.evidence)
  {
    StateLearns(norm, lead, input, r.state);
    UndisturbedNeitherClosesNorSupersedes(norm, lead, input, r.state);
    EnduringTurnLogs(r.state, r.plan, r.move, input.message, r.after.objection, text);
  }

  /** The objection is the same one, and the text is on its log. */
  ghost predicate StillLogged(first: Objection, text: string, l: Lead) {
    SoundLead(l) && SameEpisode(first, l.objection) && Logged(text, l.objection.evidence)
  }

  lemma TurnKeepsLog(policy: SalesPolicy, norm: Normalizer, first: Objection, text: string, lead: Lead,
                     input: TurnInput, r: TurnRecord)
    requires Keeps(policy) && r == TakeTurn(policy, norm, lead, input)
    requires StillLogged(first, text, lead) && !Disturbs(norm, input, first.type_)
    ensures StillLogged(first, text, r.after)
  {
    UndisturbedTurnEndures(policy, norm, first, lead, input, r);
    UndisturbedTurnLogs(policy, norm, lead, input, r, text);
  }

  /** While an objection lasts, no message is lost from its evidence: what is
      logged at some turn is still logged after any number of further turns. */
  lemma EvidenceIsNeverLost(policy: SalesPolicy, norm: Normalizer, start: Lead, inputs: seq<TurnInput>,
                            text: string, after: Lead)
    requires Keeps(policy) && Blocks(start.objection) && StillLogged(start.objection, text, start)
    requires Undisturbed(norm, inputs, start.objection.type_)
    requires after == Converse(policy, norm, start, inputs)
    ensures StillLogged(start.objection, text, after)
  {
    var first, step := start.objection, TurnStep(policy, norm);
    forall l, input | StillLogged(first, text, l) && !Disturbs(norm, input, first.type_)
      ensures StillLogged(first, text, step(l, input))
    {
      TurnKeepsLog(policy, norm, first, text, l, input, TakeTurn(policy, norm, l, input));
    }
    RunKeeps(step, start, inputs, l => StillLogged(first, text, l), input => !Disturbs(norm, input, first.type_));
  }
}

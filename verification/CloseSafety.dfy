/** Closing a sale: what every close rests on, over whole conversations. */
module CloseSafety {
  import opened Commercial
  import opened Evidence
  import opened Observations
  import Requirements
  import opened RequirementDelta
  import opened Leads
  import opened TurnNormalizer
  import opened LeadState
  import opened Planner
  import opened Stages
  import opened Objections
  import opened Engine
  import opened Runs
  import opened Conversations

  // ---------- one close ----------

  /** The product committed to covers what the ledger says is needed: no selling,
      external actions only with Híbrido and within its limit, and Captura when
      nothing but answers is needed. */
  ghost predicate Covers(product: Product, l: Requirements.Ledger) {
    && Requirements.Active(l.sales) == {}
    && (Requirements.Active(l.actions) != {} ==>
          product == Hibrido && (ActiveCount(l).Some? ==> ActiveCount(l).value <= STANDARD_ACTION_LIMIT))
    && (Requirements.Active(l.actions) == {} && Requirements.Active(l.informational) != {} ==> product == Captura)
  }

  ghost predicate FitToClose(s: PlannerState) {
    && s.Analysis().explicitStart && !s.Analysis().postPurchase && !s.Analysis().NewHard()
    && Available(s.Commitment()) && Covers(s.Commitment().value, s.Ledger())
    && UnsupportedScope !in s.Flags() && CustomScopeReviewRequired !in s.Flags()
    && PreferenceMismatch !in s.Flags() && ProductUnavailable !in s.Flags()
  }

  lemma CloseableFitsTheLedger(s: PlannerState)
    requires CanDirectClose(s) && Requirements.Invariant(s.Ledger())
    ensures FitToClose(s)
  {
    RecommendationFitsTheScope(s.Ledger());
    assert s.turn.requested != Some(Ventas) && s.turn.requested != Some(ProComercial);
    assert ProductFitOf(s.Ledger()) in {UnknownFit, CapturaFit, HibridoFit};
  }

  lemma CloseIsFit(s: PlannerState, p: Plan)
    requires Sound(s, p) && p.macro == DirectClose && Requirements.Invariant(s.Ledger())
    ensures FitToClose(s)
  {
    CloseableFitsTheLedger(s);
  }

  lemma CloseResolves(s: PlannerState, p: Plan, move: StageMove, message: string, next: Objection)
    requires Sound(s, p) && SoundObjection(s.Objection()) && p.macro == DirectClose
    requires next == NextObjection(s.Objection(), s.Analysis(), p, move, message)
    ensures !next.active
  {
    if Blocks(s.Objection()) {
      BlockingObjectionHasThreeFates(s, p, move, message, next);
    } else {
      OnlyHardObjectionsOpen(s, p, move, message, next);
    }
  }

  /** A close leaves the sale at closing and no objection open. */
  lemma CloseLeavesNothingOpen(s: PlannerState, p: Plan, message: string)
    requires Sound(s, p) && SoundObjection(s.Objection()) && p.macro == DirectClose
    ensures var after := RecordOf(s, p, message).after;
            after.currentStage == Stored(Closing) && !after.objection.active
  {
    var r := RecordOf(s, p, message);
    CloseResolves(s, p, r.move, message, r.after.objection);
  }

  // ---------- where a commitment comes from ----------

  /** Nothing chosen yet. */
  predicate Undecided(l: Lead) {
    l.profile.selected.None? && l.profile.confirmed.None?
  }

  /** Some turn of the conversation committed to the product. */
  ghost predicate CommittedIn(policy: SalesPolicy, norm: Normalizer, start: Lead, inputs: seq<TurnInput>, p: Product) {
    Sometime(inputs, (past, input) => Commits(norm, input, Converse(policy, norm, start, past), p))
  }

  lemma CommittedLater(policy: SalesPolicy, norm: Normalizer, start: Lead, inputs: seq<TurnInput>,
                       input: TurnInput, p: Product)
    requires CommittedIn(policy, norm, start, inputs, p)
    ensures CommittedIn(policy, norm, start, inputs + [input], p)
  {
    SometimeLater(inputs, input, (past, input) => Commits(norm, input, Converse(policy, norm, start, past), p));
  }

  lemma CommittedNow(policy: SalesPolicy, norm: Normalizer, start: Lead, inputs: seq<TurnInput>,
                     input: TurnInput, p: Product)
    requires Commits(norm, input, Converse(policy, norm, start, inputs), p)
    ensures CommittedIn(policy, norm, start, inputs + [input], p)
  {
    SometimeNow(inputs, input, (past, input) => Commits(norm, input, Converse(policy, norm, start, past), p));
  }

  /** Everything chosen by a lead was committed to in the conversation. */
  ghost predicate ChoicesTraced(policy: SalesPolicy, norm: Normalizer, start: Lead, inputs: seq<TurnInput>, l: Lead) {
    && l.profile.confirmed.None?
    && (l.profile.selected.Some? ==>
          Available(l.profile.selected) && CommittedIn(policy, norm, start, inputs, l.profile.selected.value))
  }

  lemma TurnTracesChoices(policy: SalesPolicy, norm: Normalizer, start: Lead, inputs: seq<TurnInput>,
                          lead: Lead, input: TurnInput, s: PlannerState)
    requires lead == Converse(policy, norm, start, inputs) && s == StateOf(norm, lead, input)
    requires ChoicesTraced(policy, norm, start, inputs, lead)
    ensures ChoicesTraced(policy, norm, start, inputs + [input], s.lead)
  {
    StateLearns(norm, lead, input, s);
    NeverConfirms(lead, input, s.turn);
    var chosen := SelectedNow(norm, input, lead);
    if chosen.Some? {
      SelectionIsCommitted(norm, input, lead);
      CommittedNow(policy, norm, start, inputs, input, chosen.value);
    } else if lead.profile.selected.Some? {
      CommittedLater(policy, norm, start, inputs, input, lead.profile.selected.value);
    }
  }

  lemma RunTracesChoices(policy: SalesPolicy, norm: Normalizer, start: Lead, inputs: seq<TurnInput>)
    requires Undecided(start)
    ensures ChoicesTraced(policy, norm, start, inputs, Converse(policy, norm, start, inputs))
  {
    var step := TurnStep(policy, norm);
    forall past, input | ChoicesTraced(policy, norm, start, past, Run(step, start, past))
      ensures ChoicesTraced(policy, norm, start, past + [input], step(Run(step, start, past), input))
    {
      var lead := Converse(policy, norm, start, past);
      TurnTracesChoices(policy, norm, start, past, lead, input, StateOf(norm, lead, input));
    }
    RunRelates(step, start, inputs, (past, l) => ChoicesTraced(policy, norm, start, past, l));
  }

  // ---------- every close of every conversation ----------

  lemma CloseTurnIsSafe(policy: SalesPolicy, norm: Normalizer, lead: Lead, input: TurnInput, r: TurnRecord)
    requires Keeps(policy) && SoundLead(lead)
    requires r == TakeTurn(policy, norm, lead, input) && r.plan.macro == DirectClose
    ensures FitToClose(r.state) && StartsExplicitly(norm, input)
    ensures r.after.currentStage == Stored(Closing) && !r.after.objection.active
  {
    TurnKeepsSoundLead(policy, norm, lead, input, r);
    StateLearns(norm, lead, input, r.state);
    CloseIsFit(r.state, r.plan);
    CloseLeavesNothingOpen(r.state, r.plan, input.message);
  }

  /** Every close, on every run from a sound lead, a fresh one in particular,
      rests on an explicit wish to start, on a product that covers what the ledger
      asks for and on no blocking flag; it leaves the sale at closing and no
      objection open. */
  lemma EveryCloseIsSafe(policy: SalesPolicy, norm: Normalizer, start: Lead, inputs: seq<TurnInput>,
                         lead: Lead, input: TurnInput, r: TurnRecord)
    requires Keeps(policy) && SoundLead(start) && lead == Converse(policy, norm, start, inputs)
    requires r == TakeTurn(policy, norm, lead, input) && r.plan.macro == DirectClose
    ensures FitToClose(r.state) && StartsExplicitly(norm, input)
    ensures r.after.currentStage == Stored(Closing) && !r.after.objection.active
  {
    RunKeepsSoundLead(policy, norm, start, inputs);
    CloseTurnIsSafe(policy, norm, lead, input, r);
  }

  ghost predicate Rests(policy: SalesPolicy, norm: Normalizer, start: Lead, inputs: seq<TurnInput>, s: PlannerState) {
    s.Commitment().Some? && CommittedIn(policy, norm, start, inputs, s.Commitment().value)
  }

  lemma ClosesRest(policy: SalesPolicy, norm: Normalizer, start: Lead, inputs: seq<TurnInput>, s: PlannerState)
    requires ChoicesTraced(policy, norm, start, inputs, s.lead) && CanDirectClose(s)
    ensures Rests(policy, norm, start, inputs, s)
  {
  }

  /** And from an undecided lead that product was committed to in this very
      conversation, in one of the two ways of `Commits`. */
  lemma EveryCloseWasCommittedTo(policy: SalesPolicy, norm: Normalizer, start: Lead, inputs: seq<TurnInput>,
                                 lead: Lead, input: TurnInput, s: PlannerState)
    requires Keeps(policy) && Undecided(start) && lead == Converse(policy, norm, start, inputs)
    requires s == StateOf(norm, lead, input) && policy(s).macro == DirectClose
    ensures Rests(policy, norm, start, inputs + [input], s)
  {
    RunTracesChoices(policy, norm, start, inputs);
    TurnTracesChoices(policy, norm, start, inputs, lead, input, s);
    assert Sound(s, policy(s));
    ClosesRest(policy, norm, start, inputs + [input], s);
  }

  // ---------- and a close can be reached ----------

  /** A first message that commits to an available product and asks to start, in
      words it contains, and says nothing else. */
  predicate PlainStart(norm: Normalizer, input: TurnInput, p: Product) {
    var o := input.observation;
    && Available(Some(p))
    && o.problems == [] && o.capabilities == [] && o.actions == [] && o.count.None? && o.updateIntent == NoChange
    && |o.products| == 1 && o.products[0].product == p && o.products[0].role == ReferenceRole.Committed
    && Quotes(norm, o.products[0].span, input.message)
    && o.objectionType == NoObjection && !o.postPurchase && o.intent == ExplicitStartRequest
    && o.readiness == ExplicitStart && Quotes(norm, o.readinessSpan, input.message)
    && input.frame.kind == NoFrame && input.frame.act == Unclear && input.semantic.None?
  }

  lemma PlainStartSelects(norm: Normalizer, input: TurnInput, p: Product, lead: Lead)
    requires PlainStart(norm, input, p)
    ensures SelectedNow(norm, input, lead) == Some(p)
  {
    var references := input.observation.products;
    assert references[1..] == [];
    assert ReferencesOf(norm, references, input.message) == [references[0]];
    assert [references[0]][1..] == [];
    assert WithRole([references[0]], ReferenceRole.Committed) == [references[0]];
    assert RecommendedNow(input.observation) == None;
  }

  lemma PlainStartLeavesTheLedger(norm: Normalizer, input: TurnInput, p: Product, lead: Lead, t: Turn)
    requires PlainStart(norm, input, p) && t == Normalize(norm, input, lead)
    requires lead.profile.ledger == Requirements.EMPTY
    ensures UpdateLead(lead, input, t).profile.ledger == Requirements.EMPTY
  {
    FreshIsSound();
    SilentTurnKeepsTheLedger(t.admitted, input.message, input.semantic, t.contextualActions,
                             lead.profile.ledger);
  }

  lemma OnlyProduct(references: seq<ProductReference>, p: Product)
    requires |references| == 1 && references[0].product == p && Available(Some(p))
    ensures Sole(ProductsIn(references)) == Some(p)
  {
    assert references[0].product in ProductsIn(references);
    assert ProductsIn(references) == {p};
  }

  lemma ChoiceCanClose(s: PlannerState, p: Product)
    requires s.Ledger() == Requirements.EMPTY && s.turn.requested == Some(p) && Available(Some(p))
    requires s.Commitment() == Some(p) && s.memory.knownFit == FitFor(p)
    requires s.Analysis().explicitStart && !s.Analysis().postPurchase && !s.Analysis().HasObjection()
    requires s.Analysis().intent != SupportRequest && !Blocks(s.Objection())
    ensures InSale(s) && CanDirectClose(s)
  {
  }

  lemma PlainStartIsClosable(norm: Normalizer, lead: Lead, input: TurnInput, p: Product, s: PlannerState)
    requires PlainStart(norm, input, p) && s == StateOf(norm, lead, input)
    requires lead.profile.ledger == Requirements.EMPTY && Undecided(lead) && !Blocks(lead.objection)
    ensures InSale(s) && CanDirectClose(s)
  {
    StateLearns(norm, lead, input, s);
    PlainStartSelects(norm, input, p, lead);
    OnlyProduct(input.observation.products, p);
    PlainStartLeavesTheLedger(norm, input, p, lead, s.turn);
    NeverConfirms(lead, input, s.turn);
    ChoiceCanClose(s, p);
  }

  /** Nothing above is vacuous: such a message closes the sale at once, whatever
      else is known of the lead. */
  lemma PlainStartCloses(policy: SalesPolicy, norm: Normalizer, lead: Lead, input: TurnInput, p: Product,
                         s: PlannerState)
    requires Keeps(policy) && PlainStart(norm, input, p) && s == StateOf(norm, lead, input)
    requires lead.profile.ledger == Requirements.EMPTY && Undecided(lead) && !Blocks(lead.objection)
    ensures policy(s).macro == DirectClose
  {
    PlainStartIsClosable(norm, lead, input, p, s);
    assert Sound(s, policy(s));
  }
}

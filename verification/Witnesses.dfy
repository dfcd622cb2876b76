/** Concrete conversations: inputs the engine can receive that lead to the
    situations named elsewhere, for any text that quotes itself. */
module Witnesses {
  import opened Commercial
  import opened Evidence
  import opened Observations
  import opened Requirements
  import opened RequirementDelta
  import opened Leads
  import opened TurnNormalizer
  import opened LeadState
  import opened Planner
  import opened Stages
  import opened Objections
  import opened Engine
  import Runs
  import opened Conversations
  import opened StageSafety
  import opened Guarantees

  const NO_CUES: MessageCues :=
    MessageCues(false, false, false, false, false, false, false, false, false, false, false, false, false, false)

  const NO_FRAME: ReplyFrame := ReplyFrame(NoFrame, Unclear, false, None)

  /** A message that raises at most an objection, always hard, or settles one, and
      says nothing of what it wants; every span quoted is the whole text. */
  function Says(text: string, intent: Intent, topics: seq<Topic>, objection: ObjectionType,
                relation: AnalyzerRelation, postPurchase: bool): TurnInput {
    var o := Observation(intent, [], [], [], None, NoChange, [],
                         objection, if objection == NoObjection then NoStrength else Hard,
                         if objection == NoObjection then "" else text,
                         relation, if relation == NoneObserved then "" else text,
                         NoSignal, "", NoPrior, "", postPurchase, if postPurchase then text else "", "", "", "");
    TurnInput(text, text, NO_CUES, o, topics, false, NO_FRAME, None, false)
  }

  function AsksPrice(text: string): TurnInput {
    Says(text, PricingQuestion, [Pricing], NoObjection, NoneObserved, false)
  }

  function Objects(text: string): TurnInput {
    Says(text, GeneralInfo, [UnknownTopic], PriceObjection, NoneObserved, false)
  }

  function Compares(text: string, relation: AnalyzerRelation): TurnInput {
    Says(text, ComparisonQuestion, [CompetitorComparisonTopic], NoObjection, relation, false)
  }

  predicate QuotesItself(norm: Normalizer, text: string) {
    text != "" && norm(text) != ""
  }

  lemma WholeTextIsQuoted(norm: Normalizer, text: string)
    requires QuotesItself(norm, text)
    ensures Quotes(norm, text, text)
  {
    InfixReflexive(norm(text));
  }

  // ---------- what such a message does to the state ----------

  /** A lead nothing is known of. */
  predicate Untold(l: Lead) {
    l.businessType == "" && l.mainChannel == "" && l.pain == "" && l.profile == FRESH.profile
  }

  /** The state such a message is planned in. */
  ghost predicate Heard(s: PlannerState, lead: Lead, intent: Intent, topics: seq<Topic>, objection: ObjectionType,
                        relation: ObjectionRelation, postPurchase: bool) {
    && s.lead == lead && s.memory == Memory("", "", "", UnknownRequirement, UnknownFit, false)
    && s.turn.references == [] && s.turn.requested.None? && s.turn.selected.None? && !s.turn.mismatch
    && s.turn.frame == NO_FRAME && s.cues == NO_CUES && !s.paymentConfirmed
    && s.turn.analysis == Analysis(intent, topics, false, objection,
                                   if objection == NoObjection then NoStrength else Hard, relation,
                                   "", "", "", NoSignal, false, postPurchase, false)
  }

  lemma SilentProfile(p: Profile, t: Turn)
    requires p == FRESH.profile && t.references == [] && t.requested.None? && t.selected.None? && t.frame == NO_FRAME
    ensures UpdateProfile(p, t, EMPTY) == p
  {
    assert WithRole([], QuestionSubject) == [] && WithRole([], ReferenceRole.Committed) == [];
    assert WithRole([], Preferred) == [];
    assert Named([]) == {};
    assert ResolveContext(p, t) == NO_CONTEXT;
  }

  lemma SilentUpdate(lead: Lead, input: TurnInput, t: Turn)
    requires Untold(lead) && input.semantic.None? && t.contextualActions == []
    requires Silent(t.admitted, None, [])
    requires t.references == [] && t.requested.None? && t.selected.None? && t.frame == NO_FRAME
    requires t.analysis.businessType == "" && t.analysis.mainChannel == "" && t.analysis.pain == ""
    ensures UpdateLead(lead, input, t) == lead
  {
    FreshIsSound();
    SilentTurnKeepsTheLedger(t.admitted, input.message, None, [], EMPTY);
    SilentProfile(lead.profile, t);
  }

  lemma SaidTurn(norm: Normalizer, lead: Lead, text: string, intent: Intent, topics: seq<Topic>,
                 objection: ObjectionType, relation: AnalyzerRelation, postPurchase: bool, t: Turn)
    requires QuotesItself(norm, text) && Untold(lead)
    requires t == Normalize(norm, Says(text, intent, topics, objection, relation, postPurchase), lead)
    ensures t.references == [] && t.requested.None? && t.selected.None? && !t.mismatch && t.frame == NO_FRAME
    ensures t.contextualActions == [] && Silent(t.admitted, None, [])
    ensures t.analysis == Analysis(intent, topics, false, objection,
                                   if objection == NoObjection then NoStrength else Hard, t.analysis.relation,
                                   "", "", "", NoSignal, false, postPurchase, false)
    ensures t.analysis.relation ==
            RelationOf(norm, Says(text, intent, topics, objection, relation, postPurchase).observation, text,
                       lead.objection, objection)
  {
    WholeTextIsQuoted(norm, text);
    assert ProductsIn([]) == {};
  }

  lemma SaidState(norm: Normalizer, lead: Lead, text: string, intent: Intent, topics: seq<Topic>,
                  objection: ObjectionType, relation: AnalyzerRelation, postPurchase: bool, s: PlannerState)
    requires QuotesItself(norm, text) && Untold(lead)
    requires s == StateOf(norm, lead, Says(text, intent, topics, objection, relation, postPurchase))
    ensures var o := lead.objection;
            var open := o.active && o.type_ != NoObjection;
            Heard(s, lead, intent, topics, objection,
                  if relation != NoneObserved && open then FromObserved(relation)
                  else if objection == NoObjection then if open then Unrelated else NoRelation
                  else if !open || objection != o.type_ then NewRelation
                  else Continuation, postPurchase)
  {
    var input := Says(text, intent, topics, objection, relation, postPurchase);
    WholeTextIsQuoted(norm, text);
    SaidTurn(norm, lead, text, intent, topics, objection, relation, postPurchase, s.turn);
    SilentUpdate(lead, input, s.turn);
  }

  // ---------- a remembered stage moves the sale back ----------

  /** A lead nothing is known of, at a stage, with a remembered one. */
  predicate At(l: Lead, stage: Stage, remembered: StoredStage) {
    Untold(l) && l.currentStage == Stored(stage) && l.stageBefore == remembered
  }

  lemma NothingMissingButAll(s: PlannerState, lead: Lead)
    requires Untold(lead) && s.lead == lead && s.Analysis().businessType == ""
    requires s.memory == Memory("", "", "", UnknownRequirement, UnknownFit, false) && s.turn.requested.None?
    ensures MissingDiscoveryKey(s) == Some(BusinessTypeKey) && s.Fit() == UnknownFit
  {
  }

  lemma PriceDraft(s: PlannerState, lead: Lead, topics: seq<Topic>, relation: ObjectionRelation)
    requires Untold(lead) && Heard(s, lead, PricingQuestion, topics, NoObjection, relation, false)
    ensures SalesDraft(s) == Ask(AnswerAndAdvance, AnswerPriceThenExplainScope, SoftQuestion, Educating,
                                 Some(BusinessTypeKey))
  {
    NothingMissingButAll(s, lead);
  }

  lemma ComparisonDraft(s: PlannerState, lead: Lead, relation: ObjectionRelation)
    requires Untold(lead)
    requires Heard(s, lead, ComparisonQuestion, [CompetitorComparisonTopic], NoObjection, relation, false)
    ensures SalesDraft(s) == Ask(CompareAlternative, CompareManychat, DiscoveryQuestion, Comparing,
                                 Some(BusinessTypeKey))
  {
    NothingMissingButAll(s, lead);
    assert ProductsIn([]) == {};
  }

  /** A sales plan of which nothing takes precedence. */
  lemma SalesTurn(s: PlannerState, message: string, r: TurnRecord)
    requires r == RecordOf(s, PlanFor(s), message)
    requires InSale(s) && !s.Analysis().NewHard() && !s.Analysis().explicitStart
    requires SoundObjection(s.Objection())
    requires Blocks(s.Objection()) ==> ResolvesObjection(s) && ProcessesIntentAfterResolution(s)
    requires s.lead.currentStage.Stored? && s.lead.currentStage.stage != ObjectionHandling
    requires Edge(s.lead.currentStage.stage, SalesDraft(s).target)
    requires SalesDraft(s).target != Closing && SalesDraft(s).target != Handoff
    ensures r.after.currentStage == Stored(SalesDraft(s).target)
    ensures r.after.stageBefore ==
            if s.lead.stageBefore == Blank then Blank else Stored(NormalizeStage(s.lead.stageBefore, New))
    ensures !Blocks(s.Objection()) ==> r.after.objection == NO_OBJECTION
    ensures !r.after.objection.active && SoundObjection(r.after.objection)
    ensures r.after.profile == s.lead.profile && r.after.businessType == s.lead.businessType
    ensures r.after.mainChannel == s.lead.mainChannel && r.after.pain == s.lead.pain
  {
    SalesDraftShape(s);
    FinalizedKeeps(s, SalesDraft(s));
    ObjectionStaysSound(s, r.plan, r.move, message, r.after.objection);
  }

  lemma PriceTurn(norm: Normalizer, text: string, lead: Lead, r: TurnRecord)
    requires QuotesItself(norm, text) && At(lead, New, Blank) && lead.objection == NO_OBJECTION
    requires r == TakeTurn(PlanFor, norm, lead, AsksPrice(text))
    ensures At(r.after, Educating, Blank) && r.after.objection == NO_OBJECTION
  {
    SaidState(norm, lead, text, PricingQuestion, [Pricing], NoObjection, NoneObserved, false, r.state);
    PriceDraft(r.state, lead, [Pricing], NoRelation);
    SalesTurn(r.state, text, r);
  }

  lemma ComparisonTurn(norm: Normalizer, text: string, lead: Lead, relation: AnalyzerRelation, stage: Stage,
                       remembered: StoredStage, r: TurnRecord)
    requires QuotesItself(norm, text) && At(lead, stage, remembered) && stage != ObjectionHandling
    requires Edge(stage, Comparing) && SoundObjection(lead.objection)
    requires lead.objection.active ==> relation == ResolvedObserved
    requires r == TakeTurn(PlanFor, norm, lead, Compares(text, relation))
    ensures At(r.after, Comparing, if remembered == Blank then Blank else Stored(NormalizeStage(remembered, New)))
    ensures !Blocks(lead.objection) ==> r.after.objection == NO_OBJECTION
    ensures !r.after.objection.active && SoundObjection(r.after.objection)
  {
    SaidState(norm, lead, text, ComparisonQuestion, [CompetitorComparisonTopic], NoObjection, relation, false, r.state);
    ComparisonDraft(r.state, lead, r.state.Analysis().relation);
    SalesTurn(r.state, text, r);
  }

  /** A hard objection is handled at the stage it finds, and remembered with one. */
  lemma ObjectionHeard(s: PlannerState, p: Plan, lead: Lead, stage: Stage, remembered: StoredStage, message: string,
                       r: TurnRecord)
    requires Heard(s, lead, GeneralInfo, [UnknownTopic], PriceObjection, NewRelation, false) && Sound(s, p)
    requires At(lead, stage, remembered) && stage != ObjectionHandling && lead.objection == NO_OBJECTION
    requires r == RecordOf(s, p, message)
    ensures p.macro == HandleObjection && Blocks(r.after.objection) && r.after.objection.type_ == PriceObjection
    ensures At(r.after, stage, if remembered == Blank then Stored(stage) else Stored(NormalizeStage(remembered, New)))
  {
    WhenHandlingMovesTheSale(s, p, stage);
    OnlyHardObjectionsOpen(s, p, r.move, message, r.after.objection);
  }

  lemma ObjectionTurn(policy: SalesPolicy, norm: Normalizer, text: string, lead: Lead, stage: Stage,
                      remembered: StoredStage, r: TurnRecord)
    requires QuotesItself(norm, text) && Keeps(policy)
    requires At(lead, stage, remembered) && stage != ObjectionHandling && lead.objection == NO_OBJECTION
    requires r == TakeTurn(policy, norm, lead, Objects(text))
    ensures r.state.lead == lead && Sound(r.state, r.plan) && r == RecordOf(r.state, r.plan, text)
    ensures r.plan.macro == HandleObjection
    ensures At(r.after, stage, if remembered == Blank then Stored(stage) else Stored(NormalizeStage(remembered, New)))
    ensures Blocks(r.after.objection) && r.after.objection.type_ == PriceObjection
    ensures SoundObjection(r.after.objection)
  {
    SaidState(norm, lead, text, GeneralInfo, [UnknownTopic], PriceObjection, NoneObserved, false, r.state);
    ObjectionHeard(r.state, r.plan, lead, stage, remembered, text, r);
    ObjectionStaysSound(r.state, r.plan, r.move, text, r.after.objection);
  }

  lemma ObjectionHeardAgain(s: PlannerState, p: Plan, lead: Lead)
    requires Heard(s, lead, GeneralInfo, [UnknownTopic], PriceObjection, Continuation, false) && Sound(s, p)
    requires Blocks(lead.objection) && lead.objection.type_ == PriceObjection
    ensures p.macro == HandleObjection
  {
  }

  lemma SameObjectionTurn(policy: SalesPolicy, norm: Normalizer, text: string, lead: Lead, r: TurnRecord)
    requires QuotesItself(norm, text) && Keeps(policy) && Untold(lead)
    requires Blocks(lead.objection) && lead.objection.type_ == PriceObjection
    requires r == TakeTurn(policy, norm, lead, Objects(text))
    ensures r.state.lead == lead && Sound(r.state, r.plan) && r == RecordOf(r.state, r.plan, text)
    ensures r.plan.macro == HandleObjection
  {
    SaidState(norm, lead, text, GeneralInfo, [UnknownTopic], PriceObjection, NoneObserved, false, r.state);
    ObjectionHeardAgain(r.state, r.plan, lead);
  }

  // ---------- the conversation ----------

  /** Where a conversation has come to. */
  ghost predicate Reached(policy: SalesPolicy, norm: Normalizer, past: seq<TurnInput>, lead: Lead) {
    lead == Converse(policy, norm, FRESH, past)
  }

  lemma NextReached(policy: SalesPolicy, norm: Normalizer, past: seq<TurnInput>, lead: Lead, input: TurnInput,
                    next: Lead)
    requires Reached(policy, norm, past, lead) && next == TakeTurn(policy, norm, lead, input).after
    ensures Reached(policy, norm, past + [input], next)
  {
    Runs.RunSnoc(TurnStep(policy, norm), FRESH, past, input);
  }

  lemma StartReached(policy: SalesPolicy, norm: Normalizer, start: Lead)
    requires start == FRESH
    ensures Reached(policy, norm, [], start) && At(start, New, Blank) && start.objection == NO_OBJECTION
  {
  }

  lemma PriceAsked(policy: SalesPolicy, norm: Normalizer, text: string, past: seq<TurnInput>, lead: Lead)
    returns (next: Lead)
    requires policy == PlanFor && QuotesItself(norm, text) && Reached(policy, norm, past, lead)
    requires At(lead, New, Blank) && lead.objection == NO_OBJECTION
    ensures Reached(policy, norm, past + [AsksPrice(text)], next)
    ensures At(next, Educating, Blank) && next.objection == NO_OBJECTION
  {
    var r := TakeTurn(policy, norm, lead, AsksPrice(text));
    PriceTurn(norm, text, lead, r);
    next := r.after;
    NextReached(policy, norm, past, lead, AsksPrice(text), next);
  }

  lemma Objected(policy: SalesPolicy, norm: Normalizer, text: string, past: seq<TurnInput>, lead: Lead, stage: Stage,
                 remembered: StoredStage) returns (next: Lead)
    requires Keeps(policy) && QuotesItself(norm, text) && Reached(policy, norm, past, lead)
    requires At(lead, stage, remembered) && stage != ObjectionHandling && lead.objection == NO_OBJECTION
    ensures Reached(policy, norm, past + [Objects(text)], next)
    ensures At(next, stage, if remembered == Blank then Stored(stage) else Stored(NormalizeStage(remembered, New)))
    ensures SoundObjection(next.objection)
  {
    var r := TakeTurn(policy, norm, lead, Objects(text));
    ObjectionTurn(policy, norm, text, lead, stage, remembered, r);
    next := r.after;
    NextReached(policy, norm, past, lead, Objects(text), next);
  }

  lemma Compared(policy: SalesPolicy, norm: Normalizer, text: string, relation: AnalyzerRelation,
                 past: seq<TurnInput>, lead: Lead, stage: Stage, remembered: StoredStage) returns (next: Lead)
    requires policy == PlanFor && QuotesItself(norm, text) && Reached(policy, norm, past, lead)
    requires At(lead, stage, remembered) && stage != ObjectionHandling && Edge(stage, Comparing)
    requires SoundObjection(lead.objection) && (lead.objection.active ==> relation == ResolvedObserved)
    ensures Reached(policy, norm, past + [Compares(text, relation)], next)
    ensures At(next, Comparing, if remembered == Blank then Blank else Stored(NormalizeStage(remembered, New)))
    ensures !lead.objection.active ==> next.objection == NO_OBJECTION
    ensures !next.objection.active && SoundObjection(next.objection)
  {
    var r := TakeTurn(policy, norm, lead, Compares(text, relation));
    ComparisonTurn(norm, text, lead, relation, stage, remembered, r);
    next := r.after;
    NextReached(policy, norm, past, lead, Compares(text, relation), next);
  }

  /** The price, an objection, its end and a comparison, the comparison again. */
  function FirstFour(text: string): seq<TurnInput> {
    [AsksPrice(text)] + [Objects(text)] + [Compares(text, ResolvedObserved)] + [Compares(text, NoneObserved)]
  }

  /** Comparing, nothing open, and another stage remembered. */
  lemma OldObjectionIsForgotten(policy: SalesPolicy, norm: Normalizer, text: string) returns (lead: Lead)
    requires policy == PlanFor && Keeps(policy) && QuotesItself(norm, text)
    ensures Reached(policy, norm, FirstFour(text), lead)
    ensures At(lead, Comparing, Stored(Educating)) && lead.objection == NO_OBJECTION
  {
    StartReached(policy, norm, FRESH);
    lead := PriceAsked(policy, norm, text, [], FRESH);
    assert [] + [AsksPrice(text)] == [AsksPrice(text)];
    lead := Objected(policy, norm, text, [AsksPrice(text)], lead, Educating, Blank);
    lead := Compared(policy, norm, text, ResolvedObserved, [AsksPrice(text)] + [Objects(text)], lead,
                     Educating, Stored(Educating));
    lead := Compared(policy, norm, text, NoneObserved,
                     [AsksPrice(text)] + [Objects(text)] + [Compares(text, ResolvedObserved)], lead,
                     Comparing, Stored(Educating));
  }

  /** Two more objections: neither asks for a move, both are handled, and the
      second takes the sale back to where the settled objection found it. */
  lemma NewObjectionMovesBack(policy: SalesPolicy, norm: Normalizer, text: string, lead: Lead, r: TurnRecord,
                              q: TurnRecord)
    requires Keeps(policy) && QuotesItself(norm, text)
    requires At(lead, Comparing, Stored(Educating)) && lead.objection == NO_OBJECTION
    requires r == TakeTurn(policy, norm, lead, Objects(text))
    requires q == TakeTurn(policy, norm, r.after, Objects(text))
    ensures r.plan.macro == HandleObjection && r.after.currentStage == Stored(Comparing)
    ensures q.plan.macro == HandleObjection && q.after.currentStage == Stored(Educating)
  {
    ObjectionTurn(policy, norm, text, lead, Comparing, Stored(Educating), r);
    SameObjectionTurn(policy, norm, text, r.after, q);
    StaleMemoryMovesTheSale(r.state, r.plan, text, q.state, q.plan, Comparing, Educating);
  }

  /** From a fresh lead, with the engine's own planner: after five messages the
      sale is comparing, and the sixth, the same objection said again, sends it
      back to educating. */
  lemma AnObjectionMovesTheSaleBack(policy: SalesPolicy, norm: Normalizer, text: string, start: Lead, lead: Lead,
                                    r: TurnRecord, q: TurnRecord)
    requires OwnPlanner(policy) && Fresh(start) && QuotesItself(norm, text)
    requires lead == Converse(policy, norm, start, FirstFour(text))
    requires r == TakeTurn(policy, norm, lead, Objects(text))
    requires q == TakeTurn(policy, norm, r.after, Objects(text))
    ensures r.plan.macro == HandleObjection && r.after.currentStage == Stored(Comparing)
    ensures q.plan.macro == HandleObjection && q.after.currentStage == Stored(Educating)
  {
    ThePlannerKeeps();
    var reached := OldObjectionIsForgotten(policy, norm, text);
    NewObjectionMovesBack(policy, norm, text, lead, r, q);
  }

  // ---------- a turn blocks and leaves nothing open ----------

  /** A hard objection in the first message of someone who says he has bought and
      has not: the turn blocks, no objection is stored, and its micro action is not
      one the published table lists. */
  lemma RaisedByABuyer(policy: SalesPolicy, norm: Normalizer, text: string, start: Lead, r: TurnRecord)
    requires OwnPlanner(policy) && Fresh(start) && QuotesItself(norm, text)
    requires r == TakeTurn(policy, norm, start,
                           Says(text, PostPurchaseRequest, [PostPurchaseTopic], PriceObjection, NoneObserved, true))
    ensures RaisedWhileLeaving(r.state) && BlockingView(r.plan) && !Blocks(r.after.objection)
    ensures !MicroAllowed(r.plan.macro, r.plan.micro)
  {
    ThePlannerKeeps();
    FreshIsSound();
    SaidState(norm, start, text, PostPurchaseRequest, [PostPurchaseTopic], PriceObjection, NoneObserved, true, r.state);
    BuyerIsLeaving(r.state, r.plan, start);
    OverlayFollowsObjection(r.state, r.plan, r.move, text, r.after.objection);
  }

  lemma BuyerIsLeaving(s: PlannerState, p: Plan, start: Lead)
    requires Heard(s, start, PostPurchaseRequest, [PostPurchaseTopic], PriceObjection, NewRelation, true)
    requires Fresh(start) && Sound(s, p)
    ensures RaisedWhileLeaving(s) && !MicroAllowed(p.macro, p.micro)
  {
  }

  /** The objection of the first message, raised again and called resolved in the
      second: that turn blocks, and leaves the objection closed. */
  lemma RaisedAndResolvedAtOnce(policy: SalesPolicy, norm: Normalizer, text: string, start: Lead, first: TurnRecord,
                                r: TurnRecord)
    requires OwnPlanner(policy) && Fresh(start) && QuotesItself(norm, text)
    requires first == TakeTurn(policy, norm, start, Objects(text))
    requires r == TakeTurn(policy, norm, first.after,
                           Says(text, GeneralInfo, [UnknownTopic], PriceObjection, ResolvedObserved, false))
    ensures RaisedAndResolved(r.state) && BlockingView(r.plan) && !Blocks(r.after.objection)
  {
    ThePlannerKeeps();
    ObjectionTurn(policy, norm, text, start, New, Blank, first);
    SettledTwice(policy, norm, text, first.after, r);
  }

  lemma SettledTwice(policy: SalesPolicy, norm: Normalizer, text: string, lead: Lead, r: TurnRecord)
    requires Keeps(policy) && QuotesItself(norm, text) && Untold(lead)
    requires Blocks(lead.objection) && lead.objection.type_ == PriceObjection && SoundObjection(lead.objection)
    requires r == TakeTurn(policy, norm, lead,
                           Says(text, GeneralInfo, [UnknownTopic], PriceObjection, ResolvedObserved, false))
    ensures RaisedAndResolved(r.state) && BlockingView(r.plan) && !Blocks(r.after.objection)
  {
    SaidState(norm, lead, text, GeneralInfo, [UnknownTopic], PriceObjection, ResolvedObserved, false, r.state);
    AgainAndResolved(r.state, lead);
    OverlayFollowsObjection(r.state, r.plan, r.move, text, r.after.objection);
  }

  lemma AgainAndResolved(s: PlannerState, lead: Lead)
    requires Heard(s, lead, GeneralInfo, [UnknownTopic], PriceObjection, ResolvedRelation, false)
    requires Blocks(lead.objection) && lead.objection.type_ == PriceObjection
    ensures RaisedAndResolved(s)
  {
  }

  // ---------- the objection stage stays inside an objection ----------

  /** A lead of the first version: its open objection remembers the objection stage. */
  const LEGACY: Lead :=
    FRESH.(objection := Objection(true, PriceObjection, Hard, ActiveStatus, NewRelation, ClarifyValue, 1, 1,
                                  Some(ObjectionHandling), "", false, false, NoReason, NoReason))

  /** It goes on remembering it, through any conversation that leaves the
      objection open; an objection said again is one. */
  lemma ObjectionStageStays(policy: SalesPolicy, norm: Normalizer, inputs: seq<TurnInput>, text: string)
    requires Keeps(policy) && Undisturbed(norm, inputs, PriceObjection)
    ensures Converse(policy, norm, LEGACY, inputs).objection.stageBefore == Some(ObjectionHandling)
    ensures Undisturbed(norm, [Objects(text)], PriceObjection)
  {
    FreshIsSound();
    UndisturbedRunEndures(policy, norm, LEGACY, inputs, Converse(policy, norm, LEGACY, inputs));
  }
}

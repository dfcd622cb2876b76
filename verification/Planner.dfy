/** The sales policy: one plan for each turn, by a fixed order of priorities
    (agent/planners.py). */
module Planner {
  import opened Commercial
  import opened Requirements
  import opened RequirementDelta
  import opened Leads
  import opened TurnNormalizer
  import opened LeadState

  /** The state a turn is planned in; `lead` is already updated with the turn. */
  datatype PlannerState = PlannerState(
    lead: Lead,
    turn: Turn,
    memory: Memory,
    cues: MessageCues,
    paymentConfirmed: bool)
  {
    function Analysis(): Analysis { turn.analysis }

    function Ledger(): Ledger { lead.profile.ledger }

    function Objection(): Objection { lead.objection }

    /** `_planner_action_requirement` */
    function Requirement(): ActionRequirement {
      var derived := ActionRequirementOf(Ledger().class_);
      if derived != UnknownRequirement then derived else memory.actionRequirement
    }

    /** The product committed to, now or before. */
    function Commitment(): Option<Product> { Either(lead.profile.confirmed, lead.profile.selected) }

    /** `_planner_product_fit` */
    function Fit(): ProductFit {
      var derived := ProductFitOf(Ledger());
      if turn.requested == Some(Ventas) then VentasUnavailable
      else if turn.requested == Some(ProComercial) then ProComercialUnavailable
      else if derived != UnknownFit then derived
      else if memory.knownFit != UnknownFit then memory.knownFit
      else if Available(Commitment()) then FitFor(Commitment().value)
      else UnknownFit
    }

    function Flags(): set<ScopeFlag> { ScopeFlags(Ledger(), turn.requested) }

    predicate Topic(topic: Topic) { topic in turn.analysis.topics }

    predicate AtStage(stage: Stage) { lead.currentStage == Stored(stage) }
  }

  datatype Overlay = Overlay(
    mode: ConversationMode, relation: ObjectionRelation, type_: ObjectionType, strength: ObjectionStrength,
    status: ObjectionStatus, step: FlowStep, inline: bool, blockingClose: bool)

  datatype Plan = Plan(
    macro: MacroAction, micro: MicroAction, cta: CtaType, target: Stage, step: FlowStep,
    key: Option<QuestionKey>, overlay: Option<Overlay>)

  function Say(macro: MacroAction, micro: MicroAction, cta: CtaType, target: Stage): Plan {
    Plan(macro, micro, cta, target, NoStep, None, None)
  }

  function Ask(macro: MacroAction, micro: MicroAction, cta: CtaType, target: Stage, key: Option<QuestionKey>): Plan {
    Plan(macro, micro, cta, target, NoStep, key, None)
  }

  function Handle(micro: MicroAction, cta: CtaType, target: Stage, step: FlowStep): Plan {
    Plan(HandleObjection, micro, cta, target, step, None, None)
  }

  // ---------- what the planner asks of the state ----------

  predicate SupportHandoffRequested(s: PlannerState) {
    && s.Analysis().intent == SupportRequest
    && (s.lead.profile.existingClient || s.AtStage(PostPurchase) || s.AtStage(Handoff))
  }

  predicate PausesObjection(s: PlannerState) {
    var a := s.Analysis();
    && !a.HasObjection() && !a.explicitStart && a.relation != ResolvedRelation
    && a.intent in {PricingQuestion, CheapestPlanQuestion, ProductScopeQuestion, PlatformStepsQuestion,
                    OnboardingQuestion, PolicyQuestion, ChannelQuestion, IntegrationQuestion, ComparisonQuestion}
  }

  predicate ResolvesObjection(s: PlannerState) {
    && Blocks(s.Objection()) && !s.Analysis().HasObjection()
    && s.Analysis().relation == ResolvedRelation
  }

  predicate ProcessesIntentAfterResolution(s: PlannerState) {
    var a := s.Analysis();
    || a.explicitStart
    || a.intent in {PricingQuestion, CheapestPlanQuestion, ProductScopeQuestion, ProductRecommendationQuestion,
                    PlatformStepsQuestion, OnboardingQuestion, PolicyQuestion, ChannelQuestion,
                    IntegrationQuestion, ComparisonQuestion, IndustryFitQuestion}
  }

  predicate ReplacesObjection(s: PlannerState) {
    s.Objection().active && s.Analysis().HasObjection() && s.Analysis().objectionType != s.Objection().type_
  }

  /** `_semantic_active_objection_step` */
  function NextObjectionStep(s: PlannerState): FlowStep {
    var relation, step := s.Analysis().relation, s.Objection().step;
    if relation == ResolvedRelation then ResolvedStep
    else if s.cues.proof then ProvideProof
    else if relation == Clarified then if step == NoStep || step == ThankAndAsk then ClarifyValue else TieSolution
    else if relation == Continuation || relation == Reaffirmed then
      if step == NoStep || step == ThankAndAsk then ClarifyValue else step
    else if s.cues.value then TieSolution
    else if step == ThankAndAsk || step == NoStep || step == ResolvedStep then ClarifyValue
    else step
  }

  function MicroForStep(step: FlowStep): MicroAction {
    match step
    case ThankAndAsk => ValidateAndClarifyObjection
    case ClarifyValue => ClarifyObjectionValue
    case TieSolution => TieSolutionToObjection
    case ProvideProof => ProvideObjectionProof
    case CloseOrContinue => CloseOrContinueObjection
    case ResolvedStep => CloseOrContinueObjection
    case NoStep => ClarifyObjectionValue
  }

  /** `_current_commercial_stage`: the stage the sale is at while an objection is handled. */
  function CommercialStage(s: PlannerState): Stage {
    var before := if s.Objection().stageBefore.Some? then Stored(s.Objection().stageBefore.value) else Blank;
    var first := FirstStage([before, s.lead.currentStage, s.lead.previousStage]);
    var candidate := if first == Stored(ObjectionHandling) then FirstStage([s.lead.previousStage, before]) else first;
    if candidate.Stored? && candidate.stage != ObjectionHandling then candidate.stage else Discovery
  }

  function FirstStage(candidates: seq<StoredStage>): StoredStage {
    if candidates == [] then Stored(Discovery)
    else if candidates[0] != Blank then candidates[0]
    else FirstStage(candidates[1..])
  }

  predicate CanDirectClose(s: PlannerState) {
    var a := s.Analysis();
    var committed := s.Commitment();
    && a.explicitStart && !a.postPurchase
    && Available(committed)
    && s.Fit() in {UnknownFit, CapturaFit, HibridoFit}
    && (s.Fit() == UnknownFit || s.Fit() == FitFor(committed.value))
    && UnsupportedScope !in s.Flags() && CustomScopeReviewRequired !in s.Flags() && PreferenceMismatch !in s.Flags()
    && !(Blocks(s.Objection()) && !ResolvesObjection(s))
    && !a.NewHard()
  }

  predicate FirstTouchGreeting(s: PlannerState) {
    var l, p := s.Ledger(), s.lead.profile;
    && s.Analysis().intent == Greeting
    && s.lead.lastAction.None?
    && (forall topic | topic in s.Analysis().topics :: topic == UnknownTopic)
    && (s.lead.currentStage == Blank || s.AtStage(New) || s.AtStage(UnknownRecovery))
    && !(s.Objection().active || s.Objection().paused || s.Objection().status in {ActiveStatus, PausedStatus})
    && s.memory.businessType == "" && s.memory.mainChannel == "" && s.memory.painOrGoal == ""
    && s.memory.actionRequirement == UnknownRequirement && s.memory.knownFit == UnknownFit
    && p.actionRequirement == UnknownRequirement && p.knownFit == UnknownFit
    && l.class_ == UnknownClass && l.declared.None?
    && l.problems == [] && l.informational == [] && l.sales == [] && l.actions == []
    && p.context.referenced.None? && p.context.active.None?
    && p.context.selected.None? && p.context.confirmed.None?
  }

  function KnownBusinessType(s: PlannerState): string { OrElse(s.Analysis().businessType, s.lead.businessType) }

  function KnownMainChannel(s: PlannerState): string { OrElse(s.Analysis().mainChannel, s.lead.mainChannel) }

  function KnownPain(s: PlannerState): string { OrElse(s.Analysis().pain, s.lead.pain) }

  predicate KnownActionRequirement(s: PlannerState) {
    || s.Requirement() != UnknownRequirement || s.Ledger().class_ != UnknownClass
    || s.Fit() == HibridoFit || s.lead.profile.context.active == Some(Hibrido)
  }

  function MissingDiscoveryKey(s: PlannerState): Option<QuestionKey> {
    if s.memory.businessType == "" && KnownBusinessType(s) == "" then Some(BusinessTypeKey)
    else if s.memory.mainChannel == "" && KnownMainChannel(s) == "" then Some(MainChannelKey)
    else if s.memory.painOrGoal == "" && KnownPain(s) == "" then Some(PainOrGoalKey)
    else if !KnownActionRequirement(s) then Some(ActionRequirementKey)
    else None
  }

  predicate MustDiscoverActionRequirement(s: PlannerState) {
    && !KnownActionRequirement(s)
    && (|| s.Analysis().intent in {ProductRecommendationQuestion, ProductScopeQuestion}
        || (KnownPain(s) != ""
            && (KnownBusinessType(s) != "" || KnownMainChannel(s) != ""
                || s.AtStage(Discovery) || s.AtStage(Educating))))
  }

  predicate PreferenceMismatched(s: PlannerState) {
    || s.turn.mismatch
    || (s.turn.requested == Some(Captura) && s.Requirement() == ExternalActionsRequired)
    || (s.turn.requested == Some(Hibrido) && s.Requirement() == AnswersOnly)
  }

  predicate UnknownTurn(s: PlannerState) {
    && !s.Analysis().skeptical
    && s.Ledger().class_ == UnknownClass && s.Requirement() == UnknownRequirement
    && s.Fit() != CapturaFit && s.Fit() != HibridoFit
    && s.turn.frame.act !in {Accept, Decline, ProvideAnswer, AskFollowup}
    && (s.Analysis().intent == UnknownIntent || s.Analysis().topics == [UnknownTopic])
  }

  predicate AlreadyRecommended(s: PlannerState) {
    || s.lead.lastAction == Some(RecommendSolution)
    || s.AtStage(SolutionRecommended) || s.lead.currentStage == LegacyRecommended
  }

  function RecommendableFit(s: PlannerState): ProductFit {
    var derived := ProductFitOf(s.Ledger());
    if PreferenceMismatched(s) then UnknownFit
    else if derived == CapturaFit || derived == HibridoFit then derived
    else if s.Fit() == CapturaFit || s.Fit() == HibridoFit then s.Fit()
    else UnknownFit
  }

  predicate CanSoftClose(s: PlannerState) {
    && s.Analysis().signal in {Medium, High}
    && s.Fit() in {CapturaFit, HibridoFit}
    && AlreadyRecommended(s)
    && !Blocks(s.Objection()) && !s.Analysis().NewHard() && !s.Analysis().HasObjection()
  }

  // ---------- micro actions ----------

  function DefaultRecommendation(s: PlannerState): MicroAction {
    if s.Fit() == HibridoFit || s.Requirement() == ExternalActionsRequired then RecommendHibrido else RecommendCaptura
  }

  function RiskReversalMicro(s: PlannerState): MicroAction {
    if s.Topic(ClientReview) then ExplainClientReview
    else if s.Topic(SupportTopic) then ExplainHumanHandoff
    else if s.Topic(Whatsapp) || s.Topic(Integration) then ExplainOfficialMetaConnection
    else ExplainTestingBeforeRelease
  }

  function ProcessMicro(s: PlannerState): MicroAction {
    if s.Topic(Documents) then ExplainDocuments
    else if s.Topic(ConversationExamples) then ExplainConversationExamples
    else if s.Topic(ClientReview) then ExplainClientReview
    else if s.Topic(Activation) then ExplainActivation
    else if s.Topic(Deposit) then ExplainDeposit
    else ExplainAppRegistration
  }

  function ComparisonMicro(s: PlannerState): MicroAction {
    if s.cues.whatsappBusiness then CompareWhatsappBusinessOnly
    else if s.cues.receptionist then CompareHumanReceptionist
    else if s.cues.customDevelopment then CompareCustomDevelopment
    else if s.cues.chatbot && !s.cues.manychat then CompareBasicChatbot
    else CompareManychat
  }

  function PersuasionMicro(s: PlannerState): MicroAction {
    if KnownBusinessType(s) != "" then IndustrySpecificValue
    else if KnownPain(s) != "" then OpportunityCost
    else LogicalValue
  }

  function DiscoveryMicro(key: QuestionKey): MicroAction {
    match key
    case BusinessTypeKey => AskBusinessType
    case MainChannelKey => AskMainChannel
    case PainOrGoalKey => AskPainOrGoal
    case _ => AskActionRequirement
  }

  // ---------- the plan ----------

  function DiscoveryPlan(key: QuestionKey): Plan {
    Ask(DiscoverNeed, DiscoveryMicro(key), DiscoveryQuestion, Discovery, Some(key))
  }

  function UnavailableProductPlan(s: PlannerState): Option<Plan> {
    match s.Fit()
    case VentasUnavailable => Some(Say(RecommendSolution, ExplainVentasNotAvailable, SoftQuestion, Educating))
    case ProComercialUnavailable =>
      Some(Say(RecommendSolution, ExplainProComercialNotAvailable, SoftQuestion, Educating))
    case CustomReview => Some(Say(HandoffToMiguel, RedirectCustomScope, RedirectToMiguel, Handoff))
    case _ => None
  }

  function ExactQuestionPlan(s: PlannerState): Option<Plan> {
    var intent, missing := s.Analysis().intent, MissingDiscoveryKey(s);
    if intent == PricingQuestion || intent == CheapestPlanQuestion then
      Some(Ask(AnswerAndAdvance, AnswerPriceThenExplainScope, SoftQuestion, Educating, missing))
    else if intent == ChannelQuestion then
      Some(Ask(AnswerAndAdvance, AnswerChannelThenDiscoverMainChannel, SoftQuestion, Educating, missing))
    else if intent == ProductScopeQuestion && s.Requirement() != ExternalActionsRequired then
      Some(Ask(AnswerAndAdvance, AnswerScopeThenDiscoverBusiness, SoftQuestion, Educating, missing))
    else None
  }

  function ContinuationPlan(s: PlannerState): Option<Plan> {
    var frame := s.turn.frame;
    if frame.act !in {Accept, AskFollowup} || !frame.asksToExplain then None
    else if frame.target == Some(Hibrido) then
      Some(Say(RecommendSolution, RecommendHibrido, SoftQuestion, SolutionRecommended))
    else if frame.target == Some(Captura) then
      Some(Say(RecommendSolution, RecommendCaptura, SoftQuestion, SolutionRecommended))
    else None
  }

  function ComparisonPlan(s: PlannerState): Plan {
    var missing := MissingDiscoveryKey(s);
    if |ProductsIn(s.turn.references)| > 1 then
      Ask(NarrowSolution, DifferentiateCapturaVsHibrido,
          if missing.Some? then DiscoveryQuestion else SoftQuestion, Comparing, missing)
    else Ask(CompareAlternative, ComparisonMicro(s), DiscoveryQuestion, Comparing, missing)
  }

  function RecommendationPlan(s: PlannerState): Option<Plan> {
    var fit := RecommendableFit(s);
    if AlreadyRecommended(s) then None
    else if fit == CapturaFit then
      Some(Say(RecommendSolution, RecommendCaptura, AskPermission, SolutionRecommended))
    else if fit == HibridoFit && !PreferenceMismatched(s) then
      Some(Say(RecommendSolution, RecommendHibrido, AskPermission, SolutionRecommended))
    else if s.Analysis().intent == ProductRecommendationQuestion && s.Requirement() != UnknownRequirement then
      Some(Say(RecommendSolution, DefaultRecommendation(s), SoftCloseCta, SolutionRecommended))
    else None
  }

  predicate NeedsRiskReversal(s: PlannerState) {
    s.Topic(RefundPolicy) || s.Topic(ClientReview) || s.Topic(SupportTopic) || s.Topic(Deposit) || s.Topic(FinalPayment)
  }

  /** Answers owed to the message: an unavailable fit, an exact question, a
      continuation, a channel that is not served. */
  function AnswerDraft(s: PlannerState): Option<Plan> {
    if UnavailableProductPlan(s).Some? then UnavailableProductPlan(s)
    else if ExactQuestionPlan(s).Some? then ExactQuestionPlan(s)
    else if ContinuationPlan(s).Some? then ContinuationPlan(s)
    else if s.cues.unsupportedChannel then
      Some(Ask(AnswerAndAdvance, AnswerChannelThenDiscoverMainChannel, SoftQuestion, Educating, MissingDiscoveryKey(s)))
    else None
  }

  /** Answers owed to the topics of the message. */
  function TopicDraft(s: PlannerState): Option<Plan> {
    if NeedsRiskReversal(s) then Some(Say(RiskReversal, RiskReversalMicro(s), SoftQuestion, Educating))
    else if s.Topic(PlatformProcess) || s.Topic(Onboarding) then
      Some(Say(ExplainProcess, ProcessMicro(s), ExplainNextStep, Educating))
    else if s.Topic(CompetitorComparisonTopic) then Some(ComparisonPlan(s))
    else None
  }

  /** What has to be cleared up before the sale can advance. */
  function ClarifyDraft(s: PlannerState): Option<Plan> {
    if UnknownTurn(s) then
      Some(Ask(AnswerUnknownSafely, AskSingleClarifyingQuestion, SoftQuestion, UnknownRecovery, Some(AutomationNeed)))
    else if MustDiscoverActionRequirement(s) then Some(DiscoveryPlan(ActionRequirementKey))
    else if s.Analysis().skeptical then
      Some(Ask(PersuadeValue, LogicalValue, DiscoveryQuestion, Educating, Some(BusinessTypeKey)))
    else if PreferenceMismatched(s) then
      Some(Ask(NarrowSolution, DifferentiateCapturaVsHibrido, DiscoveryQuestion, Qualified, Some(ActionRequirementKey)))
    else None
  }

  /** The next move of the sale. */
  function AdvanceDraft(s: PlannerState): Plan {
    var missing := MissingDiscoveryKey(s);
    if RecommendationPlan(s).Some? then RecommendationPlan(s).value
    else if missing.Some? then DiscoveryPlan(missing.value)
    else if CanSoftClose(s) then Say(SoftClose, AskPermissionToSendLink, AskPermission, ReadyToStart)
    else if s.Topic(BusinessFit) || s.Topic(IndustryUseCase) || s.Topic(Demo) then
      Say(PersuadeValue, PersuasionMicro(s), SoftQuestion, Educating)
    else Say(RecommendSolution, DefaultRecommendation(s), SoftCloseCta, SolutionRecommended)
  }

  function First(candidate: Option<Plan>, otherwise: Plan): Plan {
    if candidate.Some? then candidate.value else otherwise
  }

  /** The part of the policy that never touches an objection or a close. */
  function SalesDraft(s: PlannerState): Plan {
    if FirstTouchGreeting(s) then
      Ask(AnswerAndAdvance, AnswerGeneralThenDiscoverNeed, SoftQuestion, New, Some(EntryIntent))
    else First(AnswerDraft(s), First(TopicDraft(s), First(ClarifyDraft(s), AdvanceDraft(s))))
  }

  /** `_plan_state`, before the question contract and the overlay are applied;
      `sales` is the plan of the turn if nothing takes precedence over the sale. */
  function Prioritised(s: PlannerState, sales: Plan): Plan {
    var a := s.Analysis();
    if a.postPurchase then
      if !s.paymentConfirmed then Say(ExplainProcess, ExplainHumanHandoff, NoCta, Educating)
      else Say(HandoffToMiguel, RedirectPostPurchase, RedirectToMiguel, Handoff)
    else if SupportHandoffRequested(s) then Say(HandoffToMiguel, RedirectExistingClient, RedirectToMiguel, Handoff)
    else if Blocks(s.Objection()) && ResolvesObjection(s) && !ProcessesIntentAfterResolution(s) then
      Handle(CloseOrContinueObjection, SoftQuestion, CommercialStage(s), ResolvedStep)
    else if Blocks(s.Objection()) && !ResolvesObjection(s) && !PausesObjection(s) then
      if ReplacesObjection(s) then
        Handle(ValidateAndClarifyObjection, ObjectionQuestion, CommercialStage(s), ThankAndAsk)
      else
        var step := NextObjectionStep(s);
        Handle(MicroForStep(step), ObjectionQuestion, CommercialStage(s), step)
    else if a.NewHard() then
      Handle(ValidateAndClarifyObjection, ObjectionQuestion, CommercialStage(s), ThankAndAsk)
    else if a.explicitStart && CanDirectClose(s) then
      Say(DirectClose, SendAppLinkAndDepositStep, DirectCloseCta, Closing)
    else sales
  }

  /** `_objection_overlay_for_plan` */
  function OverlayFor(s: PlannerState, p: Plan): Option<Overlay> {
    var a, o := s.Analysis(), s.Objection();
    if a.NewHard() then
      Some(Overlay(HandlingObjection, NewRelation, a.objectionType, a.objectionStrength, ActiveStatus, p.step,
                   false, true))
    else if Blocks(o) then
      if p.step == ResolvedStep || ResolvesObjection(s) then
        Some(Overlay(NormalMode, ResolvedRelation, o.type_, o.strength, ResolvedStatus, ResolvedStep, false, false))
      else if p.macro == HandleObjection then
        Some(Overlay(HandlingObjection, RelationOr(a, Continuation), o.type_, o.strength, ActiveStatus, p.step,
                     false, true))
      else
        Some(Overlay(HandlingObjection, RelationOr(a, Unrelated), o.type_, o.strength, PausedStatus, o.step,
                     true, true))
    else if a.HasObjection() then
      Some(Overlay(NormalMode, NewRelation, a.objectionType, a.objectionStrength, NoStatus, NoStep, true, false))
    else if a.skeptical then
      Some(Overlay(NormalMode, NoRelation, NoObjection, Soft, NoStatus, NoStep, true, false))
    else None
  }

  function RelationOr(a: Analysis, default_: ObjectionRelation): ObjectionRelation {
    if a.relation != NoRelation then a.relation else default_
  }

  /** `_question_contract_updates` */
  function WithQuestion(m: Memory, p: Plan): Plan {
    var next := m.NextQuestion();
    if !IsQuestion(p.cta) then p
    else if p.cta == ObjectionQuestion && p.key.None? then p.(key := Some(ObjectionClarification))
    else if p.key.Some? && !m.Forbids(p.key.value) then p
    else if next.Some? then p.(key := next)
    else p.(cta := NoCta, key := None)
  }

  /** `_finalize_plan` */
  function Finalized(s: PlannerState, draft: Plan): Plan {
    WithQuestion(s.memory, draft.(overlay := OverlayFor(s, draft)))
  }

  /** `SalesPolicyPlanner.plan` */
  function PlanFor(s: PlannerState): Plan {
    Finalized(s, Prioritised(s, SalesDraft(s)))
  }

  // ---------- what each branch can plan ----------

  /** What every plan outside objections and closes looks like. */
  ghost predicate SalesShape(p: Plan) {
    && p.macro != HandleObjection && p.macro != DirectClose
    && p.step == NoStep
    && p.target != Closing && p.target != PostPurchase && p.target != ObjectionHandling
    && (p.target == Handoff <==> p.macro == HandoffToMiguel)
    && (p.key.Some? ==> IsQuestion(p.cta))
    && MicroAllowed(p.macro, p.micro)
  }

  ghost predicate SalesShaped(candidate: Option<Plan>) {
    candidate.Some? ==> SalesShape(candidate.value)
  }

  lemma AnswerDraftShape(s: PlannerState)
    ensures SalesShaped(AnswerDraft(s))
  {
  }

  lemma TopicMicros(s: PlannerState)
    ensures MicroAllowed(RiskReversal, RiskReversalMicro(s))
    ensures MicroAllowed(ExplainProcess, ProcessMicro(s))
    ensures MicroAllowed(PersuadeValue, PersuasionMicro(s))
    ensures MicroAllowed(RecommendSolution, DefaultRecommendation(s))
    ensures MicroAllowed(CompareAlternative, ComparisonMicro(s))
  {
  }

  lemma TopicDraftShape(s: PlannerState)
    ensures SalesShaped(TopicDraft(s))
  {
    TopicMicros(s);
  }

  lemma DiscoveryShape(key: QuestionKey)
    ensures SalesShape(DiscoveryPlan(key))
  {
  }

  lemma ClarifyDraftShape(s: PlannerState)
    ensures SalesShaped(ClarifyDraft(s))
  {
    DiscoveryShape(ActionRequirementKey);
  }

  lemma RecommendationShape(s: PlannerState)
    ensures SalesShaped(RecommendationPlan(s))
  {
  }

  lemma AdvanceDraftShape(s: PlannerState)
    ensures SalesShape(AdvanceDraft(s))
  {
    RecommendationShape(s);
    TopicMicros(s);
    if MissingDiscoveryKey(s).Some? {
      DiscoveryShape(MissingDiscoveryKey(s).value);
    }
  }

  lemma FirstShape(candidate: Option<Plan>, otherwise: Plan)
    requires SalesShaped(candidate) && SalesShape(otherwise)
    ensures SalesShape(First(candidate, otherwise))
  {
  }

  lemma SalesDraftShape(s: PlannerState)
    ensures SalesShape(SalesDraft(s))
  {
    AnswerDraftShape(s);
    TopicDraftShape(s);
    ClarifyDraftShape(s);
    AdvanceDraftShape(s);
    FirstShape(ClarifyDraft(s), AdvanceDraft(s));
    FirstShape(TopicDraft(s), First(ClarifyDraft(s), AdvanceDraft(s)));
    FirstShape(AnswerDraft(s), First(TopicDraft(s), First(ClarifyDraft(s), AdvanceDraft(s))));
  }

  // ---------- what every plan promises ----------

  /** The call to action is a question exactly when a question is planned, and
      that question never asks what is already known. */
  ghost predicate HonoursQuestions(s: PlannerState, p: Plan) {
    && (IsQuestion(p.cta) <==> p.key.Some?)
    && (p.key.Some? ==> !s.memory.Forbids(p.key.value))
  }

  /** The published table of micro actions by macro action is kept by every plan
      but one: a post-purchase turn whose payment is not confirmed. */
  ghost predicate HonoursMicroTable(s: PlannerState, p: Plan) {
    MicroAllowed(p.macro, p.micro) <==> !(s.Analysis().postPurchase && !s.paymentConfirmed)
  }

  /** No one asks for a handover, neither after a purchase nor as a client. */
  predicate InSale(s: PlannerState) {
    !s.Analysis().postPurchase && !SupportHandoffRequested(s)
  }

  /** When an objection is handled, and when a close is made. */
  ghost predicate HonoursPriorities(s: PlannerState, p: Plan) {
    && (p.macro == HandleObjection <==>
          InSale(s) && if Blocks(s.Objection())
                       then if ResolvesObjection(s) then !ProcessesIntentAfterResolution(s) else !PausesObjection(s)
                       else s.Analysis().NewHard())
    && (p.macro == DirectClose <==> InSale(s) && CanDirectClose(s))
    && (p.macro == DirectClose ==> p.cta == DirectCloseCta)
  }

  /** Which step of the objection flow a plan carries. */
  ghost predicate HonoursSteps(s: PlannerState, p: Plan) {
    if p.macro != HandleObjection then p.step == NoStep
    else if Blocks(s.Objection()) && ResolvesObjection(s) then p.step == ResolvedStep
    else if Blocks(s.Objection()) && !ReplacesObjection(s) then p.step == NextObjectionStep(s)
    else p.step == ThankAndAsk
  }

  /** Where a plan can lead. */
  ghost predicate HonoursTargets(s: PlannerState, p: Plan) {
    if p.macro == HandleObjection then p.target == CommercialStage(s)
    else
      && p.target != PostPurchase && p.target != ObjectionHandling
      && (p.target == Closing <==> p.macro == DirectClose)
      && (p.target == Handoff <==> p.macro == HandoffToMiguel)
  }

  ghost predicate Sound(s: PlannerState, p: Plan) {
    && HonoursQuestions(s, p) && HonoursMicroTable(s, p) && HonoursPriorities(s, p)
    && HonoursSteps(s, p) && HonoursTargets(s, p)
    && p.overlay == OverlayFor(s, p)
  }

  lemma StepMicros(step: FlowStep)
    ensures MicroAllowed(HandleObjection, MicroForStep(step))
  {
  }

  lemma PrioritisedKeys(s: PlannerState, sales: Plan)
    requires SalesShape(sales)
    ensures var p := Prioritised(s, sales); p.key.Some? ==> IsQuestion(p.cta)
  {
  }

  lemma PrioritisedMicros(s: PlannerState, sales: Plan)
    requires SalesShape(sales)
    ensures HonoursMicroTable(s, Prioritised(s, sales))
  {
    StepMicros(NextObjectionStep(s));
  }

  lemma PrioritisedMoves(s: PlannerState, sales: Plan)
    requires SalesShape(sales)
    ensures var p := Prioritised(s, sales); HonoursPriorities(s, p) && HonoursSteps(s, p) && HonoursTargets(s, p)
  {
  }

  /** Finishing a plan changes its question and its overlay, nothing else. */
  lemma FinalizedKeeps(s: PlannerState, draft: Plan)
    requires draft.key.Some? ==> IsQuestion(draft.cta)
    ensures var p := Finalized(s, draft);
            && p.macro == draft.macro && p.micro == draft.micro && p.target == draft.target && p.step == draft.step
            && p.overlay == OverlayFor(s, draft) && HonoursQuestions(s, p)
            && (!IsQuestion(draft.cta) ==> p.cta == draft.cta)
  {
    NextQuestionIsAllowed(s.memory);
  }

  lemma OverlayByMove(s: PlannerState, p: Plan, q: Plan)
    requires p.macro == q.macro && p.step == q.step
    ensures OverlayFor(s, p) == OverlayFor(s, q)
  {
  }

  lemma FinalizedIsSound(s: PlannerState, draft: Plan, p: Plan)
    requires draft.key.Some? ==> IsQuestion(draft.cta)
    requires HonoursMicroTable(s, draft) && HonoursPriorities(s, draft)
    requires HonoursSteps(s, draft) && HonoursTargets(s, draft)
    requires p == Finalized(s, draft)
    ensures Sound(s, p)
  {
    FinalizedKeeps(s, draft);
    OverlayByMove(s, p, draft);
  }

  lemma PrioritisedIsSound(s: PlannerState, sales: Plan, p: Plan)
    requires SalesShape(sales) && p == Finalized(s, Prioritised(s, sales))
    ensures Sound(s, p)
  {
    PrioritisedKeys(s, sales);
    PrioritisedMicros(s, sales);
    PrioritisedMoves(s, sales);
    FinalizedIsSound(s, Prioritised(s, sales), p);
  }

  /** Every plan, in every branch, keeps all five promises. */
  lemma PlanIsSound(s: PlannerState, p: Plan)
    requires p == PlanFor(s)
    ensures Sound(s, p)
  {
    SalesDraftShape(s);
    PrioritisedIsSound(s, SalesDraft(s), p);
  }
}

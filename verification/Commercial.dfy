/** The commercial vocabulary shared by the planner, the stage machine and the
    objection flow (contracts/commercial.py). */
module Commercial {

  datatype Option<+T> = None | Some(value: T)

  datatype Intent =
    | Greeting | GeneralInfo | PricingQuestion | CheapestPlanQuestion | ProductScopeQuestion
    | ProductRecommendationQuestion | PlatformStepsQuestion | OnboardingQuestion | PolicyQuestion
    | ChannelQuestion | IntegrationQuestion | IndustryFitQuestion | ComparisonQuestion
    | ExplicitStartRequest | PostPurchaseRequest | SupportRequest | UnknownIntent

  datatype Topic =
    | Pricing | ProductScope | ProductRecommendation | PlatformProcess | Onboarding | Deposit
    | FinalPayment | MonthlyPayment | RefundPolicy | SupportTopic | TokenUsage | Whatsapp | Facebook
    | Instagram | Integration | BusinessFit | IndustryUseCase | CompetitorComparisonTopic
    | HumanHandoff | Demo | Documents | ConversationExamples | ClientReview | Activation
    | PostPurchaseTopic | UnknownTopic

  datatype ObjectionType =
    | NoObjection | PriceObjection | TrustObjection | FearWrongAnswers | AlreadyHavePerson
    | AlreadyUseWhatsappBusiness | NeedToThink | WantsFreeTrial | CompetitorComparison
    | NotSureIfNeeded | ScopeObjection | ChannelConnectionConcern | SupportConcern

  datatype ObjectionStrength = NoStrength | Soft | Hard

  datatype ObjectionRelation =
    | NoRelation | NewRelation | Continuation | Reaffirmed | Clarified | ResolvedRelation | Unrelated

  datatype ObjectionStatus = NoStatus | ActiveStatus | PausedStatus | ResolvedStatus

  datatype FlowStep =
    | NoStep | ThankAndAsk | ClarifyValue | TieSolution | ProvideProof | CloseOrContinue | ResolvedStep

  datatype ConversationMode = NormalMode | HandlingObjection

  datatype BuyingSignal = NoSignal | Low | Medium | High | ExplicitStart

  datatype ActionRequirement = AnswersOnly | ExternalActionsRequired | UnknownRequirement

  datatype ProductFit =
    | UnknownFit | CapturaFit | HibridoFit | VentasUnavailable | ProComercialUnavailable | CustomReview

  /** The products a lead can name; `UnknownProduct` is named but not in the catalogue. */
  datatype Product = Captura | Hibrido | Ventas | ProComercial | UnknownProduct

  datatype ReferenceRole = QuestionSubject | ComparisonAlternative | Preferred | Committed | Mentioned

  datatype Stage =
    | New | Discovery | Educating | Comparing | ObjectionHandling | Qualified | SolutionRecommended
    | ReadyToStart | Closing | PostPurchase | Handoff | UnknownRecovery

  datatype MacroAction =
    | AnswerAndAdvance | DiscoverNeed | NarrowSolution | RecommendSolution | PersuadeValue
    | HandleObjection | RiskReversal | CompareAlternative | ExplainProcess | SoftClose | DirectClose
    | HandoffToMiguel | AnswerUnknownSafely

  /** The micro actions some plan can carry. */
  datatype MicroAction =
    | AnswerPriceThenExplainScope | AnswerScopeThenDiscoverBusiness
    | AnswerChannelThenDiscoverMainChannel | AnswerGeneralThenDiscoverNeed
    | AskBusinessType | AskMainChannel | AskPainOrGoal | AskActionRequirement
    | DifferentiateCapturaVsHibrido | DetermineIfExternalActionsAreNeeded
    | RecommendCaptura | RecommendHibrido | ExplainVentasNotAvailable | ExplainProComercialNotAvailable
    | IndustrySpecificValue | LogicalValue | OpportunityCost
    | ValidateAndClarifyObjection | ClarifyObjectionValue | TieSolutionToObjection
    | ProvideObjectionProof | CloseOrContinueObjection
    | ExplainTestingBeforeRelease | ExplainClientReview | ExplainHumanHandoff
    | ExplainOfficialMetaConnection
    | CompareManychat | CompareBasicChatbot | CompareHumanReceptionist | CompareWhatsappBusinessOnly
    | CompareCustomDevelopment
    | ExplainAppRegistration | ExplainDeposit | ExplainDocuments | ExplainConversationExamples
    | ExplainActivation
    | AskPermissionToSendLink | SendAppLinkAndDepositStep
    | RedirectPostPurchase | RedirectCustomScope | RedirectExistingClient | AskSingleClarifyingQuestion

  datatype CtaType =
    | NoCta | SoftQuestion | DiscoveryQuestion | ObjectionQuestion | ExplainNextStep | SoftCloseCta
    | AskPermission | DirectCloseCta | RedirectToMiguel

  predicate IsQuestion(cta: CtaType) {
    cta == DiscoveryQuestion || cta == SoftQuestion || cta == ObjectionQuestion
  }

  /** MICROACTIONS_BY_MACRO: the published contract of which micro action may
      accompany which macro action, restricted to the micro actions above. */
  predicate MicroAllowed(macro: MacroAction, micro: MicroAction) {
    match macro
    case AnswerAndAdvance =>
      micro in {AnswerPriceThenExplainScope, AnswerScopeThenDiscoverBusiness, AnswerChannelThenDiscoverMainChannel,
                AnswerGeneralThenDiscoverNeed}
    case DiscoverNeed =>
      micro in {AskBusinessType, AskMainChannel, AskPainOrGoal, AskActionRequirement}
    case NarrowSolution =>
      micro in {DifferentiateCapturaVsHibrido, DetermineIfExternalActionsAreNeeded}
    case RecommendSolution =>
      micro in {RecommendCaptura, RecommendHibrido, ExplainVentasNotAvailable,
                ExplainProComercialNotAvailable}
    case PersuadeValue =>
      micro in {IndustrySpecificValue, LogicalValue, OpportunityCost}
    case HandleObjection =>
      micro in {ValidateAndClarifyObjection, ClarifyObjectionValue, TieSolutionToObjection,
                ProvideObjectionProof, CloseOrContinueObjection}
    case RiskReversal =>
      micro in {ExplainTestingBeforeRelease, ExplainClientReview, ExplainHumanHandoff,
                ExplainOfficialMetaConnection}
    case CompareAlternative =>
      micro in {CompareManychat, CompareBasicChatbot, CompareHumanReceptionist,
                CompareWhatsappBusinessOnly, CompareCustomDevelopment}
    case ExplainProcess =>
      micro in {ExplainAppRegistration, ExplainDeposit, ExplainDocuments, ExplainConversationExamples,
                ExplainClientReview, ExplainActivation}
    case SoftClose => micro == AskPermissionToSendLink
    case DirectClose => micro == SendAppLinkAndDepositStep
    case HandoffToMiguel =>
      micro in {RedirectPostPurchase, RedirectCustomScope, RedirectExistingClient}
    case AnswerUnknownSafely => micro == AskSingleClarifyingQuestion
  }
}

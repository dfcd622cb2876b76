/** What the analyzer observes in one message, after validation: independent
    facts, each with the span of the message quoted for it. */
module Observations {
  import opened Commercial

  datatype Problem =
    | HighMessageVolume | SlowResponse | LeadDropOff | RepetitiveQuestions | ManualDataCapture
    | ManualFollowUp | MissedLeads | DisorganizedInformation | ManualQuoting | ManualScheduling
    | ManualOrderProcessing | SupportBottleneck | UnknownProblem

  datatype Capability =
    | AnswerCustomerQuestions | ProvidePrices | ProvideCatalogInformation | CaptureLeadData
    | QualifyLeads | RedirectToHuman | UnderstandAudio | UnderstandImages | ExplainBusinessProcess
    | CollectOrderInformation | PersuadeLeads | HandleSalesObjections
    | RecommendProductsCommercially | CloseSale

  datatype Action =
    | ScheduleAppointment | GenerateQuote | CreateOrder | ReadExternalSystem | WriteExternalSystem
    | UpdateExternalRecord | SendReminder | FollowUpLead | SendNotification | TakePayment
    | UnknownExternalAction

  predicate IsSalesCapability(c: Capability) {
    c in {PersuadeLeads, HandleSalesObjections, RecommendProductsCommercially, CloseSale}
  }

  datatype UpdateIntent = NoChange | MergeIntent | ReplaceIntent

  /** The relation of this message to the objection already open. */
  datatype AnalyzerRelation =
    | NoneObserved | ResolvedObserved | ClarifiedObserved | ReaffirmedObserved
    | ContinuationObserved | UnrelatedObserved

  datatype PriorType =
    | NoPrior | ImplicitPrior | TopicPrior | EntityPrior | AssistantCommitmentPrior

  datatype Quoted<T> = Quoted(tag: T, span: string)

  datatype ProductReference = ProductReference(product: Product, role: ReferenceRole, span: string)

  datatype DeclaredCount = DeclaredCount(value: int, span: string)

  /** A span of "" stands for a missing one. */
  datatype Observation = Observation(
    intent: Intent,
    problems: seq<Quoted<Problem>>,
    capabilities: seq<Quoted<Capability>>,
    actions: seq<Quoted<Action>>,
    count: Option<DeclaredCount>,
    updateIntent: UpdateIntent,
    products: seq<ProductReference>,
    objectionType: ObjectionType, objectionStrength: ObjectionStrength, objectionSpan: string,
    relation: AnalyzerRelation, relationSpan: string,
    readiness: BuyingSignal, readinessSpan: string,
    prior: PriorType, priorSpan: string,
    postPurchase: bool, postPurchaseSpan: string,
    businessType: string, mainChannel: string, painOrGoal: string)
}

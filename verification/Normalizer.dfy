/** From one observation to the facts a turn is planned on (analyzer/normalizer.py
    and the reply-frame step of agent/graph.py). The analyzer, the reply-frame
    resolver and the requirement resolver are free inputs. */
module TurnNormalizer {
  import opened Commercial
  import opened Evidence
  import opened Observations
  import opened Requirements
  import opened RequirementDelta
  import opened Leads

  datatype ReplyAct = Accept | Decline | ProvideAnswer | AskFollowup | UnrelatedAct | Unclear

  datatype FrameKind = NoFrame | ActionRequirementFrame | LinkStartFrame | PlannerContextFrame

  /** The planner's previous question and how this message answers it. A target
      that is no catalogue product is `UnknownProduct`. */
  datatype ReplyFrame = ReplyFrame(kind: FrameKind, act: ReplyAct, asksToExplain: bool, target: Option<Product>)

  /** Which of the fixed phrase lists the message matches. */
  datatype MessageCues = MessageCues(
    proof: bool, value: bool, unsupportedChannel: bool,
    whatsappBusiness: bool, receptionist: bool, customDevelopment: bool, chatbot: bool, manychat: bool,
    priorReference: bool, pricing: bool, startPayment: bool, policy: bool, startProcess: bool, capability: bool)

  /** Everything one turn receives from outside. `stripped` is the message without
      the white space around it. */
  datatype TurnInput = TurnInput(
    message: string,
    stripped: string,
    cues: MessageCues,
    observation: Observation,
    topics: seq<Topic>,
    skeptical: bool,
    frame: ReplyFrame,
    semantic: Option<SemanticDelta>,
    paymentConfirmed: bool)

  datatype Analysis = Analysis(
    intent: Intent,
    topics: seq<Topic>,
    skeptical: bool,
    objectionType: ObjectionType,
    objectionStrength: ObjectionStrength,
    relation: ObjectionRelation,
    businessType: string, mainChannel: string, pain: string,
    signal: BuyingSignal,
    explicitStart: bool,
    postPurchase: bool,
    refersBack: bool)
  {
    predicate HasObjection() { objectionType != NoObjection }

    /** `_has_new_hard_objection` */
    predicate NewHard() { HasObjection() && objectionStrength == Hard }
  }

  datatype Turn = Turn(
    analysis: Analysis,
    admitted: Observation,
    references: seq<ProductReference>,
    requested: Option<Product>,
    selected: Option<Product>,
    mismatch: bool,
    frame: ReplyFrame,
    contextualActions: seq<NewItem<Action>>)

  predicate Quotes(norm: Normalizer, span: string, message: string) {
    span != "" && SpanInMessage(norm, span, message)
  }

  /** `_normalize_objection`: an objection without literal evidence is no objection. */
  function ObjectionOf(norm: Normalizer, o: Observation, message: string): (ObjectionType, ObjectionStrength) {
    if o.objectionType == NoObjection || !Quotes(norm, o.objectionSpan, message) then (NoObjection, NoStrength)
    else (o.objectionType, o.objectionStrength)
  }

  function FromObserved(r: AnalyzerRelation): ObjectionRelation {
    match r
    case NoneObserved => NoRelation
    case ResolvedObserved => ResolvedRelation
    case ClarifiedObserved => Clarified
    case ReaffirmedObserved => Reaffirmed
    case ContinuationObserved => Continuation
    case UnrelatedObserved => Unrelated
  }

  /** `_normalize_active_objection_relation` */
  function RelationOf(norm: Normalizer, o: Observation, message: string, stored: Objection,
                      candidate: ObjectionType): ObjectionRelation {
    var hasActive := stored.active && stored.type_ != NoObjection;
    if o.relation != NoneObserved && hasActive && Quotes(norm, o.relationSpan, message) then FromObserved(o.relation)
    else if candidate == NoObjection then if hasActive then Unrelated else NoRelation
    else if !hasActive || candidate != stored.type_ then NewRelation
    else Continuation
  }

  function ReferencesOf(norm: Normalizer, references: seq<ProductReference>, message: string): seq<ProductReference> {
    if references == [] then []
    else
      (if Quotes(norm, references[0].span, message) then [references[0]] else [])
      + ReferencesOf(norm, references[1..], message)
  }

  function OfTypes(problems: seq<Quoted<Problem>>, types: set<Problem>): seq<Quoted<Problem>> {
    if problems == [] then []
    else (if problems[0].tag in types then [problems[0]] else []) + OfTypes(problems[1..], types)
  }

  /** The types of problem with at least one literal quotation. */
  function QuotedTypes(norm: Normalizer, problems: seq<Quoted<Problem>>, message: string): set<Problem> {
    set i | 0 <= i < |problems| && Quotes(norm, problems[i].span, message) :: problems[i].tag
  }

  /** What of the observation may reach the ledger: problems of a type quoted
      literally, and a declared count quoted literally. */
  function Admitted(norm: Normalizer, o: Observation, message: string): Observation {
    o.(problems := OfTypes(o.problems, QuotedTypes(norm, o.problems, message)),
       count := if o.count.Some? && Quotes(norm, o.count.value.span, message) then o.count else None)
  }

  function WithRole(references: seq<ProductReference>, role: ReferenceRole): seq<ProductReference> {
    if references == [] then []
    else (if references[0].role == role then [references[0]] else []) + WithRole(references[1..], role)
  }

  /** The catalogue products referred to. */
  function Named(references: seq<ProductReference>): set<Product> {
    set i | 0 <= i < |references| && references[i].product != UnknownProduct :: references[i].product
  }

  function ProductsIn(references: seq<ProductReference>): set<Product> {
    set i | 0 <= i < |references| :: references[i].product
  }

  /** The one product in a set, when it is the only one. */
  function Sole(products: set<Product>): Option<Product> {
    if products == {Captura} then Some(Captura)
    else if products == {Hibrido} then Some(Hibrido)
    else if products == {Ventas} then Some(Ventas)
    else if products == {ProComercial} then Some(ProComercial)
    else if products == {UnknownProduct} then Some(UnknownProduct)
    else None
  }

  /** `_derive_action_requirement` and `_derive_recommended_product`. */
  function RecommendedNow(o: Observation): Option<Product> {
    if o.actions != [] then Some(Hibrido)
    else if exists i | 0 <= i < |o.capabilities| :: !IsSalesCapability(o.capabilities[i].tag) then Some(Captura)
    else None
  }

  /** `_derive_selected_product` */
  function SelectedBy(references: seq<ProductReference>, recommended: Option<Product>,
                      explicitStart: bool): Option<Product> {
    var committed := WithRole(references, Committed);
    if |committed| != 1 then None
    else
      var p := Some(committed[0].product);
      if !Available(p) || (recommended.Some? && p != recommended) || !explicitStart then None else p
  }

  /** `_derive_product_preference_mismatch` */
  predicate Mismatch(requested: Option<Product>, recommended: Option<Product>) {
    && requested.Some? && requested != Some(UnknownProduct)
    && recommended.Some? && requested != recommended
  }

  predicate AcceptsLink(frame: ReplyFrame) { frame.kind == LinkStartFrame && frame.act == Accept }

  predicate DeclinesLink(frame: ReplyFrame) { frame.kind == LinkStartFrame && frame.act == Decline }

  /** The product an accepted link is for. */
  function LinkProduct(frame: ReplyFrame, knownFit: ProductFit): Option<Product> {
    var p := if frame.target.Some? then frame.target else ProductOf(knownFit);
    if Available(p) then p else None
  }

  function SignalOf(o: Observation, explicitStart: bool): BuyingSignal {
    if explicitStart then ExplicitStart else if o.readiness == ExplicitStart then NoSignal else o.readiness
  }

  /** The explicit start of the observation alone, before any reply frame. */
  predicate StartObserved(norm: Normalizer, input: TurnInput) {
    input.observation.readiness == ExplicitStart
    && Quotes(norm, input.observation.readinessSpan, input.message)
  }

  predicate StartsExplicitly(norm: Normalizer, input: TurnInput) {
    if AcceptsLink(input.frame) then true
    else if DeclinesLink(input.frame) then false
    else StartObserved(norm, input)
  }

  function Analyze(norm: Normalizer, input: TurnInput, lead: Lead): Analysis {
    var o, message := input.observation, input.message;
    var objection := ObjectionOf(norm, o, message);
    var start := StartsExplicitly(norm, input);
    Analysis(
      o.intent, input.topics, input.skeptical,
      objection.0, objection.1, RelationOf(norm, o, message, lead.objection, objection.0),
      OrElse(o.businessType, lead.businessType), OrElse(o.mainChannel, lead.mainChannel),
      OrElse(o.painOrGoal, lead.pain),
      SignalOf(o, start), start,
      o.postPurchase && Quotes(norm, o.postPurchaseSpan, message),
      o.prior != NoPrior && input.cues.priorReference && Quotes(norm, o.priorSpan, message))
  }

  /** An action the answer to the planner's own question implies without naming it. */
  function ContextualActions(input: TurnInput): seq<NewItem<Action>> {
    if input.frame.kind == ActionRequirementFrame && (input.frame.act == Accept || input.frame.act == ProvideAnswer)
       && input.observation.actions == [] && input.observation.capabilities == []
       && input.stripped != ""
    then [NewItem(UnknownExternalAction, Detail(input.stripped, Some("planner_reply_frame")))]
    else []
  }

  function SelectedNow(norm: Normalizer, input: TurnInput, lead: Lead): Option<Product> {
    var link := LinkProduct(input.frame, lead.profile.knownFit);
    if AcceptsLink(input.frame) && link.Some? then link
    else SelectedBy(ReferencesOf(norm, input.observation.products, input.message),
                    RecommendedNow(input.observation), StartObserved(norm, input))
  }

  function Normalize(norm: Normalizer, input: TurnInput, lead: Lead): Turn {
    var requested := Sole(ProductsIn(input.observation.products));
    Turn(Analyze(norm, input, lead),
         Admitted(norm, input.observation, input.message),
         ReferencesOf(norm, input.observation.products, input.message),
         requested,
         SelectedNow(norm, input, lead),
         Mismatch(requested, RecommendedNow(input.observation)),
         input.frame,
         ContextualActions(input))
  }

  // ---------- what the planner may rely on ----------

  /** A resolution is only ever reported of an objection that is open, and only
      with words of this message behind it. */
  lemma ResolutionIsQuoted(norm: Normalizer, input: TurnInput, lead: Lead)
    ensures Analyze(norm, input, lead).relation == ResolvedRelation <==>
              && input.observation.relation == ResolvedObserved
              && lead.objection.active && lead.objection.type_ != NoObjection
              && Quotes(norm, input.observation.relationSpan, input.message)
  {
  }

  lemma {:induction false} ReferencesAreQuoted(norm: Normalizer, references: seq<ProductReference>, message: string)
    ensures forall r :: r in ReferencesOf(norm, references, message) <==>
              r in references && Quotes(norm, r.span, message)
  {
    if references != [] {
      ReferencesAreQuoted(norm, references[1..], message);
    }
  }

  lemma {:induction false} OfTypesIs(problems: seq<Quoted<Problem>>, types: set<Problem>)
    ensures forall q :: q in OfTypes(problems, types) <==> q in problems && q.tag in types
  {
    if problems != [] {
      OfTypesIs(problems[1..], types);
    }
  }

  /** A problem is admitted exactly when its type is quoted literally somewhere in
      the observation, a count when it is itself. */
  lemma AdmittedIsQuoted(norm: Normalizer, o: Observation, message: string)
    ensures var a := Admitted(norm, o, message);
            && (forall q :: q in a.problems <==>
                  q in o.problems
                  && exists i :: 0 <= i < |o.problems| && o.problems[i].tag == q.tag
                                 && Quotes(norm, o.problems[i].span, message))
            && (a.count.Some? <==> o.count.Some? && Quotes(norm, o.count.value.span, message))
  {
    OfTypesIs(o.problems, QuotedTypes(norm, o.problems, message));
  }

  lemma {:induction false} WithRoleIs(references: seq<ProductReference>, role: ReferenceRole)
    ensures forall r :: r in WithRole(references, role) <==> r in references && r.role == role
  {
    if references != [] {
      WithRoleIs(references[1..], role);
    }
  }

  /** How a product comes to be selected: by a quoted commitment in a message
      that also asks to start in quoted words, or by accepting the offered link. */
  ghost predicate Commits(norm: Normalizer, input: TurnInput, lead: Lead, p: Product) {
    || (AcceptsLink(input.frame) && LinkProduct(input.frame, lead.profile.knownFit) == Some(p))
    || (StartObserved(norm, input)
        && exists i :: 0 <= i < |input.observation.products|
             && input.observation.products[i].product == p
             && input.observation.products[i].role == Committed
             && Quotes(norm, input.observation.products[i].span, input.message))
  }

  lemma SelectionIsCommitted(norm: Normalizer, input: TurnInput, lead: Lead)
    requires SelectedNow(norm, input, lead).Some?
    ensures var p := SelectedNow(norm, input, lead);
            Available(p) && Commits(norm, input, lead, p.value)
  {
    var references := input.observation.products;
    var quoted := ReferencesOf(norm, references, input.message);
    ReferencesAreQuoted(norm, references, input.message);
    WithRoleIs(quoted, Committed);
    var p := SelectedNow(norm, input, lead);
    if !AcceptsLink(input.frame) || LinkProduct(input.frame, lead.profile.knownFit).None? {
      var c := WithRole(quoted, Committed)[0];
      assert c in WithRole(quoted, Committed);
      assert c in references;
      var i :| 0 <= i < |references| && references[i] == c;
      assert references[i].product == p.value;
    }
  }
}

/** What a reply must contain and which sources it is written from
    (agent/fulfillment.py and `KnowledgePlanner` in agent/planners.py). */
module Fulfillment {
  import opened Commercial
  import opened Observations
  import opened RequirementDelta
  import opened Leads
  import opened TurnNormalizer
  import opened LeadState
  import opened Planner

  // ---------- the reply's obligations ----------

  datatype QuestionPolicy = KeepQuestion | ReplaceWithMinimal | SuppressQuestion

  datatype MinimalQuestion = NoMinimal | AnswerOrActions | GuideAppOptions

  datatype Policy = Policy(appLink: bool, question: QuestionPolicy, minimal: MinimalQuestion)

  /** `_should_include_app_link` */
  predicate IncludesAppLink(s: PlannerState, p: Plan) {
    && s.Analysis().explicitStart
    && !s.Analysis().postPurchase && p.target != Handoff
    && ProductUnavailable !in s.Flags() && UnsupportedScope !in s.Flags()
  }

  /** `_minimal_question_key`; `o` is the objection after the turn. */
  function MinimalFor(s: PlannerState, p: Plan, o: Objection): MinimalQuestion {
    if (o.active && o.strength == Hard)
       || s.lead.profile.context.selected.Some? || s.lead.profile.context.confirmed.Some?
       || p.macro == DirectClose || Available(s.lead.profile.context.active)
    then GuideAppOptions else AnswerOrActions
  }

  predicate BroadDiscovery(key: Option<QuestionKey>) {
    key.Some? && key.value in {AutomationNeed, BusinessTypeKey, MainChannelKey, PainOrGoalKey, ActionRequirementKey}
  }

  /** `build_response_fulfillment_policy`: a policy filled in step by step. */
  method BuildPolicy(s: PlannerState, p: Plan, o: Objection) returns (policy: Policy)
    ensures policy == PolicyOf(s, p, o)
  {
    policy := Policy(false, KeepQuestion, NoMinimal);
    if !IncludesAppLink(s, p) {
      return;
    }
    policy := policy.(appLink := true);
    var minimal := MinimalFor(s, p, o);
    if minimal == NoMinimal {
      policy := policy.(question := SuppressQuestion);
    } else if BroadDiscovery(p.key) || p.key.None? {
      policy := policy.(question := ReplaceWithMinimal);
    }
    policy := policy.(minimal := minimal);
  }

  /** The policy: nothing without the link; with it, a broad or missing question
      gives way to the minimal one, and no question is ever just suppressed. */
  function PolicyOf(s: PlannerState, p: Plan, o: Objection): Policy {
    if !IncludesAppLink(s, p) then Policy(false, KeepQuestion, NoMinimal)
    else Policy(true, if p.key.None? || BroadDiscovery(p.key) then ReplaceWithMinimal else KeepQuestion,
                MinimalFor(s, p, o))
  }

  // ---------- the sources a reply is written from ----------

  datatype Need =
    | ProductPricing | OfficialPolicy | PlatformSteps | OfficialAppLink | ProductFitNeed
    | ProductCapabilities | ProductComparison | ConversationMemory | ObjectionContext

  datatype Table = Products | Policies | OfficialLinks

  datatype Playbook =
    | ToneRules | CtaRules | SalesActions | PlatformStepsPlaybook | ObjectionPlaybook(about: ObjectionType)
    | PostPurchaseHandoff | SourceRoutingRules

  /** The turn as the knowledge planner sees it: `objection` is already the one
      the turn ends with. */
  datatype KnowledgeState = KnowledgeState(
    planned: PlannerState, plan: Plan, objection: Objection, appLink: bool,
    capabilities: seq<Quoted<Capability>>)
  {
    predicate Close() { plan.macro == DirectClose }
  }

  predicate AsksForCapability(k: KnowledgeState) {
    || (exists i | 0 <= i < |k.capabilities| ::
          k.capabilities[i].tag in {UnderstandAudio, UnderstandImages, AnswerCustomerQuestions,
                                    ProvideCatalogInformation, CaptureLeadData, CollectOrderInformation})
    || k.planned.turn.references != [] || k.planned.turn.requested.Some? || k.planned.cues.capability
  }

  /** When a need arises. That of product fit always does: every stored profile
      carries a requirement class, if only the unknown one. */
  ghost predicate Needed(k: KnowledgeState, need: Need) {
    var s, cues := k.planned, k.planned.cues;
    match need
    case ProductPricing => s.Topic(Pricing) || cues.pricing || cues.startPayment || k.Close()
    case OfficialPolicy =>
      cues.policy || k.Close()
      || s.Topic(Deposit) || s.Topic(FinalPayment) || s.Topic(MonthlyPayment) || s.Topic(RefundPolicy)
      || s.Topic(SupportTopic) || s.Topic(TokenUsage)
    case PlatformSteps =>
      s.Topic(PlatformProcess) || s.Topic(Onboarding) || k.plan.macro == ExplainProcess || k.Close()
      || cues.startProcess || k.appLink
    case OfficialAppLink => k.appLink
    case ProductFitNeed => true
    case ProductCapabilities => AsksForCapability(k)
    case ProductComparison => |ProductsIn(s.turn.references)| > 1
    case ConversationMemory => s.turn.analysis.refersBack
    case ObjectionContext => k.plan.macro == HandleObjection || k.objection.type_ != NoObjection
  }

  ghost predicate NoRepeats<T>(list: seq<T>) {
    forall i, j :: 0 <= i < j < |list| ==> list[i] != list[j]
  }

  /** Each value once, where it occurs first. */
  function Firsts<T(==)>(values: seq<T>): seq<T> {
    if values == [] then []
    else
      var before, value := Firsts(values[..|values| - 1]), values[|values| - 1];
      if value in before then before else before + [value]
  }

  function FirstAt<T(==)>(values: seq<T>, value: T): (i: nat)
    ensures i <= |values|
    ensures i < |values| ==> values[i] == value
    ensures forall j :: 0 <= j < i ==> values[j] != value
  {
    if values == [] || values[0] == value then 0 else 1 + FirstAt(values[1..], value)
  }

  lemma {:induction false} FirstAtSnoc<T>(values: seq<T>, last: T, value: T)
    ensures value in values ==> FirstAt(values + [last], value) == FirstAt(values, value)
    ensures value !in values && value == last ==> FirstAt(values + [last], value) == |values|
  {
    if values != [] && values[0] != value {
      assert (values + [last])[1..] == values[1..] + [last];
      FirstAtSnoc(values[1..], last, value);
    }
  }

  lemma {:induction false} PresentIsFound<T>(values: seq<T>, value: T)
    requires value in values
    ensures FirstAt(values, value) < |values|
  {
  }

  lemma {:induction false} FirstsMembers<T>(values: seq<T>)
    ensures NoRepeats(Firsts(values))
    ensures forall v :: v in Firsts(values) ==> v in values
    ensures forall v :: v in values ==> v in Firsts(values)
  {
    if values != [] {
      var before, last := values[..|values| - 1], values[|values| - 1];
      FirstsMembers(before);
      assert before + [last] == values;
    }
  }

  lemma {:induction false} FirstsOrdered<T>(values: seq<T>, i: nat, j: nat)
    requires i < j < |Firsts(values)|
    ensures FirstAt(values, Firsts(values)[i]) < FirstAt(values, Firsts(values)[j])
  {
    var before, last := values[..|values| - 1], values[|values| - 1];
    assert before + [last] == values;
    var kept := Firsts(before);
    FirstsMembers(before);
    var early := kept[i];
    assert early in kept;
    FirstAtSnoc(before, last, early);
    if j < |kept| {
      var late := kept[j];
      assert late in kept;
      FirstAtSnoc(before, last, late);
      FirstsOrdered(before, i, j);
    } else {
      assert early in before;
      PresentIsFound(before, early);
      FirstAtSnoc(before, last, last);
    }
  }

  /** The same members, each once, in the order of their first occurrence. */
  lemma FirstsMeaning<T>(values: seq<T>)
    ensures NoRepeats(Firsts(values))
    ensures forall v :: v in Firsts(values) <==> v in values
    ensures var r := Firsts(values);
            forall i, j :: 0 <= i < j < |r| ==> FirstAt(values, r[i]) < FirstAt(values, r[j])
  {
    FirstsMembers(values);
    forall i, j | 0 <= i < j < |Firsts(values)|
      ensures FirstAt(values, Firsts(values)[i]) < FirstAt(values, Firsts(values)[j])
    {
      FirstsOrdered(values, i, j);
    }
  }

  /** `dedupe` */
  method Dedupe<T(==)>(values: seq<T>) returns (result: seq<T>)
    ensures result == Firsts(values)
    ensures NoRepeats(result)
    ensures forall v :: v in result <==> v in values
  {
    result := [];
    var seen: set<T> := {};
    for i := 0 to |values|
      invariant result == Firsts(values[..i])
      invariant forall v :: v in seen <==> v in result
    {
      assert values[..i + 1][..i] == values[..i];
      if values[i] in seen {
        continue;
      }
      seen := seen + {values[i]};
      result := result + [values[i]];
    }
    assert values[..|values|] == values;
    FirstsMeaning(values);
  }

  /** The needs the start and the price of a sale raise. */
  method StartNeeds(k: KnowledgeState) returns (needs: seq<Need>)
    ensures forall need :: need in needs <==>
              need in {ProductPricing, OfficialPolicy, PlatformSteps, OfficialAppLink} && Needed(k, need)
  {
    var s, cues := k.planned, k.planned.cues;
    needs := [];
    if s.Topic(Pricing) || cues.pricing || cues.startPayment || k.Close() {
      needs := needs + [ProductPricing];
    }
    if cues.policy || k.Close()
       || s.Topic(Deposit) || s.Topic(FinalPayment) || s.Topic(MonthlyPayment) || s.Topic(RefundPolicy)
       || s.Topic(SupportTopic) || s.Topic(TokenUsage) {
      needs := needs + [OfficialPolicy];
    }
    if s.Topic(PlatformProcess) || s.Topic(Onboarding) || k.plan.macro == ExplainProcess || k.Close()
       || cues.startProcess {
      needs := needs + [PlatformSteps];
    }
    if k.appLink {
      needs := needs + [OfficialAppLink];
      needs := needs + [PlatformSteps];
    }
    if Available(s.lead.profile.context.active) && (cues.startPayment || s.Topic(Pricing) || k.Close()) {
      needs := needs + [ProductPricing];
    }
  }

  /** The needs as they are collected, with repeats. */
  method CollectNeeds(k: KnowledgeState) returns (needs: seq<Need>)
    ensures forall need :: need in needs <==> Needed(k, need)
  {
    var s := k.planned;
    needs := StartNeeds(k);
    if s.Topic(IndustryUseCase) || s.Topic(BusinessFit) {
      needs := needs + [ProductFitNeed];
    }
    if AsksForCapability(k) {
      needs := needs + [ProductCapabilities];
    }
    if |ProductsIn(s.turn.references)| > 1 {
      needs := needs + [ProductComparison];
    }
    if s.turn.analysis.refersBack {
      needs := needs + [ConversationMemory];
    }
    if k.plan.macro == HandleObjection || k.objection.type_ != NoObjection {
      needs := needs + [ObjectionContext];
    }
    needs := needs + [ProductFitNeed];
  }

  /** `_knowledge_needs`: the list grows case by case and is then deduplicated. */
  method KnowledgeNeeds(k: KnowledgeState) returns (result: seq<Need>)
    ensures NoRepeats(result)
    ensures forall need :: need in result <==> Needed(k, need)
  {
    var needs := CollectNeeds(k);
    result := Dedupe(needs);
  }

  /** `_objection_type_for_context` */
  function ObjectionInContext(k: KnowledgeState): ObjectionType {
    if k.planned.turn.analysis.HasObjection() then k.planned.turn.analysis.objectionType else k.objection.type_
  }

  /** Which tables the reply is written from, whatever else it needs. */
  ghost predicate Loads(k: KnowledgeState, table: Table) {
    match table
    case Products => true
    case OfficialLinks => Needed(k, PlatformSteps)
    case Policies =>
      Needed(k, OfficialPolicy) || k.plan.macro == HandleObjection || k.plan.macro == RiskReversal
  }

  ghost predicate Reads(k: KnowledgeState, playbook: Playbook) {
    match playbook
    case ToneRules => true
    case CtaRules => true
    case SalesActions => true
    case PlatformStepsPlaybook => Needed(k, PlatformSteps) || k.plan.macro == RiskReversal
    case ObjectionPlaybook(about) =>
      about != NoObjection &&
      if k.plan.macro == HandleObjection then about == ObjectionInContext(k)
      else k.plan.overlay.Some? && about == k.plan.overlay.value.type_
    case PostPurchaseHandoff => k.plan.macro == HandoffToMiguel
    case SourceRoutingRules => k.planned.Topic(CompetitorComparisonTopic) || k.plan.macro == CompareAlternative
  }

  method CollectTables(k: KnowledgeState, needs: seq<Need>) returns (tables: seq<Table>)
    requires forall need :: need in needs <==> Needed(k, need)
    ensures forall table :: table in tables <==> Loads(k, table)
  {
    tables := [];
    if ProductPricing in needs {
      tables := tables + [Products];
    }
    if PlatformSteps in needs {
      tables := tables + [OfficialLinks];
    }
    if OfficialAppLink in needs {
      tables := tables + [OfficialLinks];
    }
    if k.plan.macro == HandleObjection {
      tables := tables + [Products, Policies];
    }
    if k.plan.macro == RiskReversal {
      tables := tables + [Policies];
    }
    if ProductFitNeed in needs || ProductCapabilities in needs {
      tables := tables + [Products];
    }
    if OfficialPolicy in needs {
      tables := tables + [Policies];
    }
    if tables == []
       && k.plan.macro in {AnswerAndAdvance, RecommendSolution, NarrowSolution, PersuadeValue, SoftClose} {
      tables := tables + [Products];
    }
    assert Needed(k, ProductFitNeed);
  }

  /** The tables of `KnowledgePlanner.plan`. */
  method Tables(k: KnowledgeState, needs: seq<Need>) returns (result: seq<Table>)
    requires forall need :: need in needs <==> Needed(k, need)
    ensures NoRepeats(result)
    ensures forall table :: table in result <==> Loads(k, table)
  {
    var tables := CollectTables(k, needs);
    result := Dedupe(tables);
  }

  method CollectPlaybooks(k: KnowledgeState, needs: seq<Need>) returns (playbooks: seq<Playbook>)
    requires forall need :: need in needs <==> Needed(k, need)
    ensures forall playbook :: playbook in playbooks <==> Reads(k, playbook)
  {
    playbooks := [ToneRules, CtaRules, SalesActions];
    if PlatformSteps in needs {
      playbooks := playbooks + [PlatformStepsPlaybook];
    }
    if OfficialAppLink in needs {
      playbooks := playbooks + [PlatformStepsPlaybook];
    }
    if k.plan.macro == HandleObjection {
      if ObjectionInContext(k) != NoObjection {
        playbooks := playbooks + [ObjectionPlaybook(ObjectionInContext(k))];
      }
    } else if k.plan.overlay.Some? && k.plan.overlay.value.type_ != NoObjection {
      playbooks := playbooks + [ObjectionPlaybook(k.plan.overlay.value.type_)];
    }
    if k.plan.macro == HandoffToMiguel {
      playbooks := playbooks + [PostPurchaseHandoff];
    }
    if k.plan.macro == RiskReversal {
      playbooks := playbooks + [PlatformStepsPlaybook];
    }
    if k.planned.Topic(CompetitorComparisonTopic) || k.plan.macro == CompareAlternative {
      playbooks := playbooks + [SourceRoutingRules];
    }
  }

  /** The playbooks of `KnowledgePlanner.plan`. */
  method Playbooks(k: KnowledgeState, needs: seq<Need>) returns (result: seq<Playbook>)
    requires forall need :: need in needs <==> Needed(k, need)
    ensures NoRepeats(result)
    ensures forall playbook :: playbook in result <==> Reads(k, playbook)
  {
    var playbooks := CollectPlaybooks(k, needs);
    result := Dedupe(playbooks);
  }

  // ---------- a close is always fulfilled ----------

  /** The guard on unavailable or unsupported scope never fires on a close: the
      link is owed, the minimal question is about the app, and everything needed
      to start is loaded. */
  lemma EveryCloseIsFulfilled(s: PlannerState, p: Plan, o: Objection, capabilities: seq<Quoted<Capability>>)
    requires Sound(s, p) && p.macro == DirectClose
    ensures var policy := PolicyOf(s, p, o);
            var k := KnowledgeState(s, p, o, policy.appLink, capabilities);
            && policy.appLink && policy.minimal == GuideAppOptions && policy.question == ReplaceWithMinimal
            && Needed(k, ProductPricing) && Needed(k, OfficialPolicy)
            && Needed(k, PlatformSteps) && Needed(k, OfficialAppLink)
            && (forall table: Table :: Loads(k, table))
            && Reads(k, PlatformStepsPlaybook)
  {
  }
}

/** What one turn teaches the engine about a lead, before anything is planned
    (agent/graph.py `update_lead_state`, agent/memory.py, agent/commercial_state.py). */
module LeadState {
  import opened Commercial
  import opened Observations
  import opened Requirements
  import opened RequirementDelta
  import opened Leads
  import opened TurnNormalizer

  datatype QuestionKey =
    | BusinessTypeKey | MainChannelKey | PainOrGoalKey | ActionRequirementKey
    | EntryIntent | AutomationNeed | ObjectionClarification

  /** `build_structured_memory` */
  datatype Memory = Memory(
    businessType: string,
    mainChannel: string,
    painOrGoal: string,
    actionRequirement: ActionRequirement,
    knownFit: ProductFit,
    requirementKnown: bool)
  {
    /** `key in forbidden_question_keys` */
    predicate Forbids(key: QuestionKey) {
      match key
      case BusinessTypeKey => businessType != ""
      case MainChannelKey => mainChannel != ""
      case PainOrGoalKey => painOrGoal != ""
      case ActionRequirementKey => actionRequirement != UnknownRequirement || requirementKnown
      case _ => false
    }

    /** `next_question_for_missing_slot` */
    function NextQuestion(): Option<QuestionKey> {
      if businessType == "" then Some(BusinessTypeKey)
      else if mainChannel == "" then Some(MainChannelKey)
      else if painOrGoal == "" then Some(PainOrGoalKey)
      else if actionRequirement == UnknownRequirement && !requirementKnown then Some(ActionRequirementKey)
      else None
    }
  }

  function FirstNonEmpty(a: set<Product>, b: set<Product>, c: set<Product>): set<Product> {
    if a != {} then a else if b != {} then b else c
  }

  /** The one product the message is about, by the weight of the roles. */
  function Spotlight(references: seq<ProductReference>): Option<Product> {
    Sole(FirstNonEmpty(Named(WithRole(references, QuestionSubject)), Named(WithRole(references, Committed)),
                       Named(WithRole(references, Preferred))))
  }

  /** `resolve_product_context` */
  function ResolveContext(p: Profile, t: Turn): ProductContext {
    var sole := Sole(Named(t.references));
    var referenced := if sole.Some? then sole else Valid(t.requested);
    var selected := Valid(t.selected);
    var confirmed := Valid(p.confirmed);
    var spotlight := Spotlight(t.references);
    var answered := if t.frame.act in {Accept, ProvideAnswer, AskFollowup} then Valid(t.frame.target) else None;
    var before := Valid(Either(p.context.active, ProductOf(p.knownFit)));
    var talked := Either(spotlight, Either(referenced, Either(answered, before)));
    var active :=
      if confirmed.Some? && spotlight.None? && answered.None? && selected.None? then confirmed
      else if selected.Some? then selected
      else talked;
    ProductContext(referenced, active, Either(selected, Valid(p.selected)), confirmed)
  }

  /** The product a context commits to. */
  function CommittedIn(c: ProductContext): Option<Product> {
    Either(c.confirmed, c.selected)
  }

  function DeltaOf(lead: Lead, input: TurnInput, t: Turn): Delta {
    CurrentTurnDelta(t.admitted, input.message, input.semantic, t.contextualActions, lead.profile.ledger)
  }

  /** The profile after the ledger is merged and the aliases are refreshed: an
      alias keeps its old value while nothing new is derived. */
  function UpdateProfile(p: Profile, t: Turn, ledger: Ledger): Profile {
    var context := ResolveContext(p, t);
    var requirement := ActionRequirementOf(ledger.class_);
    var fit := ProductFitOf(ledger);
    var committed := CommittedIn(context);
    p.(ledger := ledger,
       actionRequirement := if requirement != UnknownRequirement then requirement else p.actionRequirement,
       knownFit := if fit != UnknownFit then fit
                   else if Available(committed) then FitFor(committed.value)
                   else p.knownFit,
       context := context,
       selected := Either(context.selected, p.selected),
       confirmed := Either(context.confirmed, p.confirmed))
  }

  /** `update_lead_state`, up to the point where it is first stored. */
  function UpdateLead(lead: Lead, input: TurnInput, t: Turn): Lead {
    var ledger := Step(lead.profile.ledger, DeltaOf(lead, input, t));
    lead.(businessType := OrElse(t.analysis.businessType, lead.businessType),
          mainChannel := OrElse(t.analysis.mainChannel, lead.mainChannel),
          pain := OrElse(t.analysis.pain, lead.pain),
          profile := UpdateProfile(lead.profile, t, ledger))
  }

  /** The memory of an updated lead. */
  function MemoryOf(lead: Lead): Memory {
    var l := lead.profile.ledger;
    Memory(lead.businessType, lead.mainChannel, lead.pain,
           lead.profile.actionRequirement, lead.profile.knownFit,
           l.class_ != UnknownClass || (ActiveCount(l).Some? && ActiveCount(l).value != 0))
  }

  // ---------- what an update keeps ----------

  /** The question proposed for a gap is never one that is forbidden, and there
      is none left to propose exactly when all four are. */
  lemma NextQuestionIsAllowed(m: Memory)
    ensures m.NextQuestion().Some? ==> !m.Forbids(m.NextQuestion().value)
    ensures m.NextQuestion().None? <==>
              m.Forbids(BusinessTypeKey) && m.Forbids(MainChannelKey) && m.Forbids(PainOrGoalKey)
              && m.Forbids(ActionRequirementKey)
  {
  }

  lemma DeltaIsLegitimate(lead: Lead, input: TurnInput, t: Turn)
    ensures DeltaOf(lead, input, t).Consistent() && DeltaOf(lead, input, t).Sorted()
  {
    TurnDeltaIsLegitimate(t.admitted, input.message, input.semantic, t.contextualActions, lead.profile.ledger);
  }

  /** What is known stays known, whatever the turn brings. */
  ghost predicate KnowsAtLeast(before: Lead, after: Lead) {
    && (before.businessType != "" ==> after.businessType != "")
    && (before.mainChannel != "" ==> after.mainChannel != "")
    && (before.pain != "" ==> after.pain != "")
    && (before.profile.actionRequirement != UnknownRequirement ==>
          after.profile.actionRequirement != UnknownRequirement)
    && (before.profile.selected.Some? ==> after.profile.selected.Some?)
  }

  /** Learning never forgets, and it touches neither the stages, nor the
      objection, nor the last action. */
  lemma UpdateOnlyLearns(lead: Lead, input: TurnInput, t: Turn)
    ensures var m := UpdateLead(lead, input, t);
            && KnowsAtLeast(lead, m)
            && m == lead.(businessType := m.businessType, mainChannel := m.mainChannel, pain := m.pain,
                          profile := m.profile)
  {
  }

  lemma UpdateKeepsLedger(lead: Lead, input: TurnInput, t: Turn)
    requires Requirements.Invariant(lead.profile.ledger)
    ensures Requirements.Invariant(UpdateLead(lead, input, t).profile.ledger)
  {
    DeltaIsLegitimate(lead, input, t);
    StepKeepsInvariant(lead.profile.ledger, DeltaOf(lead, input, t));
  }

  /** Nothing an engine turn does can confirm a product: a confirmation is only
      ever carried over. */
  lemma NeverConfirms(lead: Lead, input: TurnInput, t: Turn)
    requires lead.profile.confirmed.None?
    ensures var p := UpdateLead(lead, input, t).profile;
            p.confirmed.None? && p.context.confirmed.None?
            && p.selected == if Valid(t.selected).Some? then Valid(t.selected) else lead.profile.selected
  {
  }

  lemma SoleIsMember(products: set<Product>)
    ensures Sole(products).Some? ==> Sole(products).value in products
  {
  }

  /** The products a context may speak of: those of the turn, the answered
      question's and those already on record. */
  ghost predicate OnRecord(p: Profile, t: Turn, product: Product) {
    || product in ProductsIn(t.references) || t.requested == Some(product) || t.selected == Some(product)
    || (t.frame.target == Some(product) && t.frame.act in {Accept, ProvideAnswer, AskFollowup})
    || p.context.active == Some(product) || ProductOf(p.knownFit) == Some(product)
    || p.selected == Some(product) || p.confirmed == Some(product)
  }

  lemma NamedAreProducts(references: seq<ProductReference>, role: ReferenceRole)
    ensures Named(references) <= ProductsIn(references)
    ensures Named(WithRole(references, role)) <= ProductsIn(references)
  {
    WithRoleIs(references, role);
    var chosen := WithRole(references, role);
    forall product | product in Named(chosen) ensures product in ProductsIn(references) {
      var i :| 0 <= i < |chosen| && chosen[i].product == product;
      assert chosen[i] in references;
    }
  }

  lemma SpotlightIsNamed(references: seq<ProductReference>)
    ensures Spotlight(references).Some? ==> Spotlight(references).value in ProductsIn(references)
  {
    NamedAreProducts(references, QuestionSubject);
    NamedAreProducts(references, ReferenceRole.Committed);
    NamedAreProducts(references, Preferred);
    SoleIsMember(FirstNonEmpty(Named(WithRole(references, QuestionSubject)),
                               Named(WithRole(references, ReferenceRole.Committed)),
                               Named(WithRole(references, Preferred))));
  }

  /** No product in a context is invented, or unknown to the catalogue; the one
      selected in the turn is the one talked about, and a confirmed one comes to
      the fore only when the turn itself points at no product. */
  lemma ContextIsNeverInvented(p: Profile, t: Turn)
    ensures var c := ResolveContext(p, t);
            && (c.active.Some? ==> OnRecord(p, t, c.active.value) && c.active.value != UnknownProduct)
            && (c.referenced.Some? ==> OnRecord(p, t, c.referenced.value) && c.referenced.value != UnknownProduct)
            && (c.selected.Some? ==> OnRecord(p, t, c.selected.value) && c.selected.value != UnknownProduct)
            && (Valid(t.selected).Some? ==> c.active == Valid(t.selected) && c.selected == Valid(t.selected))
            && (Spotlight(t.references).Some? && Valid(t.selected).None? ==> c.active == Spotlight(t.references))
  {
    SpotlightIsNamed(t.references);
    NamedAreProducts(t.references, QuestionSubject);
    SoleIsMember(Named(t.references));
    SpotlightIsKnown(t.references);
  }

  lemma SpotlightIsKnown(references: seq<ProductReference>)
    ensures Spotlight(references) != Some(UnknownProduct) && Sole(Named(references)) != Some(UnknownProduct)
  {
    SoleIsMember(Named(references));
    SoleIsMember(FirstNonEmpty(Named(WithRole(references, QuestionSubject)),
                               Named(WithRole(references, ReferenceRole.Committed)),
                               Named(WithRole(references, Preferred))));
  }
}

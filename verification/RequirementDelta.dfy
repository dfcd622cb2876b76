/** From one turn's observation to the delta merged into the ledger, and what
    the ledger recommends (agent/requirements.py). */
module RequirementDelta {
  import opened Commercial
  import opened Observations
  import opened Requirements

  /** The private reading of a change to an existing profile, when there is one. */
  datatype SemanticDelta = SemanticDelta(
    operation: UpdateIntent,
    addedActions: seq<Action>, addedCapabilities: seq<Capability>,
    removedActions: seq<Action>, removedCapabilities: seq<Capability>,
    span: string)

  function HasTag<T(==)>(items: seq<NewItem<T>>, tag: T): bool {
    exists i | 0 <= i < |items| :: items[i].tag == tag
  }

  /** `_dedupe_entries`: the first entry of each type. */
  function DedupeItems<T(==)>(items: seq<NewItem<T>>): (r: seq<NewItem<T>>) {
    if items == [] then []
    else
      var n := |items| - 1;
      var kept := DedupeItems(items[..n]);
      if HasTag(kept, items[n].tag) then kept else kept + [items[n]]
  }

  lemma {:induction false} DedupeItemsMeaning<T>(items: seq<NewItem<T>>)
    ensures var r := DedupeItems(items);
            && ItemTags(r) == ItemTags(items)
            && (forall i, j :: 0 <= i < j < |r| ==> r[i].tag != r[j].tag)
  {
    if items != [] {
      var n := |items| - 1;
      DedupeItemsMeaning(items[..n]);
      var kept := DedupeItems(items[..n]);
      assert items == items[..n] + [items[n]];
      ItemTagsSnoc(items[..n], items[n]);
      ItemTagsSnoc(kept, items[n]);
    }
  }

  method DedupeEntries<T(==)>(items: seq<NewItem<T>>) returns (result: seq<NewItem<T>>)
    ensures result == DedupeItems(items)
  {
    result := [];
    var seen: set<T> := {};
    for i := 0 to |items|
      invariant result == DedupeItems(items[..i])
      invariant forall t :: t in seen <==> HasTag(result, t)
    {
      assert items[..i + 1][..i] == items[..i];
      ghost var before := result;
      if items[i].tag in seen {
        continue;
      }
      seen := seen + {items[i].tag};
      result := result + [items[i]];
      forall t ensures t in seen <==> HasTag(result, t) {
        if HasTag(before, t) {
          var k :| 0 <= k < |before| && before[k].tag == t;
          assert result[k].tag == t;
        }
        assert result[|before|].tag == items[i].tag;
      }
    }
    assert items[..|items|] == items;
  }

  function FromQuoted<T>(quoted: seq<Quoted<T>>): seq<NewItem<T>> {
    seq(|quoted|, i requires 0 <= i < |quoted| => NewItem(quoted[i].tag, Detail(quoted[i].span, None)))
  }

  function Resolved<T>(tags: seq<T>, span: string): seq<NewItem<T>> {
    seq(|tags|, i requires 0 <= i < |tags| =>
      NewItem(tags[i], Detail(span, Some("requirement_delta_resolver"))))
  }

  function Select<T>(p: T -> bool, items: seq<NewItem<T>>): seq<NewItem<T>> {
    if items == [] then []
    else
      var n := |items| - 1;
      Select(p, items[..n]) + (if p(items[n].tag) then [items[n]] else [])
  }

  function SelectTags<T>(p: T -> bool, tags: seq<T>): seq<T> {
    if tags == [] then [] else (if p(tags[0]) then [tags[0]] else []) + SelectTags(p, tags[1..])
  }

  lemma {:induction false} SelectKeeps<T>(p: T -> bool, items: seq<NewItem<T>>)
    ensures var r := Select(p, items); forall i :: 0 <= i < |r| ==> p(r[i].tag)
    ensures ItemTags(Select(p, items)) == set t | t in ItemTags(items) && p(t)
  {
    if items != [] {
      var n := |items| - 1;
      SelectKeeps(p, items[..n]);
      assert items == items[..n] + [items[n]];
      ItemTagsSnoc(items[..n], items[n]);
      var before, now := Select(p, items[..n]), Select(p, items);
      ItemTagsSnoc(before, items[n]);
      assert now == if p(items[n].tag) then before + [items[n]] else before;
    } else {
      assert ItemTags(items) == {};
    }
  }

  function NewActions(o: Observation, semantic: Option<SemanticDelta>, span: string,
                      contextual: seq<NewItem<Action>>): seq<NewItem<Action>> {
    var resolved := if semantic.Some? then Resolved(semantic.value.addedActions, span) else [];
    DedupeItems(DedupeItems(DedupeItems(FromQuoted(o.actions)) + resolved) + DedupeItems(contextual))
  }

  function NewCapabilities(o: Observation, semantic: Option<SemanticDelta>, span: string): seq<NewItem<Capability>> {
    var resolved := if semantic.Some? then Resolved(semantic.value.addedCapabilities, span) else [];
    DedupeItems(DedupeItems(FromQuoted(o.capabilities)) + resolved)
  }

  /** Naming a concrete action retires the placeholder for an unnamed one. */
  function RemovedActions(semantic: Option<SemanticDelta>, actions: seq<NewItem<Action>>,
                          existing: Ledger): seq<Action> {
    var named := if semantic.Some? then semantic.value.removedActions else [];
    if UnknownExternalAction in Active(existing.actions)
       && (exists i | 0 <= i < |actions| :: actions[i].tag != UnknownExternalAction)
    then named + [UnknownExternalAction] else named
  }

  function Classify(intent: UpdateIntent, additions: bool, removals: bool): UpdateType {
    if intent == ReplaceIntent then ReplaceUpdate
    else if additions && removals then ExplicitCorrection
    else if removals then ExplicitRemoval
    else if additions then MergeUpdate
    else NoUpdate
  }

  /** `current_turn_requirement_delta`. The observation is the one the normaliser
      admits, `contextual` the actions a reply frame stands for. */
  function CurrentTurnDelta(o: Observation, message: string, semantic: Option<SemanticDelta>,
                            contextual: seq<NewItem<Action>>, existing: Ledger): (d: Delta)
    ensures d.updateType == ReplaceUpdate <==>
              (if semantic.Some? then semantic.value.operation else o.updateIntent) == ReplaceIntent
  {
    var span := if semantic.Some? && semantic.value.span != "" then semantic.value.span else message;
    var problems := DedupeItems(FromQuoted(o.problems));
    var capabilities := NewCapabilities(o, semantic, span);
    var actions := NewActions(o, semantic, span, contextual);
    var informational := Select(c => !IsSalesCapability(c), capabilities);
    var sales := Select(c => IsSalesCapability(c), capabilities);
    var removed := if semantic.Some? then semantic.value.removedCapabilities else [];
    var removedInformational := SelectTags(c => !IsSalesCapability(c), removed);
    var removedSales := SelectTags(c => IsSalesCapability(c), removed);
    var removedActions := RemovedActions(semantic, actions, existing);
    var declared := if o.count.Some? && o.count.value.span != "" then o.count else None;
    var additions := problems != [] || informational != [] || sales != [] || actions != [] || declared.Some?;
    var removals := removedInformational != [] || removedSales != [] || removedActions != [];
    var intent := if semantic.Some? then semantic.value.operation else o.updateIntent;
    Delta(Classify(intent, additions, removals), problems, informational, sales, actions,
          removedInformational, removedSales, removedActions, declared)
  }

  /** Every delta built from a turn is one the ledger's theorems speak of, and
      each capability asked for lands in the list of its kind. */
  lemma TurnDeltaIsLegitimate(o: Observation, message: string, semantic: Option<SemanticDelta>,
                              contextual: seq<NewItem<Action>>, existing: Ledger)
    ensures var d := CurrentTurnDelta(o, message, semantic, contextual, existing);
            d.Consistent() && d.Sorted()
  {
    var span := if semantic.Some? && semantic.value.span != "" then semantic.value.span else message;
    var capabilities := NewCapabilities(o, semantic, span);
    SelectKeeps((c: Capability) => !IsSalesCapability(c), capabilities);
    SelectKeeps((c: Capability) => IsSalesCapability(c), capabilities);
  }

  lemma ItemTagsConcat<T>(a: seq<NewItem<T>>, b: seq<NewItem<T>>)
    ensures ItemTags(a + b) == ItemTags(a) + ItemTags(b)
  {
    var all := a + b;
    forall t ensures t in ItemTags(all) <==> t in ItemTags(a) + ItemTags(b) {
      if t in ItemTags(a) {
        var k :| 0 <= k < |a| && a[k].tag == t;
        assert all[k].tag == t;
      }
      if t in ItemTags(b) {
        var k :| 0 <= k < |b| && b[k].tag == t;
        assert all[|a| + k].tag == t;
      }
      if t in ItemTags(all) {
        var k :| 0 <= k < |all| && all[k].tag == t;
        assert k < |a| ==> a[k].tag == t;
        assert k >= |a| ==> b[k - |a|].tag == t;
      }
    }
  }

  /** No action the turn asks for is lost on the way into the delta. */
  lemma ActionsReachTheDelta(o: Observation, message: string, semantic: Option<SemanticDelta>,
                             contextual: seq<NewItem<Action>>, existing: Ledger)
    ensures var d := CurrentTurnDelta(o, message, semantic, contextual, existing);
            ItemTags(d.actions) ==
              ItemTags(FromQuoted(o.actions)) + ItemTags(contextual) +
              (if semantic.Some? then ItemTags(Resolved(semantic.value.addedActions, message)) else {})
  {
    var span := if semantic.Some? && semantic.value.span != "" then semantic.value.span else message;
    var quoted := DedupeItems(FromQuoted(o.actions));
    var resolved: seq<NewItem<Action>> := if semantic.Some? then Resolved(semantic.value.addedActions, span) else [];
    DedupeItemsMeaning(FromQuoted(o.actions));
    DedupeItemsMeaning(quoted + resolved);
    DedupeItemsMeaning(contextual);
    DedupeItemsMeaning(DedupeItems(quoted + resolved) + DedupeItems(contextual));
    ItemTagsConcat(quoted, resolved);
    ItemTagsConcat(DedupeItems(quoted + resolved), DedupeItems(contextual));
    if semantic.Some? {
      ResolvedTags(semantic.value.addedActions, span, message);
    }
  }

  /** Nor any capability: each is in exactly one of the two lists. */
  lemma CapabilitiesReachTheDelta(o: Observation, message: string, semantic: Option<SemanticDelta>,
                                  contextual: seq<NewItem<Action>>, existing: Ledger)
    ensures var d := CurrentTurnDelta(o, message, semantic, contextual, existing);
            var asked := ItemTags(FromQuoted(o.capabilities)) +
                         (if semantic.Some? then ItemTags(Resolved(semantic.value.addedCapabilities, message)) else {});
            && ItemTags(d.informational) == (set c | c in asked && !IsSalesCapability(c))
            && ItemTags(d.sales) == (set c | c in asked && IsSalesCapability(c))
  {
    var span := if semantic.Some? && semantic.value.span != "" then semantic.value.span else message;
    var quoted := DedupeItems(FromQuoted(o.capabilities));
    var resolved: seq<NewItem<Capability>> :=
      if semantic.Some? then Resolved(semantic.value.addedCapabilities, span) else [];
    DedupeItemsMeaning(FromQuoted(o.capabilities));
    DedupeItemsMeaning(quoted + resolved);
    ItemTagsConcat(quoted, resolved);
    if semantic.Some? {
      ResolvedTags(semantic.value.addedCapabilities, span, message);
    }
    SelectKeeps((c: Capability) => !IsSalesCapability(c), DedupeItems(quoted + resolved));
    SelectKeeps((c: Capability) => IsSalesCapability(c), DedupeItems(quoted + resolved));
  }

  lemma ResolvedTags<T>(tags: seq<T>, a: string, b: string)
    ensures ItemTags(Resolved(tags, a)) == ItemTags(Resolved(tags, b))
  {
    forall t ensures t in ItemTags(Resolved(tags, a)) <==> t in ItemTags(Resolved(tags, b)) {
      if t in ItemTags(Resolved(tags, a)) {
        var k :| 0 <= k < |tags| && Resolved(tags, a)[k].tag == t;
        assert Resolved(tags, b)[k].tag == t;
      }
      if t in ItemTags(Resolved(tags, b)) {
        var k :| 0 <= k < |tags| && Resolved(tags, b)[k].tag == t;
        assert Resolved(tags, a)[k].tag == t;
      }
    }
  }

  /** A turn that asks for nothing and drops nothing leaves the ledger as it is. */
  predicate Silent(o: Observation, semantic: Option<SemanticDelta>, contextual: seq<NewItem<Action>>) {
    && o.problems == [] && o.capabilities == [] && o.actions == [] && o.count.None? && o.updateIntent != ReplaceIntent
    && semantic.None? && contextual == []
  }

  lemma SilentTurnIsNoUpdate(o: Observation, message: string, semantic: Option<SemanticDelta>,
                             contextual: seq<NewItem<Action>>, existing: Ledger)
    requires Silent(o, semantic, contextual)
    ensures CurrentTurnDelta(o, message, semantic, contextual, existing).updateType == NoUpdate
  {
    assert NewActions(o, semantic, message, contextual) == [];
    assert NewCapabilities(o, semantic, message) == [];
  }

  lemma SilentTurnKeepsTheLedger(o: Observation, message: string, semantic: Option<SemanticDelta>,
                                 contextual: seq<NewItem<Action>>, existing: Ledger)
    requires Silent(o, semantic, contextual) && Invariant(existing)
    ensures Step(existing, CurrentTurnDelta(o, message, semantic, contextual, existing)) == existing
  {
    var d := CurrentTurnDelta(o, message, semantic, contextual, existing);
    SilentTurnIsNoUpdate(o, message, semantic, contextual, existing);
    TurnDeltaIsLegitimate(o, message, semantic, contextual, existing);
    NoUpdateChangesNothing(existing, d);
  }

  // ---------- what the ledger recommends ----------

  const STANDARD_ACTION_LIMIT := 2

  /** `derive_action_requirement` */
  function ActionRequirementOf(c: RequirementClass): ActionRequirement {
    match c
    case InformationalOnly => AnswersOnly
    case ExternalActions => ExternalActionsRequired
    case _ => UnknownRequirement
  }

  /** `active_external_action_count` */
  function ActiveCount(l: Ledger): Option<int> {
    if l.declared.Some? && l.declared.value.active then Some(l.declared.value.value) else None
  }

  /** The declared count in force is the last one declared, unless the scope was
      replaced without one. */
  lemma CountFollowsTheDelta(l: Ledger, d: Delta)
    ensures ActiveCount(Step(l, d)) ==
            if d.declared.Some? then Some(d.declared.value.value)
            else if d.updateType == ReplaceUpdate then None
            else ActiveCount(l)
  {
  }

  /** `derive_product_fit` */
  function ProductFitOf(l: Ledger): ProductFit {
    match l.class_
    case InformationalOnly => CapturaFit
    case ExternalActions =>
      if ActiveCount(l).Some? && ActiveCount(l).value > STANDARD_ACTION_LIMIT then CustomReview else HibridoFit
    case SalesPersuasion => VentasUnavailable
    case MixedAdvanced => CustomReview
    case UnknownClass => UnknownFit
  }

  datatype ScopeFlag = UnsupportedScope | CustomScopeReviewRequired | ProductUnavailable | PreferenceMismatch

  /** `derive_scope_flags` */
  function ScopeFlags(l: Ledger, requested: Option<Product>): set<ScopeFlag> {
    (if ProductFitOf(l) == CustomReview then {UnsupportedScope, CustomScopeReviewRequired} else {}) +
    (if requested == Some(Ventas) || requested == Some(ProComercial) then {ProductUnavailable} else {}) +
    (if (requested == Some(Captura) && (l.class_ == ExternalActions || l.class_ == MixedAdvanced))
        || (requested == Some(Hibrido) && l.class_ == InformationalOnly)
     then {PreferenceMismatch} else {})
  }

  /** A product is recommended only for what it can do: Captura when nothing but
      answers is asked for, Híbrido when external actions are, within the limit,
      and neither as soon as selling is part of the scope. */
  lemma RecommendationFitsTheScope(l: Ledger)
    requires Invariant(l)
    ensures ProductFitOf(l) == CapturaFit <==>
              Active(l.informational) != {} && Active(l.sales) == {} && Active(l.actions) == {}
    ensures ProductFitOf(l) == HibridoFit <==>
              Active(l.actions) != {} && Active(l.sales) == {}
              && (ActiveCount(l).Some? ==> ActiveCount(l).value <= STANDARD_ACTION_LIMIT)
    ensures Active(l.sales) != {} <==>
              l.class_ == SalesPersuasion || l.class_ == MixedAdvanced
  {
  }
}

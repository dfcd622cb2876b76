/** The requirement ledger: what a lead has asked of the agent over a whole
    conversation (agent/requirements.py). Entries are values here; the module
    RequirementLists carries out the same operations on shared entries in place. */
module Requirements {
  import opened Commercial
  import opened Observations
  import Runs

  // ---------- entries ----------

  /** The part of an entry that is quoted from the turn it comes from; a missing
      source leaves the stored one in place. */
  datatype Detail = Detail(span: string, source: Option<string>)

  datatype NewItem<T> = NewItem(tag: T, detail: Detail)

  datatype Entry<T> = Entry(tag: T, detail: Detail, sourceTurn: nat, active: bool, removedTurn: Option<nat>)

  function Refreshed<T>(e: Entry<T>, item: NewItem<T>, turn: nat): Entry<T> {
    var source := if item.detail.source.Some? then item.detail.source else e.detail.source;
    Entry(e.tag, Detail(item.detail.span, source), turn, true, e.removedTurn)
  }

  function Opened<T>(item: NewItem<T>, turn: nat): Entry<T> {
    Entry(item.tag, item.detail, turn, true, None)
  }

  function Closed<T>(e: Entry<T>, turn: nat): Entry<T> {
    e.(active := false, removedTurn := Some(turn))
  }

  function Find<T(==)>(entries: seq<Entry<T>>, tag: T): (i: nat)
    ensures i <= |entries|
    ensures i < |entries| ==> entries[i].tag == tag
    ensures forall j :: 0 <= j < i ==> entries[j].tag != tag
  {
    if entries == [] || entries[0].tag == tag then 0 else 1 + Find(entries[1..], tag)
  }

  function MergeItem<T(==)>(entries: seq<Entry<T>>, item: NewItem<T>, turn: nat): seq<Entry<T>> {
    var i := Find(entries, item.tag);
    if i < |entries| then entries[i := Refreshed(entries[i], item, turn)] else entries + [Opened(item, turn)]
  }

  /** `_merge_items` */
  function MergeItems<T(==)>(entries: seq<Entry<T>>, items: seq<NewItem<T>>, turn: nat): seq<Entry<T>> {
    if items == [] then entries
    else MergeItem(MergeItems(entries, items[..|items| - 1], turn), items[|items| - 1], turn)
  }

  function DeactivateItem<T(==)>(entries: seq<Entry<T>>, tag: T, turn: nat): seq<Entry<T>> {
    var i := Find(entries, tag);
    if i < |entries| then entries[i := Closed(entries[i], turn)] else entries
  }

  /** `_deactivate_items` */
  function DeactivateItems<T(==)>(entries: seq<Entry<T>>, tags: seq<T>, turn: nat): seq<Entry<T>> {
    if tags == [] then entries
    else DeactivateItem(DeactivateItems(entries, tags[..|tags| - 1], turn), tags[|tags| - 1], turn)
  }

  /** `_deactivate_all` */
  function DeactivateAll<T>(entries: seq<Entry<T>>, turn: nat): seq<Entry<T>> {
    seq(|entries|, i requires 0 <= i < |entries| =>
      if entries[i].active then Closed(entries[i], turn) else entries[i])
  }

  // ---------- what a list of entries means ----------

  function Tags<T>(entries: seq<Entry<T>>): seq<T> {
    seq(|entries|, i requires 0 <= i < |entries| => entries[i].tag)
  }

  predicate Unique<T(==)>(entries: seq<Entry<T>>) {
    forall i, j :: 0 <= i < j < |entries| ==> entries[i].tag != entries[j].tag
  }

  /** `_active_types`, as a set. */
  function Active<T(==)>(entries: seq<Entry<T>>): set<T> {
    set i | 0 <= i < |entries| && entries[i].active :: entries[i].tag
  }

  function ItemTags<T(==)>(items: seq<NewItem<T>>): set<T> {
    set i | 0 <= i < |items| :: items[i].tag
  }

  function Among<T(==)>(tags: seq<T>): set<T> {
    set t | t in tags
  }

  /** The shape of a list at a moment `now`: one entry per type, no stamp from
      the future, and a removal stamp on every inactive entry that is no older
      than its source. */
  ghost predicate WellStamped<T>(entries: seq<Entry<T>>, now: nat) {
    && Unique(entries)
    && (forall i :: 0 <= i < |entries| ==> entries[i].sourceTurn <= now)
    && (forall i :: 0 <= i < |entries| && entries[i].removedTurn.Some? ==> entries[i].removedTurn.value <= now)
    && (forall i :: 0 <= i < |entries| && !entries[i].active ==>
          entries[i].removedTurn.Some? && entries[i].removedTurn.value >= entries[i].sourceTurn)
  }

  /** Types are only ever appended: none is dropped or reordered. */
  ghost predicate Appends<T>(before: seq<Entry<T>>, after: seq<Entry<T>>) {
    Tags(before) <= Tags(after)
  }

  lemma MergeItemEffect<T>(entries: seq<Entry<T>>, item: NewItem<T>, turn: nat)
    requires WellStamped(entries, turn)
    ensures var after := MergeItem(entries, item, turn);
            && WellStamped(after, turn) && Appends(entries, after)
            && Active(after) == Active(entries) + {item.tag}
  {
    var i := Find(entries, item.tag);
    var after := MergeItem(entries, item, turn);
    forall t ensures t in Active(after) <==> t in Active(entries) + {item.tag} {
      if t in Active(entries) {
        var k :| 0 <= k < |entries| && entries[k].active && entries[k].tag == t;
        assert after[k].active && after[k].tag == t;
      }
      assert after[i].active && after[i].tag == item.tag;
    }
  }

  lemma DeactivateItemEffect<T>(entries: seq<Entry<T>>, tag: T, turn: nat)
    requires WellStamped(entries, turn)
    ensures var after := DeactivateItem(entries, tag, turn);
            && WellStamped(after, turn) && Appends(entries, after)
            && Active(after) == Active(entries) - {tag}
  {
    var i := Find(entries, tag);
    var after := DeactivateItem(entries, tag, turn);
    forall t ensures t in Active(after) <==> t in Active(entries) - {tag} {
      if t in Active(entries) && t != tag {
        var k :| 0 <= k < |entries| && entries[k].active && entries[k].tag == t;
        assert after[k].active && after[k].tag == t;
      }
      if t in Active(after) {
        var k :| 0 <= k < |after| && after[k].active && after[k].tag == t;
        assert k != i && entries[k].active && entries[k].tag == t;
        assert t == tag ==> i < |entries|;
      }
    }
  }

  lemma ItemTagsSnoc<T>(items: seq<NewItem<T>>, item: NewItem<T>)
    ensures ItemTags(items + [item]) == ItemTags(items) + {item.tag}
  {
    var all := items + [item];
    forall t | t in ItemTags(all) ensures t in ItemTags(items) + {item.tag} {
      var k :| 0 <= k < |all| && all[k].tag == t;
      assert k < |items| ==> items[k].tag == t;
    }
    forall t | t in ItemTags(items) ensures t in ItemTags(all) {
      var k :| 0 <= k < |items| && items[k].tag == t;
      assert all[k].tag == t;
    }
    assert all[|items|].tag == item.tag;
  }

  lemma {:induction false} MergeItemsEffect<T>(entries: seq<Entry<T>>, items: seq<NewItem<T>>, turn: nat)
    requires WellStamped(entries, turn)
    ensures var after := MergeItems(entries, items, turn);
            && WellStamped(after, turn) && Appends(entries, after)
            && Active(after) == Active(entries) + ItemTags(items)
  {
    if items != [] {
      var n := |items| - 1;
      MergeItemsEffect(entries, items[..n], turn);
      MergeItemEffect(MergeItems(entries, items[..n], turn), items[n], turn);
      assert items == items[..n] + [items[n]];
      ItemTagsSnoc(items[..n], items[n]);
    }
  }

  lemma AllButSnoc<T>(active: set<T>, tags: seq<T>, tag: T)
    ensures active - Among(tags + [tag]) == active - Among(tags) - {tag}
  {
  }

  lemma {:induction false} DeactivateItemsEffect<T>(entries: seq<Entry<T>>, tags: seq<T>, turn: nat)
    requires WellStamped(entries, turn)
    ensures var after := DeactivateItems(entries, tags, turn);
            && WellStamped(after, turn) && Appends(entries, after)
            && Active(after) == Active(entries) - Among(tags)
  {
    if tags != [] {
      var before, tag := tags[..|tags| - 1], tags[|tags| - 1];
      DeactivateItemsEffect(entries, before, turn);
      DeactivateItemEffect(DeactivateItems(entries, before, turn), tag, turn);
      AllButSnoc(Active(entries), before, tag);
      assert before + [tag] == tags;
    }
  }

  lemma DeactivateAllEffect<T>(entries: seq<Entry<T>>, turn: nat)
    requires WellStamped(entries, turn)
    ensures var after := DeactivateAll(entries, turn);
            && WellStamped(after, turn) && Appends(entries, after)
            && Active(after) == {}
  {
  }

  // ---------- one merge of one list ----------

  /** What one delta does to one list. */
  datatype ListDelta<T> = ListDelta(replace: bool, added: seq<NewItem<T>>, removed: seq<T>) {
    ghost predicate Touches(tag: T) {
      replace || tag in ItemTags(added) || tag in removed
    }
  }

  function ListStep<T(==)>(entries: seq<Entry<T>>, d: ListDelta<T>, turn: nat): seq<Entry<T>> {
    var kept := if d.replace then DeactivateAll(entries, turn) else entries;
    DeactivateItems(MergeItems(kept, d.added, turn), d.removed, turn)
  }

  /** (A + N) - R, or N - R when the delta replaces. */
  ghost function ActiveStep<T>(active: set<T>, d: ListDelta<T>): set<T> {
    ((if d.replace then {} else active) + ItemTags(d.added)) - Among(d.removed)
  }

  lemma ListStepEffect<T>(entries: seq<Entry<T>>, d: ListDelta<T>, turn: nat)
    requires WellStamped(entries, turn)
    ensures var after := ListStep(entries, d, turn);
            && WellStamped(after, turn) && Appends(entries, after)
            && Active(after) == ActiveStep(Active(entries), d)
  {
    var kept := if d.replace then DeactivateAll(entries, turn) else entries;
    DeactivateAllEffect(entries, turn);
    MergeItemsEffect(kept, d.added, turn);
    DeactivateItemsEffect(MergeItems(kept, d.added, turn), d.removed, turn);
  }

  // ---------- the ledger ----------

  datatype RequirementClass = UnknownClass | InformationalOnly | ExternalActions | SalesPersuasion | MixedAdvanced

  datatype Declared = Declared(value: int, span: string, sourceTurn: nat, active: bool, removedTurn: Option<nat>)

  datatype Source = Source(turn: nat, active: bool)

  datatype Sources = Sources(problems: map<Problem, Source>, informational: map<Capability, Source>,
                             sales: map<Capability, Source>, actions: map<Action, Source>,
                             declared: Option<Source>)

  datatype Ledger = Ledger(
    problems: seq<Entry<Problem>>,
    informational: seq<Entry<Capability>>,
    sales: seq<Entry<Capability>>,
    actions: seq<Entry<Action>>,
    declared: Option<Declared>,
    class_: RequirementClass,
    firstConfirmed: Option<nat>,
    lastUpdated: Option<nat>,
    sources: Sources)

  const EMPTY: Ledger :=
    Ledger([], [], [], [], None, UnknownClass, None, None, Sources(map[], map[], map[], map[], None))

  function ClassOf(informational: set<Capability>, sales: set<Capability>, actions: set<Action>): RequirementClass {
    if sales != {} && actions != {} then MixedAdvanced
    else if sales != {} then SalesPersuasion
    else if actions != {} then ExternalActions
    else if informational != {} then InformationalOnly
    else UnknownClass
  }

  /** `derive_requirement_class` */
  function DeriveClass(l: Ledger): RequirementClass {
    ClassOf(Active(l.informational), Active(l.sales), Active(l.actions))
  }

  function SourcesOf<T(==)>(entries: seq<Entry<T>>): map<T, Source> {
    if entries == [] then map[]
    else
      var e := entries[|entries| - 1];
      SourcesOf(entries[..|entries| - 1])[e.tag := Source(e.sourceTurn, e.active)]
  }

  /** `_derive_sources` */
  function DeriveSources(l: Ledger): Sources {
    Sources(SourcesOf(l.problems), SourcesOf(l.informational), SourcesOf(l.sales), SourcesOf(l.actions),
            if l.declared.Some? then Some(Source(l.declared.value.sourceTurn, l.declared.value.active)) else None)
  }

  /** `sources` is exactly the index of the entries by type. */
  lemma {:induction false} SourcesIndexEntries<T>(entries: seq<Entry<T>>)
    requires Unique(entries)
    ensures forall i :: 0 <= i < |entries| ==>
              entries[i].tag in SourcesOf(entries)
              && SourcesOf(entries)[entries[i].tag] == Source(entries[i].sourceTurn, entries[i].active)
    ensures forall t :: t in SourcesOf(entries) ==> t in Tags(entries)
  {
    if entries != [] {
      var n := |entries| - 1;
      SourcesIndexEntries(entries[..n]);
      assert Tags(entries) == Tags(entries[..n]) + [entries[n].tag];
    }
  }

  datatype UpdateType = NoUpdate | MergeUpdate | ExplicitRemoval | ExplicitCorrection | ReplaceUpdate

  datatype Delta = Delta(
    updateType: UpdateType,
    problems: seq<NewItem<Problem>>,
    informational: seq<NewItem<Capability>>,
    sales: seq<NewItem<Capability>>,
    actions: seq<NewItem<Action>>,
    removedInformational: seq<Capability>,
    removedSales: seq<Capability>,
    removedActions: seq<Action>,
    declared: Option<DeclaredCount>)
  {
    function OnProblems(): ListDelta<Problem> { ListDelta(false, problems, []) }
    function OnInformational(): ListDelta<Capability> {
      ListDelta(updateType == ReplaceUpdate, informational, removedInformational)
    }
    function OnSales(): ListDelta<Capability> { ListDelta(updateType == ReplaceUpdate, sales, removedSales) }
    function OnActions(): ListDelta<Action> { ListDelta(updateType == ReplaceUpdate, actions, removedActions) }

    /** A delta classified as no update carries none. */
    predicate Consistent() {
      updateType == NoUpdate ==>
        && problems == [] && informational == [] && sales == [] && actions == []
        && removedInformational == [] && removedSales == [] && removedActions == [] && declared == None
    }

    /** Each capability goes to the list of its kind. */
    predicate Sorted() {
      && (forall i :: 0 <= i < |informational| ==> !IsSalesCapability(informational[i].tag))
      && (forall i :: 0 <= i < |sales| ==> IsSalesCapability(sales[i].tag))
    }
  }

  function LastTurn(l: Ledger): nat {
    if l.lastUpdated.Some? then l.lastUpdated.value else 0
  }

  function MergeDeclared(declared: Option<Declared>, d: Delta, turn: nat): Option<Declared> {
    if d.declared.Some? then Some(Declared(d.declared.value.value, d.declared.value.span, turn, true, None))
    else if d.updateType == ReplaceUpdate && declared.Some? then
      Some(declared.value.(active := false, removedTurn := Some(turn)))
    else declared
  }

  /** `merge_requirement_profile`; the sources and the class are derived last. */
  function Merge(l: Ledger, d: Delta, turn: nat): Ledger {
    var merged := l.(
      problems := ListStep(l.problems, d.OnProblems(), turn),
      informational := ListStep(l.informational, d.OnInformational(), turn),
      sales := ListStep(l.sales, d.OnSales(), turn),
      actions := ListStep(l.actions, d.OnActions(), turn),
      declared := MergeDeclared(l.declared, d, turn),
      lastUpdated := if d.updateType != NoUpdate then Some(turn) else l.lastUpdated);
    var class_ := DeriveClass(merged);
    var first := if class_ != UnknownClass && !Truthy(l.firstConfirmed) then
                   if Truthy(merged.lastUpdated) then merged.lastUpdated else Some(turn)
                 else l.firstConfirmed;
    var classed := merged.(class_ := class_, firstConfirmed := first);
    classed.(sources := DeriveSources(classed))
  }

  predicate Truthy(turn: Option<nat>) {
    turn.Some? && turn.value != 0
  }

  /** The turn number `update_lead_state` stamps the merge with. */
  function NextTurn(l: Ledger): nat {
    LastTurn(l) + 1
  }

  function Step(l: Ledger, d: Delta): Ledger {
    Merge(l, d, NextTurn(l))
  }

  const MERGES: (Ledger, Delta) -> Ledger := (l, d) => Step(l, d)

  function Run(l: Ledger, ds: seq<Delta>): Ledger {
    Runs.Run(MERGES, l, ds)
  }

  // ---------- the representation invariant ----------

  ghost predicate DeclaredStamped(l: Ledger) {
    l.declared.Some? ==>
      var c := l.declared.value;
      && c.sourceTurn <= LastTurn(l)
      && (!c.active ==> c.removedTurn.Some? && c.sourceTurn <= c.removedTurn.value <= LastTurn(l))
  }

  ghost predicate Kinds(l: Ledger) {
    && (forall i :: 0 <= i < |l.informational| ==> !IsSalesCapability(l.informational[i].tag))
    && (forall i :: 0 <= i < |l.sales| ==> IsSalesCapability(l.sales[i].tag))
  }

  ghost predicate Invariant(l: Ledger) {
    && WellStamped(l.problems, LastTurn(l)) && WellStamped(l.informational, LastTurn(l))
    && WellStamped(l.sales, LastTurn(l)) && WellStamped(l.actions, LastTurn(l))
    && AllActive(l.problems)
    && Kinds(l) && DeclaredStamped(l)
    && l.class_ == DeriveClass(l) && l.sources == DeriveSources(l)
    && (l.class_ != UnknownClass ==> l.firstConfirmed.Some?)
    && (l.firstConfirmed.Some? ==> 1 <= l.firstConfirmed.value <= LastTurn(l))
  }

  ghost predicate AllActive<T>(entries: seq<Entry<T>>) {
    forall i :: 0 <= i < |entries| ==> entries[i].active
  }

  lemma {:induction false} MergeKeepsAllActive<T>(entries: seq<Entry<T>>, items: seq<NewItem<T>>, turn: nat)
    requires AllActive(entries)
    ensures AllActive(MergeItems(entries, items, turn))
  {
    if items != [] {
      var n := |items| - 1;
      var before := MergeItems(entries, items[..n], turn);
      MergeKeepsAllActive(entries, items[..n], turn);
      var i := Find(before, items[n].tag);
      assert i < |before| ==> Refreshed(before[i], items[n], turn).active;
    }
  }

  ghost predicate Within<T>(entries: seq<Entry<T>>, kind: T -> bool) {
    forall i :: 0 <= i < |entries| ==> kind(entries[i].tag)
  }

  lemma {:induction false} MergeKeepsKind<T>(entries: seq<Entry<T>>, items: seq<NewItem<T>>, turn: nat, kind: T -> bool)
    requires Within(entries, kind) && forall i :: 0 <= i < |items| ==> kind(items[i].tag)
    ensures Within(MergeItems(entries, items, turn), kind)
  {
    if items != [] {
      MergeKeepsKind(entries, items[..|items| - 1], turn, kind);
    }
  }

  lemma {:induction false} DeactivateKeepsKind<T>(entries: seq<Entry<T>>, tags: seq<T>, turn: nat, kind: T -> bool)
    requires Within(entries, kind)
    ensures Within(DeactivateItems(entries, tags, turn), kind)
  {
    if tags != [] {
      DeactivateKeepsKind(entries, tags[..|tags| - 1], turn, kind);
    }
  }

  lemma ListStepKeepsKind<T>(entries: seq<Entry<T>>, d: ListDelta<T>, turn: nat, kind: T -> bool)
    requires Within(entries, kind) && forall i :: 0 <= i < |d.added| ==> kind(d.added[i].tag)
    ensures Within(ListStep(entries, d, turn), kind)
  {
    var kept := if d.replace then DeactivateAll(entries, turn) else entries;
    MergeKeepsKind(kept, d.added, turn, kind);
    DeactivateKeepsKind(MergeItems(kept, d.added, turn), d.removed, turn, kind);
  }

  /** A delta that is no update leaves every list as it is. */
  lemma NoUpdateChangesNothing(l: Ledger, d: Delta)
    requires Invariant(l) && d.Consistent() && d.updateType == NoUpdate
    ensures Step(l, d) == l
  {
  }

  /** What one merge does to one list, whatever turns passed before it. */
  ghost predicate ListAdvances<T>(before: seq<Entry<T>>, d: ListDelta<T>, turn: nat, after: seq<Entry<T>>) {
    && WellStamped(after, turn) && Appends(before, after)
    && Active(after) == ActiveStep(Active(before), d)
  }

  lemma ListStepAdvances<T>(entries: seq<Entry<T>>, now: nat, d: ListDelta<T>, turn: nat)
    requires WellStamped(entries, now) && now <= turn
    ensures ListAdvances(entries, d, turn, ListStep(entries, d, turn))
  {
    ListStepEffect(entries, d, turn);
  }

  lemma StepLists(l: Ledger, d: Delta)
    requires Invariant(l)
    ensures var after, turn := Step(l, d), NextTurn(l);
            && ListAdvances(l.problems, d.OnProblems(), turn, after.problems)
            && ListAdvances(l.informational, d.OnInformational(), turn, after.informational)
            && ListAdvances(l.sales, d.OnSales(), turn, after.sales)
            && ListAdvances(l.actions, d.OnActions(), turn, after.actions)
  {
    var turn := NextTurn(l);
    ListStepAdvances(l.problems, LastTurn(l), d.OnProblems(), turn);
    ListStepAdvances(l.informational, LastTurn(l), d.OnInformational(), turn);
    ListStepAdvances(l.sales, LastTurn(l), d.OnSales(), turn);
    ListStepAdvances(l.actions, LastTurn(l), d.OnActions(), turn);
  }

  lemma StepKinds(l: Ledger, d: Delta)
    requires Invariant(l) && d.Sorted()
    ensures Kinds(Step(l, d))
    ensures AllActive(Step(l, d).problems)
  {
    MergeKeepsAllActive(l.problems, d.problems, NextTurn(l));
    ListStepKeepsKind(l.informational, d.OnInformational(), NextTurn(l), c => !IsSalesCapability(c));
    ListStepKeepsKind(l.sales, d.OnSales(), NextTurn(l), c => IsSalesCapability(c));
  }

  lemma StepDerived(l: Ledger, d: Delta)
    requires Invariant(l) && d.updateType != NoUpdate
    ensures var after := Step(l, d);
            && DeclaredStamped(after) && LastTurn(after) == NextTurn(l)
            && after.class_ == DeriveClass(after) && after.sources == DeriveSources(after)
            && (after.class_ != UnknownClass ==> after.firstConfirmed.Some?)
            && (after.firstConfirmed.Some? ==> 1 <= after.firstConfirmed.value <= LastTurn(after))
            && (l.firstConfirmed.Some? ==> after.firstConfirmed == l.firstConfirmed)
  {
  }

  /** Every merge keeps the invariant, appends types and sets the first
      confirmation at most once. */
  lemma StepKeepsInvariant(l: Ledger, d: Delta)
    requires Invariant(l) && d.Consistent() && d.Sorted()
    ensures Invariant(Step(l, d))
    ensures l.firstConfirmed.Some? ==> Step(l, d).firstConfirmed == l.firstConfirmed
    ensures LastTurn(l) <= LastTurn(Step(l, d)) <= LastTurn(l) + 1
  {
    if d.updateType == NoUpdate {
      NoUpdateChangesNothing(l, d);
    } else {
      StepLists(l, d);
      StepKinds(l, d);
      StepDerived(l, d);
    }
  }

  ghost predicate Legitimate(ds: seq<Delta>) {
    forall i :: 0 <= i < |ds| ==> ds[i].Consistent() && ds[i].Sorted()
  }

  lemma {:induction false} RunKeepsInvariant(l: Ledger, ds: seq<Delta>)
    requires Invariant(l) && Legitimate(ds)
    ensures Invariant(Run(l, ds))
  {
    if ds != [] {
      var n := |ds| - 1;
      RunKeepsInvariant(l, ds[..n]);
      StepKeepsInvariant(Run(l, ds[..n]), ds[n]);
    }
  }

  /** On every run from an empty ledger the representation invariant holds. */
  lemma LedgerInvariantOnEveryRun(ds: seq<Delta>)
    requires Legitimate(ds)
    ensures Invariant(Run(EMPTY, ds))
  {
    RunKeepsInvariant(EMPTY, ds);
  }

  ghost predicate OnlyGrows(l: Ledger, after: Ledger) {
    && Appends(l.problems, after.problems) && Appends(l.informational, after.informational)
    && Appends(l.sales, after.sales) && Appends(l.actions, after.actions)
    && Active(l.problems) <= Active(after.problems)
    && (l.firstConfirmed.Some? ==> after.firstConfirmed == l.firstConfirmed)
  }

  lemma StepOnlyGrows(l: Ledger, d: Delta, after: Ledger)
    requires Invariant(l) && d.Consistent() && d.Sorted() && after == Step(l, d)
    ensures OnlyGrows(l, after)
  {
    StepLists(l, d);
    StepKeepsInvariant(l, d);
  }

  lemma OnlyGrowsChains(a: Ledger, b: Ledger, c: Ledger)
    requires OnlyGrows(a, b) && OnlyGrows(b, c)
    ensures OnlyGrows(a, c)
  {
  }

  /** Along a run, types are append-only, observed problems only grow and the
      first confirmation stays put. */
  lemma {:induction false} RunOnlyGrows(l: Ledger, ds: seq<Delta>)
    requires Invariant(l) && Legitimate(ds)
    ensures OnlyGrows(l, Run(l, ds))
  {
    if ds != [] {
      var before, d := ds[..|ds| - 1], ds[|ds| - 1];
      RunKeepsInvariant(l, before);
      RunOnlyGrows(l, before);
      StepOnlyGrows(Run(l, before), d, Run(l, ds));
      OnlyGrowsChains(l, Run(l, before), Run(l, ds));
    }
  }

  /** The active types of the three lists a delta can both add to and remove from. */
  datatype Actives = Actives(informational: set<Capability>, sales: set<Capability>, actions: set<Action>)

  ghost function ActivesOf(l: Ledger): Actives {
    Actives(Active(l.informational), Active(l.sales), Active(l.actions))
  }

  ghost function ActivesStep(a: Actives, d: Delta): Actives {
    Actives(ActiveStep(a.informational, d.OnInformational()), ActiveStep(a.sales, d.OnSales()),
            ActiveStep(a.actions, d.OnActions()))
  }

  ghost function ActivesRun(a: Actives, ds: seq<Delta>): Actives {
    if ds == [] then a else ActivesStep(ActivesRun(a, ds[..|ds| - 1]), ds[|ds| - 1])
  }

  lemma StepIsSetAlgebra(l: Ledger, d: Delta, after: Ledger)
    requires Invariant(l) && after == Step(l, d)
    ensures ActivesOf(after) == ActivesStep(ActivesOf(l), d)
  {
    StepLists(l, d);
  }

  /** A run of merges refines the algebra of sets, list by list. */
  lemma {:induction false} RunIsSetAlgebra(l: Ledger, ds: seq<Delta>)
    requires Invariant(l) && Legitimate(ds)
    ensures ActivesOf(Run(l, ds)) == ActivesRun(ActivesOf(l), ds)
  {
    if ds != [] {
      var before, d := ds[..|ds| - 1], ds[|ds| - 1];
      RunKeepsInvariant(l, before);
      RunIsSetAlgebra(l, before);
      StepIsSetAlgebra(Run(l, before), d, Run(l, ds));
    }
  }

  /** Whether the last delta that touched a type of one list added it and did
      not also remove it; `initially` if none touched it. */
  ghost predicate LastWriter<T>(initially: bool, ds: seq<Delta>, on: Delta -> ListDelta<T>, tag: T) {
    if ds == [] then initially
    else
      var d := on(ds[|ds| - 1]);
      if d.Touches(tag) then tag in ItemTags(d.added) && tag !in d.removed
      else LastWriter(initially, ds[..|ds| - 1], on, tag)
  }

  function OnInformational(): Delta -> ListDelta<Capability> { (d: Delta) => d.OnInformational() }

  function OnSales(): Delta -> ListDelta<Capability> { (d: Delta) => d.OnSales() }

  function OnActions(): Delta -> ListDelta<Action> { (d: Delta) => d.OnActions() }

  lemma {:induction false} ActivesRunIsLastWriter(a: Actives, ds: seq<Delta>, c: Capability, e: Action)
    ensures c in ActivesRun(a, ds).informational <==> LastWriter(c in a.informational, ds, OnInformational(), c)
    ensures c in ActivesRun(a, ds).sales <==> LastWriter(c in a.sales, ds, OnSales(), c)
    ensures e in ActivesRun(a, ds).actions <==> LastWriter(e in a.actions, ds, OnActions(), e)
  {
    if ds != [] {
      ActivesRunIsLastWriter(a, ds[..|ds| - 1], c, e);
    }
  }

  /** The history of a requirement: after any sequence of deltas a capability or
      an action is active exactly when the last delta that touched it added it
      and did not also remove it. */
  lemma LastWriterWins(l: Ledger, ds: seq<Delta>, c: Capability, e: Action)
    requires Invariant(l) && Legitimate(ds)
    ensures var after := ActivesOf(Run(l, ds));
            && (c in after.informational <==> LastWriter(c in Active(l.informational), ds, OnInformational(), c))
            && (c in after.sales <==> LastWriter(c in Active(l.sales), ds, OnSales(), c))
            && (e in after.actions <==> LastWriter(e in Active(l.actions), ds, OnActions(), e))
  {
    RunIsSetAlgebra(l, ds);
    ActivesRunIsLastWriter(ActivesOf(l), ds, c, e);
  }
}

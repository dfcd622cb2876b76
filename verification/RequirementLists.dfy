/** The ledger's operations as the program performs them: lists of shared entry
    objects updated in place (agent/requirements.py). A copied list shares its
    entries, so a merge through the copy is seen through the original as well. */
module RequirementLists {
  import opened Commercial
  import opened Requirements

  class EntryCell<T> {
    var tag: T
    var detail: Detail
    var sourceTurn: nat
    var active: bool
    var removedTurn: Option<nat>

    constructor (item: NewItem<T>, turn: nat)
      ensures Value() == Opened(item, turn)
    {
      tag, detail, sourceTurn, active, removedTurn := item.tag, item.detail, turn, true, None;
    }

    function Value(): Entry<T>
      reads this
    {
      Entry(tag, detail, sourceTurn, active, removedTurn)
    }

    method Update(item: NewItem<T>, turn: nat)
      requires item.tag == tag
      modifies this
      ensures Value() == Refreshed(old(Value()), item, turn)
    {
      detail := Detail(item.detail.span, if item.detail.source.Some? then item.detail.source else detail.source);
      sourceTurn := turn;
      active := true;
    }

    method Close(turn: nat)
      modifies this
      ensures Value() == Closed(old(Value()), turn)
    {
      active := false;
      removedTurn := Some(turn);
    }
  }

  ghost predicate Distinct<T>(cells: seq<EntryCell<T>>) {
    forall i, j :: 0 <= i < j < |cells| ==> cells[i] != cells[j]
  }

  ghost function Values<T>(cells: seq<EntryCell<T>>): (r: seq<Entry<T>>)
    reads cells
    ensures |r| == |cells| && forall i :: 0 <= i < |cells| ==> r[i] == cells[i].Value()
  {
    seq(|cells|, i requires 0 <= i < |cells| reads cells => cells[i].Value())
  }

  class EntryList<T(==)> {
    var cells: seq<EntryCell<T>>

    ghost predicate Valid()
      reads this
    {
      Distinct(cells)
    }

    ghost function Contents(): seq<Entry<T>>
      reads this, cells
    {
      Values(cells)
    }

    constructor ()
      ensures Valid() && cells == []
    {
      cells := [];
    }

    /** `list(existing)`: a new list of the same entry objects. */
    constructor Copy(other: EntryList<T>)
      requires other.Valid()
      ensures Valid() && cells == other.cells
    {
      cells := other.cells;
    }

    method IndexOf(tag: T) returns (i: nat)
      ensures i == Find(Contents(), tag)
    {
      i := 0;
      while i < |cells| && cells[i].tag != tag
        invariant i <= |cells|
        invariant forall j :: 0 <= j < i ==> cells[j].tag != tag
      {
        i := i + 1;
      }
      FindIs(Contents(), tag, i);
    }

    method MergeItem(item: NewItem<T>, turn: nat)
      requires Valid()
      modifies this, cells
      ensures Valid() && old(cells) <= cells && (forall j :: |old(cells)| <= j < |cells| ==> fresh(cells[j]))
      ensures Contents() == Requirements.MergeItem(old(Contents()), item, turn)
    {
      var i := IndexOf(item.tag);
      if i < |cells| {
        cells[i].Update(item, turn);
      } else {
        var cell := new EntryCell(item, turn);
        cells := cells + [cell];
      }
    }

    method MergeItems(items: seq<NewItem<T>>, turn: nat)
      requires Valid()
      modifies this, cells
      ensures Valid() && old(cells) <= cells && (forall j :: |old(cells)| <= j < |cells| ==> fresh(cells[j]))
      ensures Contents() == Requirements.MergeItems(old(Contents()), items, turn)
    {
      for i := 0 to |items|
        invariant Valid() && old(cells) <= cells && (forall j :: |old(cells)| <= j < |cells| ==> fresh(cells[j]))
        invariant Contents() == Requirements.MergeItems(old(Contents()), items[..i], turn)
      {
        assert items[..i + 1][..i] == items[..i];
        MergeItem(items[i], turn);
      }
      assert items[..|items|] == items;
    }

    method DeactivateItems(tags: seq<T>, turn: nat)
      requires Valid()
      modifies cells
      ensures Contents() == Requirements.DeactivateItems(old(Contents()), tags, turn)
    {
      for i := 0 to |tags|
        invariant Contents() == Requirements.DeactivateItems(old(Contents()), tags[..i], turn)
      {
        assert tags[..i + 1][..i] == tags[..i];
        var at := IndexOf(tags[i]);
        if at < |cells| {
          cells[at].Close(turn);
        }
      }
      assert tags[..|tags|] == tags;
    }

    method DeactivateAll(turn: nat)
      requires Valid()
      modifies cells
      ensures Contents() == Requirements.DeactivateAll(old(Contents()), turn)
    {
      ghost var before := Contents();
      for i := 0 to |cells|
        invariant forall j :: 0 <= j < i ==>
                    cells[j].Value() == if before[j].active then Closed(before[j], turn) else before[j]
        invariant forall j :: i <= j < |cells| ==> cells[j].Value() == before[j]
      {
        if cells[i].active {
          cells[i].Close(turn);
        }
      }
    }

    /** The three phases one delta runs on one list. */
    method Apply(d: ListDelta<T>, turn: nat)
      requires Valid()
      modifies this, cells
      ensures Valid() && old(cells) <= cells && (forall j :: |old(cells)| <= j < |cells| ==> fresh(cells[j]))
      ensures Contents() == ListStep(old(Contents()), d, turn)
    {
      if d.replace {
        DeactivateAll(turn);
      }
      MergeItems(d.added, turn);
      DeactivateItems(d.removed, turn);
    }
  }

  lemma {:induction false} FindIs<T>(entries: seq<Entry<T>>, tag: T, i: nat)
    requires i <= |entries|
    requires forall j :: 0 <= j < i ==> entries[j].tag != tag
    requires i < |entries| ==> entries[i].tag == tag
    ensures Find(entries, tag) == i
  {
    if i > 0 {
      FindIs(entries[1..], tag, i - 1);
    }
  }

  /** A merge through a copied list is visible through the list it was copied
      from: the entries are shared, only entries opened by the merge are not. */
  method MergeThroughCopy<T(==)>(original: EntryList<T>, d: ListDelta<T>, turn: nat) returns (merged: EntryList<T>)
    requires original.Valid()
    modifies original.cells
    ensures fresh(merged) && merged.Valid()
    ensures merged.Contents() == ListStep(old(original.Contents()), d, turn)
    ensures original.cells == old(original.cells) <= merged.cells
    ensures original.Contents() == merged.Contents()[..|original.cells|]
  {
    merged := new EntryList.Copy(original);
    merged.Apply(d, turn);
  }

}

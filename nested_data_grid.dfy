/** The nested data grid: a forest of items flattened in pre-order, each with the list of its
    ancestors; expansion state; visibility; and the grid's column template. */
module NestedDataGrid {
  import opened Wrappers
  import opened Text

  /** `FluentNestedDataItem`: its children are fixed at construction; only `isExpanded` changes. */
  class DataItem {
    const children: Option<seq<DataItem>>
    const isExpandable: bool
    var isExpanded: bool
    /** One more than the height of the tallest child: the measure that makes the forest finite. */
    ghost const height: nat

    constructor(children: Option<seq<DataItem>>)
      requires children.Some? ==> forall i :: 0 <= i < |children.value| ==> WellFormed(children.value[i])
      ensures this.children == children
      ensures isExpandable <==> children.Some? && |children.value| > 0
      ensures isExpanded <==> !isExpandable
      ensures WellFormed(this)
    {
      this.children := children;
      isExpandable := children.Some? && |children.value| > 0;
      isExpanded := children.None? || |children.value| == 0;
      height := 1 + MaxHeight(if children.Some? then children.value else []);
    }
  }

  /** The greatest height among `items`, 0 for none. */
  ghost function MaxHeight(items: seq<DataItem>): (r: nat)
    ensures forall i :: 0 <= i < |items| ==> items[i].height <= r
    ensures |items| > 0 ==> exists i :: 0 <= i < |items| && items[i].height == r
    ensures |items| == 0 ==> r == 0
  {
    if |items| == 0 then 0
    else
      var rest := MaxHeight(items[1..]);
      if items[0].height >= rest then items[0].height else rest
  }

  /** Every child is lower than its parent, all the way down. */
  ghost predicate WellFormed(x: DataItem)
    decreases x.height
  {
    x.height > 0 && (x.isExpandable <==> x.children.Some? && |x.children.value| > 0) &&
    (x.children.Some? ==> forall i :: 0 <= i < |x.children.value| ==> x.children.value[i].height < x.height) &&
    (x.children.Some? ==> forall i :: 0 <= i < |x.children.value| ==> WellFormed(x.children.value[i]))
  }

  ghost predicate AllWellFormed(items: seq<DataItem>) {
    forall i :: 0 <= i < |items| ==> WellFormed(items[i])
  }

  /** The children of an item, the empty list when they are null. */
  function ChildList(x: DataItem): seq<DataItem> {
    if x.children.Some? then x.children.value else []
  }

  lemma ChildrenLower(x: DataItem)
    requires WellFormed(x)
    ensures AllWellFormed(ChildList(x)) && MaxHeight(ChildList(x)) < x.height
  {
  }

  /** `FluentNestedDataGridDisplayItem`: an item with its ancestors, root first. */
  datatype DisplayItem = DisplayItem(item: DataItem, parents: seq<DataItem>)

  // ---------------------------------------------------------------------------
  // Flattening
  // ---------------------------------------------------------------------------

  /** `GetGridItemsFor(items, parents)`: each item, then (when its children are not null) the
      items of its children with the item appended to a copy of `parents`. */
  function ItemsFor(items: seq<DataItem>, parents: seq<DataItem>): (r: seq<DisplayItem>)
    requires AllWellFormed(items)
    ensures forall k :: 0 <= k < |r| ==> parents <= r[k].parents
    decreases MaxHeight(items), |items|
  {
    if |items| == 0 then []
    else
      var x := items[0];
      ChildrenLower(x);
      [DisplayItem(x, parents)]
      + (if x.children.Some? then ItemsFor(x.children.value, parents + [x]) else [])
      + ItemsFor(items[1..], parents)
  }

  /** `GetGridItems`. */
  function GetGridItems(items: seq<DataItem>): (r: seq<DisplayItem>)
    requires AllWellFormed(items)
    ensures |r| == NodeCount(items)
  {
    ItemsForCount(items, []);
    ItemsFor(items, [])
  }

  /** The number of items in a forest. */
  ghost function NodeCount(items: seq<DataItem>): nat
    requires AllWellFormed(items)
    decreases MaxHeight(items), |items|
  {
    if |items| == 0 then 0
    else
      ChildrenLower(items[0]);
      1 + NodeCount(ChildList(items[0])) + NodeCount(items[1..])
  }

  /** There is exactly one display item per item of the forest. */
  lemma {:induction false} ItemsForCount(items: seq<DataItem>, parents: seq<DataItem>)
    requires AllWellFormed(items)
    ensures |ItemsFor(items, parents)| == NodeCount(items)
    decreases MaxHeight(items), |items|
  {
    if |items| > 0 {
      var x := items[0];
      ChildrenLower(x);
      if x.children.Some? { ItemsForCount(x.children.value, parents + [x]); }
      ItemsForCount(items[1..], parents);
    }
  }

  /** `anc` is a chain from a member of `items` down through children to the parent of `x`
      (or empty, when `x` is itself a member of `items`). */
  ghost predicate IsPath(items: seq<DataItem>, anc: seq<DataItem>, x: DataItem)
    decreases |anc|
  {
    if |anc| == 0 then x in items
    else anc[0] in items && anc[0].children.Some? && IsPath(anc[0].children.value, anc[1..], x)
  }

  /** `d` carries `parents` followed by a chain of ancestors leading from a member of `items` to its item. */
  ghost predicate Placed(d: DisplayItem, items: seq<DataItem>, parents: seq<DataItem>) {
    |d.parents| >= |parents| && d.parents[..|parents|] == parents && IsPath(items, d.parents[|parents|..], d.item)
  }

  /** Every display item carries the given parents followed by exactly its ancestors below them,
      root first: its depth is the length of its list. */
  lemma {:induction false} ParentsAreAncestors(items: seq<DataItem>, parents: seq<DataItem>)
    requires AllWellFormed(items)
    ensures forall k :: 0 <= k < |ItemsFor(items, parents)| ==> Placed(ItemsFor(items, parents)[k], items, parents)
    decreases MaxHeight(items), |items|
  {
    if |items| > 0 {
      var x := items[0];
      ChildrenLower(x);
      var below := if x.children.Some? then ItemsFor(x.children.value, parents + [x]) else [];
      var rest := ItemsFor(items[1..], parents);
      var all := ItemsFor(items, parents);
      assert all == [DisplayItem(x, parents)] + below + rest;
      if x.children.Some? { ParentsAreAncestors(x.children.value, parents + [x]); }
      ParentsAreAncestors(items[1..], parents);
      PlacedJoin(items, parents, below, rest);
    }
  }

  /** The step of `ParentsAreAncestors`: the first item, its placed descendants and the placed
      remaining items, joined in display order, are all placed. */
  lemma PlacedJoin(items: seq<DataItem>, parents: seq<DataItem>, below: seq<DisplayItem>, rest: seq<DisplayItem>)
    requires |items| > 0
    requires items[0].children.None? ==> below == []
    requires items[0].children.Some? ==>
               forall k :: 0 <= k < |below| ==> Placed(below[k], items[0].children.value, parents + [items[0]])
    requires forall k :: 0 <= k < |rest| ==> Placed(rest[k], items[1..], parents)
    ensures var all := [DisplayItem(items[0], parents)] + below + rest;
            forall k :: 0 <= k < |all| ==> Placed(all[k], items, parents)
  {
    var all := [DisplayItem(items[0], parents)] + below + rest;
    forall k | 0 <= k < |all|
      ensures Placed(all[k], items, parents)
    {
      if k == 0 {
        assert all[k].parents[|parents|..] == [];
      } else if k < 1 + |below| {
        assert all[k] == below[k - 1];
        PlacedChild(below[k - 1], items, parents);
      } else {
        assert all[k] == rest[k - 1 - |below|];
        PlacedTail(rest[k - 1 - |below|], items, parents);
      }
    }
  }

  lemma PlacedChild(d: DisplayItem, items: seq<DataItem>, parents: seq<DataItem>)
    requires |items| > 0 && items[0].children.Some?
    requires Placed(d, items[0].children.value, parents + [items[0]])
    ensures Placed(d, items, parents)
  {
    var x := items[0];
    var ps := parents + [x];
    assert d.parents[..|parents|] == ps[..|parents|] == parents;
    var anc := d.parents[|parents|..];
    assert anc[0] == d.parents[|parents|] == ps[|parents|] == x;
    assert anc[1..] == d.parents[|ps|..];
  }

  lemma PlacedTail(d: DisplayItem, items: seq<DataItem>, parents: seq<DataItem>)
    requires |items| > 0 && Placed(d, items[1..], parents)
    ensures Placed(d, items, parents)
  {
    PathInTail(items, d.parents[|parents|..], d.item);
  }

  lemma PathInTail(items: seq<DataItem>, anc: seq<DataItem>, x: DataItem)
    requires |items| > 0 && IsPath(items[1..], anc, x)
    ensures IsPath(items, anc, x)
  {
  }

  /** The first display item of a forest is its first item with exactly the given parents, and
      every other item lies strictly deeper or among the later siblings' entries. */
  lemma {:induction false} PreOrder(items: seq<DataItem>, parents: seq<DataItem>)
    requires AllWellFormed(items) && |items| > 0
    ensures var x := items[0];
            var all := ItemsFor(items, parents);
            var n := if x.children.Some? then NodeCount(x.children.value) else 0;
            |all| > n &&
            all[0] == DisplayItem(x, parents) &&
            (forall k :: 1 <= k <= n ==> |all[k].parents| > |parents| && all[k].parents[|parents|] == x) &&
            all[n + 1..] == ItemsFor(items[1..], parents)
  {
    var x := items[0];
    ChildrenLower(x);
    var all := ItemsFor(items, parents);
    var below := if x.children.Some? then ItemsFor(x.children.value, parents + [x]) else [];
    assert all == [DisplayItem(x, parents)] + below + ItemsFor(items[1..], parents);
    if x.children.Some? {
      ItemsForCount(x.children.value, parents + [x]);
      ParentsAreAncestors(x.children.value, parents + [x]);
      forall k | 1 <= k <= |below|
        ensures |all[k].parents| > |parents| && all[k].parents[|parents|] == x
      {
        var ps := parents + [x];
        assert all[k] == below[k - 1];
        assert below[k - 1].parents[..|ps|] == ps;
        assert ps[|parents|] == x;
      }
    }
  }

  // ---------------------------------------------------------------------------
  // Levels, visibility and expansion
  // ---------------------------------------------------------------------------

  /** `GetGridItemsAtLevel`: the display items whose parents list has `level` entries, in order. */
  function GetGridItemsAtLevel(gridItems: seq<DisplayItem>, level: int): (r: seq<DisplayItem>)
    ensures forall k :: 0 <= k < |r| ==> r[k] in gridItems && |r[k].parents| == level
    ensures forall k :: 0 <= k < |gridItems| && |gridItems[k].parents| == level ==> gridItems[k] in r
    ensures |r| <= |gridItems|
  {
    if |gridItems| == 0 then []
    else (if |gridItems[0].parents| == level then [gridItems[0]] else []) + GetGridItemsAtLevel(gridItems[1..], level)
  }

  /** Filtering distributes over concatenation, so it keeps the input order. */
  lemma {:induction false} AtLevelAppend(xs: seq<DisplayItem>, ys: seq<DisplayItem>, level: int)
    ensures GetGridItemsAtLevel(xs + ys, level) == GetGridItemsAtLevel(xs, level) + GetGridItemsAtLevel(ys, level)
  {
    if |xs| > 0 {
      assert (xs + ys)[0] == xs[0];
      assert (xs + ys)[1..] == xs[1..] + ys;
      AtLevelAppend(xs[1..], ys, level);
    } else {
      assert xs + ys == ys;
    }
  }

  /** The display items of the members of `items` themselves, each with `parents`. */
  function TopDisplayItems(items: seq<DataItem>, parents: seq<DataItem>): (r: seq<DisplayItem>)
    ensures |r| == |items|
    ensures forall i :: 0 <= i < |items| ==> r[i] == DisplayItem(items[i], parents)
  {
    if |items| == 0 then [] else [DisplayItem(items[0], parents)] + TopDisplayItems(items[1..], parents)
  }

  lemma DeeperThanParents(items: seq<DataItem>, parents: seq<DataItem>)
    requires AllWellFormed(items)
    ensures forall k :: 0 <= k < |ItemsFor(items, parents)| ==> |ItemsFor(items, parents)[k].parents| >= |parents|
  {
    ParentsAreAncestors(items, parents);
  }

  /** Descendants lie deeper than the level of the given parents. */
  lemma DescendantsBelowLevel(x: DataItem, parents: seq<DataItem>)
    requires WellFormed(x) && x.children.Some?
    ensures GetGridItemsAtLevel(ItemsFor(x.children.value, parents + [x]), |parents|) == []
  {
    ChildrenLower(x);
    var below := ItemsFor(x.children.value, parents + [x]);
    DeeperThanParents(x.children.value, parents + [x]);
    NoneAtLevel(below, |parents|);
  }

  lemma {:induction false} NoneAtLevel(gridItems: seq<DisplayItem>, level: int)
    requires forall k :: 0 <= k < |gridItems| ==> |gridItems[k].parents| > level
    ensures GetGridItemsAtLevel(gridItems, level) == []
  {
    if |gridItems| > 0 {
      NoneAtLevel(gridItems[1..], level);
    }
  }

  /** At the level of the given parents, a forest contributes exactly its own items, in order. */
  lemma {:induction false} TopLevelItems(items: seq<DataItem>, parents: seq<DataItem>)
    requires AllWellFormed(items)
    ensures GetGridItemsAtLevel(ItemsFor(items, parents), |parents|) == TopDisplayItems(items, parents)
    decreases |items|
  {
    if |items| > 0 {
      var x := items[0];
      ChildrenLower(x);
      var below := if x.children.Some? then ItemsFor(x.children.value, parents + [x]) else [];
      var rest := ItemsFor(items[1..], parents);
      assert ItemsFor(items, parents) == [DisplayItem(x, parents)] + below + rest;
      AtLevelAppend([DisplayItem(x, parents)] + below, rest, |parents|);
      AtLevelAppend([DisplayItem(x, parents)], below, |parents|);
      if x.children.Some? {
        DescendantsBelowLevel(x, parents);
      }
      assert GetGridItemsAtLevel([DisplayItem(x, parents)], |parents|) == [DisplayItem(x, parents)];
      TopLevelItems(items[1..], parents);
    }
  }

  /** The roots are exactly the items at level 0. */
  lemma RootsAtLevelZero(items: seq<DataItem>)
    requires AllWellFormed(items)
    ensures GetGridItemsAtLevel(GetGridItems(items), 0) == TopDisplayItems(items, [])
  {
    TopLevelItems(items, []);
  }

  /** `IsVisible`: no parents, or every parent is expandable and expanded. */
  predicate IsVisible(d: DisplayItem)
    reads set j | 0 <= j < |d.parents| :: d.parents[j]
  {
    |d.parents| == 0 || forall j :: 0 <= j < |d.parents| ==> d.parents[j].isExpandable && d.parents[j].isExpanded
  }

  /** A parent on a path has at least one child, so it is expandable. */
  lemma {:induction false} PathParentsExpandable(items: seq<DataItem>, anc: seq<DataItem>, x: DataItem)
    requires AllWellFormed(items) && IsPath(items, anc, x)
    ensures forall j :: 0 <= j < |anc| ==> anc[j].isExpandable
    decreases |anc|
  {
    if |anc| > 0 {
      var i :| 0 <= i < |items| && items[i] == anc[0];
      assert WellFormed(anc[0]);
      ChildrenLower(anc[0]);
      PathParentsExpandable(anc[0].children.value, anc[1..], x);
      assert |anc[0].children.value| > 0 by {
        if |anc| == 1 {
          assert x in anc[0].children.value;
        } else {
          assert anc[1..][0] in anc[0].children.value;
        }
      }
      forall j | 1 <= j < |anc| ensures anc[j].isExpandable {
        assert anc[j] == anc[1..][j - 1];
      }
    }
  }

  /** While every parent still has its initial expansion state, exactly the roots are visible. */
  lemma InitiallyOnlyRootsVisible(items: seq<DataItem>, k: nat)
    requires AllWellFormed(items)
    requires k < |GetGridItems(items)|
    requires var d := GetGridItems(items)[k];
             forall j :: 0 <= j < |d.parents| ==> (d.parents[j].isExpanded <==> !d.parents[j].isExpandable)
    ensures IsVisible(GetGridItems(items)[k]) <==> |GetGridItems(items)[k].parents| == 0
  {
    var d := GetGridItems(items)[k];
    ParentsAreAncestors(items, []);
    assert d.parents[0..] == d.parents;
    PathParentsExpandable(items, d.parents, d.item);
    if |d.parents| > 0 {
      assert !(d.parents[0].isExpandable && d.parents[0].isExpanded);
    }
  }

  /** `ToggleNodeAsync`: flips the expansion of that one item. */
  method ToggleNode(d: DisplayItem)
    modifies d.item
    ensures d.item.isExpanded == !old(d.item.isExpanded)
  {
    d.item.isExpanded := !d.item.isExpanded;
  }

  // ---------------------------------------------------------------------------
  // Column template
  // ---------------------------------------------------------------------------

  const DefaultNestedColumnWidth := "0.45fr"

  /** Width of the nested column at `level`: the delegate's answer, else the default. */
  function ColumnWidth(gridItems: seq<DisplayItem>, level: int, widthAtLevel: Option<(int, seq<DisplayItem>) -> Option<string>>): string {
    if widthAtLevel.Some? then widthAtLevel.value(level, GetGridItemsAtLevel(gridItems, level)).GetOr(DefaultNestedColumnWidth)
    else DefaultNestedColumnWidth
  }

  /** `GetGridTemplateColumnsWithNestedColumns`; a negative level count makes `Enumerable.Range` throw. */
  function GridTemplateColumns(
    gridItems: seq<DisplayItem>, hierarchyLevels: int,
    widthAtLevel: Option<(int, seq<DisplayItem>) -> Option<string>>, gridTemplateColumns: Option<string>)
    : (r: Result<string, string>)
    ensures r.Err? <==> hierarchyLevels < 0
  {
    if hierarchyLevels < 0 then Err("hierarchyLevels")
    else
      var widths := seq(hierarchyLevels, level requires 0 <= level < hierarchyLevels => ColumnWidth(gridItems, level, widthAtLevel));
      Ok(Join(" ", widths) + " " + gridTemplateColumns.GetOr(""))
  }

  function Repeat(s: string, n: nat): string {
    if n == 0 then "" else s + Repeat(s, n - 1)
  }

  /** Without a width delegate the template is `0.45fr` once per level, each followed by a space,
      then the grid's own columns. */
  lemma {:induction false} DefaultTemplate(gridItems: seq<DisplayItem>, hierarchyLevels: nat, gridTemplateColumns: Option<string>)
    ensures GridTemplateColumns(gridItems, hierarchyLevels, None, gridTemplateColumns) ==
            Ok((if hierarchyLevels == 0 then " " else Repeat(DefaultNestedColumnWidth + " ", hierarchyLevels)) + gridTemplateColumns.GetOr(""))
  {
    var widths := seq(hierarchyLevels, level requires 0 <= level < hierarchyLevels => ColumnWidth(gridItems, level, None));
    var columns := gridTemplateColumns.GetOr("");
    assert GridTemplateColumns(gridItems, hierarchyLevels, None, gridTemplateColumns) == Ok(Join(" ", widths) + " " + columns);
    if hierarchyLevels > 0 {
      JoinDefaults(hierarchyLevels);
      assert widths == seq(hierarchyLevels, i => DefaultNestedColumnWidth);
      assert Join(" ", widths) + " " + columns == (Join(" ", widths) + " ") + columns;
    } else {
      assert widths == [];
      assert Join(" ", widths) + " " + columns == " " + columns;
    }
  }

  lemma {:induction false} JoinDefaults(n: nat)
    requires n > 0
    ensures Join(" ", seq(n, i => DefaultNestedColumnWidth)) + " " == Repeat(DefaultNestedColumnWidth + " ", n)
  {
    var parts := seq(n, i => DefaultNestedColumnWidth);
    if n > 1 {
      JoinDefaults(n - 1);
      assert parts[1..] == seq(n - 1, i => DefaultNestedColumnWidth);
      assert Join(" ", parts) == DefaultNestedColumnWidth + " " + Join(" ", parts[1..]);
      assert Join(" ", parts) + " " == (DefaultNestedColumnWidth + " ") + (Join(" ", parts[1..]) + " ");
    } else {
      assert parts == [DefaultNestedColumnWidth];
    }
  }
}

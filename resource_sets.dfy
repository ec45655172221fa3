/** `MapResourceNamesToSets`: resources are ordered by name and grouped by display name;
    a display name shared by several resources (replicas) becomes one resource set. */
module ResourceSets {
  import opened ResourceModel
  import opened Sequences

  type Resource = ResourceViewModel

  /** An entry of the resources grid: a lone resource, or a set named by the shared display
      name. */
  datatype GridEntry = Single(resource: Resource) | ResourceSet(setName: string, members: seq<Resource>)

  function EntryMembers(e: GridEntry): seq<Resource> {
    match e
    case Single(r) => [r]
    case ResourceSet(_, members) => members
  }

  // ----- OrderBy(c => c.Name): a stable sort under the resource-name comparer -----

  ghost predicate SortedByName(s: seq<Resource>, cmp: (string, string) -> int) {
    forall i, j :: 0 <= i < j < |s| ==> cmp(s[i].name, s[j].name) <= 0
  }

  /** Places `x`, which came before every element of `s` in the input, ahead of the first
      element it does not follow, so equal names keep their input order. */
  function InsertByName(x: Resource, s: seq<Resource>, cmp: (string, string) -> int): (r: seq<Resource>)
    ensures multiset(r) == multiset(s) + multiset{x}
    ensures |r| == |s| + 1
  {
    if |s| == 0 then [x]
    else if cmp(x.name, s[0].name) <= 0 then [x] + s
    else
      assert s == [s[0]] + s[1..];
      [s[0]] + InsertByName(x, s[1..], cmp)
  }

  function OrderByName(rs: seq<Resource>, cmp: (string, string) -> int): (r: seq<Resource>)
    ensures multiset(r) == multiset(rs)
  {
    if |rs| == 0 then []
    else
      assert rs == [rs[0]] + rs[1..];
      InsertByName(rs[0], OrderByName(rs[1..], cmp), cmp)
  }

  lemma SortedTail(s: seq<Resource>, cmp: (string, string) -> int)
    requires |s| > 0 && SortedByName(s, cmp)
    ensures SortedByName(s[1..], cmp)
  {
    forall i, j | 0 <= i < j < |s[1..]| ensures cmp(s[1..][i].name, s[1..][j].name) <= 0 {
      assert s[1..][i] == s[i + 1] && s[1..][j] == s[j + 1];
    }
  }

  lemma SortedCons(x: Resource, s: seq<Resource>, cmp: (string, string) -> int)
    requires SortedByName(s, cmp)
    requires forall j :: 0 <= j < |s| ==> cmp(x.name, s[j].name) <= 0
    ensures SortedByName([x] + s, cmp)
  {
    var r := [x] + s;
    forall i, j | 0 <= i < j < |r| ensures cmp(r[i].name, r[j].name) <= 0 {
      assert r[j] == s[j - 1];
      if i > 0 {
        assert r[i] == s[i - 1];
      }
    }
  }

  lemma {:induction false} InsertByNameSorted(x: Resource, s: seq<Resource>, cmp: (string, string) -> int)
    requires IsComparer(cmp) && SortedByName(s, cmp)
    ensures SortedByName(InsertByName(x, s, cmp), cmp)
    decreases |s|
  {
    if |s| == 0 {
    } else if cmp(x.name, s[0].name) <= 0 {
      InsertAtFrontSorted(x, s, cmp);
    } else {
      SortedTail(s, cmp);
      InsertByNameSorted(x, s[1..], cmp);
      FlipGreater(x.name, s[0].name, cmp);
      InsertAfterHeadSorted(x, s, cmp);
    }
  }

  lemma InsertAtFrontSorted(x: Resource, s: seq<Resource>, cmp: (string, string) -> int)
    requires IsComparer(cmp) && SortedByName(s, cmp)
    requires |s| > 0 && cmp(x.name, s[0].name) <= 0
    ensures SortedByName([x] + s, cmp)
  {
    forall j | 0 <= j < |s| ensures cmp(x.name, s[j].name) <= 0 {
      if j > 0 {
        assert cmp(s[0].name, s[j].name) <= 0;
        LessOrEqualTransitive(x.name, s[0].name, s[j].name, cmp);
      }
    }
    SortedCons(x, s, cmp);
  }

  lemma InsertAfterHeadSorted(x: Resource, s: seq<Resource>, cmp: (string, string) -> int)
    requires SortedByName(s, cmp)
    requires |s| > 0 && cmp(s[0].name, x.name) < 0
    requires SortedByName(InsertByName(x, s[1..], cmp), cmp)
    ensures SortedByName([s[0]] + InsertByName(x, s[1..], cmp), cmp)
  {
    var tail := s[1..];
    forall j | 0 <= j < |tail| ensures cmp(s[0].name, tail[j].name) <= 0 {
      assert tail[j] == s[j + 1];
    }
    InsertByNameBounded(s[0].name, x, tail, cmp);
    SortedCons(s[0], InsertByName(x, tail, cmp), cmp);
  }

  /** A lower bound of `x` and of every element of `s` bounds every element of the insertion. */
  lemma {:induction false} InsertByNameBounded(b: string, x: Resource, s: seq<Resource>, cmp: (string, string) -> int)
    requires cmp(b, x.name) <= 0
    requires forall j :: 0 <= j < |s| ==> cmp(b, s[j].name) <= 0
    ensures forall j :: 0 <= j < |InsertByName(x, s, cmp)| ==> cmp(b, InsertByName(x, s, cmp)[j].name) <= 0
    decreases |s|
  {
    var r := InsertByName(x, s, cmp);
    if |s| == 0 {
      assert r == [x];
    } else if cmp(x.name, s[0].name) <= 0 {
      assert r == [x] + s;
      forall j | 0 <= j < |r| ensures cmp(b, r[j].name) <= 0 {
        if j > 0 {
          assert r[j] == s[j - 1];
        }
      }
    } else {
      var tail := s[1..];
      forall j | 0 <= j < |tail| ensures cmp(b, tail[j].name) <= 0 {
        assert tail[j] == s[j + 1];
      }
      InsertByNameBounded(b, x, tail, cmp);
      var t := InsertByName(x, tail, cmp);
      assert r == [s[0]] + t;
      forall j | 0 <= j < |r| ensures cmp(b, r[j].name) <= 0 {
        if j > 0 {
          assert r[j] == t[j - 1];
        }
      }
    }
  }

  lemma LessOrEqualTransitive(a: string, b: string, c: string, cmp: (string, string) -> int)
    requires IsComparer(cmp) && cmp(a, b) <= 0 && cmp(b, c) <= 0
    ensures cmp(a, c) <= 0
  {
  }

  lemma FlipGreater(a: string, b: string, cmp: (string, string) -> int)
    requires IsComparer(cmp) && cmp(a, b) > 0
    ensures cmp(b, a) < 0
  {
  }

  /** Ordering by name sorts the resources and neither loses nor adds any. */
  lemma {:induction false} OrderByNameSorted(rs: seq<Resource>, cmp: (string, string) -> int)
    requires IsComparer(cmp)
    ensures SortedByName(OrderByName(rs, cmp), cmp)
    ensures multiset(OrderByName(rs, cmp)) == multiset(rs)
    decreases |rs|
  {
    if |rs| > 0 {
      OrderByNameSorted(rs[1..], cmp);
      InsertByNameSorted(rs[0], OrderByName(rs[1..], cmp), cmp);
    }
  }

  // ----- GroupBy(resource => resource.DisplayName) -----

  /** The keys of the grouping: display names in order of first appearance. */
  function DistinctDisplayNames(rs: seq<Resource>): (ks: seq<string>)
    ensures forall i, j :: 0 <= i < j < |ks| ==> ks[i] != ks[j]
  {
    if |rs| == 0 then []
    else
      var front := rs[..|rs| - 1];
      var x := rs[|rs| - 1];
      assert rs == front + [x];
      var ks := DistinctDisplayNames(front);
      if x.displayName in ks then ks else ks + [x.displayName]
  }

  /** The elements of one group, in their order in `rs`. */
  function Members(rs: seq<Resource>, key: string): (m: seq<Resource>)
    ensures forall i :: 0 <= i < |m| ==> m[i].displayName == key
    ensures |m| <= |rs|
  {
    if |rs| == 0 then []
    else
      var front := rs[..|rs| - 1];
      var x := rs[|rs| - 1];
      assert rs == front + [x];
      Members(front, key) + (if x.displayName == key then [x] else [])
  }

  /** A group holds exactly the resources of `rs` with that display name. */
  lemma {:induction false} MembersOfGroup(rs: seq<Resource>, key: string)
    ensures forall r :: r in Members(rs, key) ==> r in rs && r.displayName == key
    ensures forall r :: r in rs && r.displayName == key ==> r in Members(rs, key)
    decreases |rs|
  {
    if |rs| > 0 {
      var front := rs[..|rs| - 1];
      var x := rs[|rs| - 1];
      assert rs == front + [x];
      MembersOfGroup(front, key);
      assert Members(rs, key) == Members(front, key) + (if x.displayName == key then [x] else []);
    }
  }

  /** The keys are exactly the display names that occur, and every group has at least one
      element. */
  lemma {:induction false} DistinctDisplayNamesCover(rs: seq<Resource>)
    ensures forall i :: 0 <= i < |rs| ==> rs[i].displayName in DistinctDisplayNames(rs)
    ensures forall k :: k in DistinctDisplayNames(rs) ==> |Members(rs, k)| > 0
    decreases |rs|
  {
    if |rs| > 0 {
      var front := rs[..|rs| - 1];
      var x := rs[|rs| - 1];
      assert rs == front + [x];
      var ks := DistinctDisplayNames(front);
      DistinctDisplayNamesCover(front);
      var all := DistinctDisplayNames(rs);
      assert all == if x.displayName in ks then ks else ks + [x.displayName];
      forall i | 0 <= i < |rs| ensures rs[i].displayName in all {
        if i < |front| {
          assert rs[i] == front[i];
          assert front[i].displayName in ks;
        }
      }
      forall k | k in all ensures |Members(rs, k)| > 0 {
        assert Members(rs, k) == Members(front, k) + (if x.displayName == k then [x] else []);
        if k !in ks {
          assert k == x.displayName;
        }
      }
    }
  }

  /** The index of the first resource in `rs` with the given display name, or `|rs|` when
      there is none. */
  function FirstIndexOf(rs: seq<Resource>, name: string): (n: nat)
    ensures n <= |rs|
    ensures n < |rs| ==> rs[n].displayName == name
    ensures forall j :: 0 <= j < n ==> rs[j].displayName != name
  {
    if |rs| == 0 then 0
    else if rs[0].displayName == name then 0
    else
      var n := 1 + FirstIndexOf(rs[1..], name);
      assert forall j :: 1 <= j < |rs| ==> rs[j] == rs[1..][j - 1];
      n
  }

  /** A name that occurs in `front` is found at the same place after one more resource. */
  lemma FirstIndexOfSnocFound(front: seq<Resource>, x: Resource, name: string)
    requires FirstIndexOf(front, name) < |front|
    ensures FirstIndexOf(front + [x], name) == FirstIndexOf(front, name)
  {
    assert forall j :: 0 <= j < |front| ==> (front + [x])[j] == front[j];
  }

  /** A name that does not occur in `front` is first found at the resource appended after it. */
  lemma FirstIndexOfSnocNew(front: seq<Resource>, x: Resource)
    requires forall j :: 0 <= j < |front| ==> front[j].displayName != x.displayName
    ensures FirstIndexOf(front + [x], x.displayName) == |front|
  {
    assert forall j :: 0 <= j < |front| ==> (front + [x])[j] == front[j];
    assert (front + [x])[|front|] == x;
  }

  /** `GroupBy` yields its groups in order of first appearance: every key occurs in `rs`, and
      an earlier key first occurs before a later one. */
  lemma {:induction false} DistinctDisplayNamesOrder(rs: seq<Resource>)
    ensures var ks := DistinctDisplayNames(rs);
            (forall i :: 0 <= i < |ks| ==> FirstIndexOf(rs, ks[i]) < |rs|) &&
            (forall i, j :: 0 <= i < j < |ks| ==> FirstIndexOf(rs, ks[i]) < FirstIndexOf(rs, ks[j]))
    decreases |rs|
  {
    if |rs| > 0 {
      var front := rs[..|rs| - 1];
      var x := rs[|rs| - 1];
      Sequences.SnocSplit(rs);
      DistinctDisplayNamesOrder(front);
      DistinctDisplayNamesCover(front);
      DistinctDisplayNamesOrderStep(front, x);
    }
  }

  /** The step of `DistinctDisplayNamesOrder`: one more resource keeps the first indices of the
      old keys, and a new key is first found at the new resource, after all of them. */
  lemma DistinctDisplayNamesOrderStep(front: seq<Resource>, x: Resource)
    requires var ks := DistinctDisplayNames(front);
             (forall i :: 0 <= i < |ks| ==> FirstIndexOf(front, ks[i]) < |front|) &&
             (forall i, j :: 0 <= i < j < |ks| ==> FirstIndexOf(front, ks[i]) < FirstIndexOf(front, ks[j]))
    requires forall i :: 0 <= i < |front| ==> front[i].displayName in DistinctDisplayNames(front)
    ensures var ks := DistinctDisplayNames(front + [x]);
            (forall i :: 0 <= i < |ks| ==> FirstIndexOf(front + [x], ks[i]) < |front + [x]|) &&
            (forall i, j :: 0 <= i < j < |ks| ==> FirstIndexOf(front + [x], ks[i]) < FirstIndexOf(front + [x], ks[j]))
  {
    var ks := DistinctDisplayNames(front);
    DistinctDisplayNamesSnoc(front, x);
    forall i | 0 <= i < |ks|
      ensures FirstIndexOf(front + [x], ks[i]) == FirstIndexOf(front, ks[i])
    {
      FirstIndexOfSnocFound(front, x, ks[i]);
    }
    if x.displayName !in ks {
      forall j | 0 <= j < |front|
        ensures front[j].displayName != x.displayName
      {
        assert front[j].displayName in ks;
      }
      FirstIndexOfSnocNew(front, x);
      OrderAppendNewKey(ks, x.displayName, (k: string) => FirstIndexOf(front + [x], k), |front|);
    }
  }

  /** Appending a key whose index lies beyond every old key's keeps the keys' indices increasing. */
  lemma OrderAppendNewKey(ks: seq<string>, k: string, index: string -> nat, bound: nat)
    requires forall i :: 0 <= i < |ks| ==> index(ks[i]) < bound
    requires forall i, j :: 0 <= i < j < |ks| ==> index(ks[i]) < index(ks[j])
    requires index(k) == bound
    ensures var all := ks + [k];
            (forall i :: 0 <= i < |all| ==> index(all[i]) <= bound) &&
            (forall i, j :: 0 <= i < j < |all| ==> index(all[i]) < index(all[j]))
  {
    var all := ks + [k];
    forall i, j | 0 <= i < j < |all|
      ensures index(all[i]) < index(all[j])
    {
      assert all[i] == ks[i];
      if j == |ks| {
        assert all[j] == k;
      } else {
        assert all[j] == ks[j];
      }
    }
  }

  lemma DistinctDisplayNamesSnoc(rs: seq<Resource>, x: Resource)
    ensures DistinctDisplayNames(rs + [x]) ==
            if x.displayName in DistinctDisplayNames(rs) then DistinctDisplayNames(rs)
            else DistinctDisplayNames(rs) + [x.displayName]
  {
    assert (rs + [x])[..|rs + [x]| - 1] == rs;
  }

  function GroupEntry(rs: seq<Resource>, key: string): (e: GridEntry)
    requires |Members(rs, key)| > 0
  {
    var m := Members(rs, key);
    if |m| > 1 then ResourceSet(key, m) else Single(m[0])
  }

  function GroupEntries(rs: seq<Resource>, ks: seq<string>): (es: seq<GridEntry>)
    requires forall i :: 0 <= i < |ks| ==> |Members(rs, ks[i])| > 0
    ensures |es| == |ks|
  {
    seq(|ks|, i requires 0 <= i < |ks| => GroupEntry(rs, ks[i]))
  }

  /** `MapResourceNamesToSets`. `values` are the dictionary's values in enumeration order
      and `cmp` the default string comparer used by `OrderBy`. */
  function MapResourceNamesToSets(values: seq<Resource>, cmp: (string, string) -> int): (es: seq<GridEntry>)
    ensures var sorted := OrderByName(values, cmp);
            var ks := DistinctDisplayNames(sorted);
            |es| == |ks| &&
            forall i :: 0 <= i < |es| ==>
              var m := Members(sorted, ks[i]);
              |m| > 0 &&
              (|m| > 1 ==> es[i] == ResourceSet(ks[i], m)) &&
              (|m| == 1 ==> es[i] == Single(m[0]))
  {
    var sorted := OrderByName(values, cmp);
    var ks := DistinctDisplayNames(sorted);
    DistinctDisplayNamesCover(sorted);
    GroupEntries(sorted, ks)
  }

  function EntryName(e: GridEntry): string {
    match e
    case Single(r) => r.displayName
    case ResourceSet(n, _) => n
  }

  function Flatten(es: seq<GridEntry>): seq<Resource> {
    if |es| == 0 then [] else Flatten(es[..|es| - 1]) + EntryMembers(es[|es| - 1])
  }

  function ConcatMembers(rs: seq<Resource>, ks: seq<string>): seq<Resource> {
    if |ks| == 0 then [] else ConcatMembers(rs, ks[..|ks| - 1]) + Members(rs, ks[|ks| - 1])
  }

  lemma {:induction false} FlattenGroupEntries(rs: seq<Resource>, ks: seq<string>)
    requires forall i :: 0 <= i < |ks| ==> |Members(rs, ks[i])| > 0
    ensures Flatten(GroupEntries(rs, ks)) == ConcatMembers(rs, ks)
    decreases |ks|
  {
    if |ks| > 0 {
      var front := ks[..|ks| - 1];
      var k := ks[|ks| - 1];
      FlattenGroupEntries(rs, front);
      var es := GroupEntries(rs, ks);
      assert es[..|es| - 1] == GroupEntries(rs, front);
      assert es[|es| - 1] == GroupEntry(rs, k);
      var m := Members(rs, k);
      assert |m| == 1 ==> [m[0]] == m;
      assert EntryMembers(es[|es| - 1]) == m;
    }
  }

  /** Appending one resource adds it to exactly the group of its display name. */
  lemma {:induction false} ConcatMembersAppend(rs: seq<Resource>, x: Resource, ks: seq<string>)
    requires forall i, j :: 0 <= i < j < |ks| ==> ks[i] != ks[j]
    ensures multiset(ConcatMembers(rs + [x], ks)) ==
            multiset(ConcatMembers(rs, ks)) + (if x.displayName in ks then multiset{x} else multiset{})
    decreases |ks|
  {
    if |ks| > 0 {
      var front := ks[..|ks| - 1];
      DistinctSnoc(ks);
      ConcatMembersAppend(rs, x, front);
      ConcatMembersAppendStep(rs, x, ks);
    }
  }

  /** One key more: the last key's group grows by `x` exactly when `x` has that display name. */
  lemma ConcatMembersAppendStep(rs: seq<Resource>, x: Resource, ks: seq<string>)
    requires |ks| > 0
    requires ks[|ks| - 1] !in ks[..|ks| - 1]
    requires multiset(ConcatMembers(rs + [x], ks[..|ks| - 1])) ==
             multiset(ConcatMembers(rs, ks[..|ks| - 1])) + (if x.displayName in ks[..|ks| - 1] then multiset{x} else multiset{})
    ensures multiset(ConcatMembers(rs + [x], ks)) ==
            multiset(ConcatMembers(rs, ks)) + (if x.displayName in ks then multiset{x} else multiset{})
  {
    var front := ks[..|ks| - 1];
    var k := ks[|ks| - 1];
    MembersSnoc(rs, x, k);
    InSnoc(ks, x.displayName);
    MultisetAppendStep(ConcatMembers(rs + [x], ks), ConcatMembers(rs, ks),
                       ConcatMembers(rs + [x], front), ConcatMembers(rs, front), Members(rs, k),
                       x, x.displayName in front, x.displayName == k);
  }

  lemma MultisetAppendStep(grown: seq<Resource>, total: seq<Resource>, grownFront: seq<Resource>, front: seq<Resource>,
                           m: seq<Resource>, x: Resource, inFront: bool, isLast: bool)
    requires grown == grownFront + (m + (if isLast then [x] else []))
    requires total == front + m
    requires multiset(grownFront) == multiset(front) + (if inFront then multiset{x} else multiset{})
    requires !(inFront && isLast)
    ensures multiset(grown) == multiset(total) + (if inFront || isLast then multiset{x} else multiset{})
  {
  }

  lemma MembersSnoc(rs: seq<Resource>, x: Resource, key: string)
    ensures Members(rs + [x], key) == Members(rs, key) + (if x.displayName == key then [x] else [])
  {
    assert (rs + [x])[..|rs + [x]| - 1] == rs;
  }

  lemma DistinctSnoc(ks: seq<string>)
    requires |ks| > 0
    requires forall i, j :: 0 <= i < j < |ks| ==> ks[i] != ks[j]
    ensures var front := ks[..|ks| - 1];
            (forall i, j :: 0 <= i < j < |front| ==> front[i] != front[j]) && ks[|ks| - 1] !in front
  {
    var front := ks[..|ks| - 1];
    forall i, j | 0 <= i < j < |front| ensures front[i] != front[j] {
      assert front[i] == ks[i] && front[j] == ks[j];
    }
    forall p | 0 <= p < |front| ensures front[p] != ks[|ks| - 1] {
      assert front[p] == ks[p];
    }
  }

  lemma {:induction false} ConcatMembersOfAllKeys(rs: seq<Resource>)
    ensures multiset(ConcatMembers(rs, DistinctDisplayNames(rs))) == multiset(rs)
    decreases |rs|
  {
    if |rs| > 0 {
      var front := rs[..|rs| - 1];
      var x := rs[|rs| - 1];
      assert rs == front + [x];
      var ks := DistinctDisplayNames(front);
      ConcatMembersOfAllKeys(front);
      ConcatMembersAppend(front, x, ks);
      if x.displayName !in ks {
        var ks' := ks + [x.displayName];
        assert ks'[..|ks'| - 1] == ks;
        MembersOfAbsentKey(front, x.displayName);
        assert Members(rs, x.displayName) == [x];
      }
    }
  }

  lemma {:induction false} MembersOfAbsentKey(rs: seq<Resource>, key: string)
    requires key !in DistinctDisplayNames(rs)
    ensures Members(rs, key) == []
    decreases |rs|
  {
    if |rs| > 0 {
      var front := rs[..|rs| - 1];
      assert rs == front + [rs[|rs| - 1]];
      MembersOfAbsentKey(front, key);
    }
  }

  /** Every resource appears in the grid exactly as often as in the input: nothing is lost
      and nothing is shown twice. */
  lemma EveryResourceOnce(values: seq<Resource>, cmp: (string, string) -> int)
    ensures multiset(Flatten(MapResourceNamesToSets(values, cmp))) == multiset(values)
  {
    var sorted := OrderByName(values, cmp);
    var ks := DistinctDisplayNames(sorted);
    assert MapResourceNamesToSets(values, cmp) == GroupEntries(sorted, ks);
    FlattenGroupEntries(sorted, ks);
    ConcatMembersOfAllKeys(sorted);
  }

  /** One entry per display name: entry names are pairwise distinct, each names an input
      display name, and each member carries that display name. */
  lemma EntriesByDisplayName(values: seq<Resource>, cmp: (string, string) -> int)
    ensures var es := MapResourceNamesToSets(values, cmp);
            (forall i, j :: 0 <= i < j < |es| ==> EntryName(es[i]) != EntryName(es[j])) &&
            (forall i :: 0 <= i < |es| ==> exists r :: r in values && r.displayName == EntryName(es[i])) &&
            (forall i, r :: 0 <= i < |es| && r in EntryMembers(es[i]) ==> r.displayName == EntryName(es[i]))
  {
    var sorted := OrderByName(values, cmp);
    var ks := DistinctDisplayNames(sorted);
    var es := MapResourceNamesToSets(values, cmp);
    forall i | 0 <= i < |es| ensures EntryName(es[i]) == ks[i] {
      var m := Members(sorted, ks[i]);
      if |m| == 1 {
        assert m[0] in m;
      }
    }
    DistinctDisplayNamesCover(sorted);
    forall i | 0 <= i < |es| ensures exists r :: r in values && r.displayName == EntryName(es[i]) {
      var m := Members(sorted, ks[i]);
      assert ks[i] in ks;
      MembersOfGroup(sorted, ks[i]);
      var r := m[0];
      assert r in m;
      assert r in sorted && r.displayName == ks[i];
      assert r in multiset(values);
    }
  }

  /** A set is formed exactly when at least two resources share a display name, and a set's
      members are in name order. */
  lemma SetsAreReplicaGroups(values: seq<Resource>, cmp: (string, string) -> int, i: nat)
    requires IsComparer(cmp)
    requires i < |MapResourceNamesToSets(values, cmp)|
    ensures var e := MapResourceNamesToSets(values, cmp)[i];
            (e.ResourceSet? <==> |Members(values, EntryName(e))| >= 2) &&
            (e.ResourceSet? ==> SortedByName(e.members, cmp))
  {
    var sorted := OrderByName(values, cmp);
    OrderByNameSorted(values, cmp);
    var ks := DistinctDisplayNames(sorted);
    var e := MapResourceNamesToSets(values, cmp)[i];
    var m := Members(sorted, ks[i]);
    MembersSameCount(values, sorted, ks[i]);
    if |m| == 1 {
      assert m[0] in m;
    }
    MembersSorted(sorted, ks[i], cmp);
  }

  /** The size of a group depends only on which resources there are, not on their order. */
  lemma {:induction false} MembersSameCount(a: seq<Resource>, b: seq<Resource>, key: string)
    requires multiset(a) == multiset(b)
    ensures |Members(a, key)| == |Members(b, key)|
    decreases |a|
  {
    if |a| > 0 {
      var front := a[..|a| - 1];
      var x := a[|a| - 1];
      assert a == front + [x];
      assert multiset(a) == multiset(front) + multiset{x};
      assert x in multiset(b);
      var k :| 0 <= k < |b| && b[k] == x;
      var b' := b[..k] + b[k + 1..];
      assert b == b[..k] + [x] + b[k + 1..];
      assert multiset(b) == multiset(b') + multiset{x};
      assert multiset(front) == multiset(a) - multiset{x};
      assert multiset(b') == multiset(b) - multiset{x};
      MembersSameCount(front, b', key);
      MembersRemoveAt(b, k, key);
    } else {
      assert |b| == 0;
    }
  }

  lemma {:induction false} MembersRemoveAt(b: seq<Resource>, k: nat, key: string)
    requires k < |b|
    ensures |Members(b, key)| == |Members(b[..k] + b[k + 1..], key)| + (if b[k].displayName == key then 1 else 0)
    decreases |b|
  {
    var front := b[..|b| - 1];
    var x := b[|b| - 1];
    assert b == front + [x];
    if k == |b| - 1 {
      assert b[..k] + b[k + 1..] == front;
    } else {
      MembersRemoveAt(front, k, key);
      assert b[..k] + b[k + 1..] == (front[..k] + front[k + 1..]) + [x];
      var c := b[..k] + b[k + 1..];
      assert c[..|c| - 1] == front[..k] + front[k + 1..];
    }
  }

  lemma {:induction false} MembersSorted(rs: seq<Resource>, key: string, cmp: (string, string) -> int)
    requires SortedByName(rs, cmp)
    ensures SortedByName(Members(rs, key), cmp)
    decreases |rs|
  {
    if |rs| > 0 {
      var front := rs[..|rs| - 1];
      var x := rs[|rs| - 1];
      assert rs == front + [x];
      assert SortedByName(front, cmp) by {
        forall i, j | 0 <= i < j < |front| ensures cmp(front[i].name, front[j].name) <= 0 {
          assert front[i] == rs[i] && front[j] == rs[j];
        }
      }
      MembersSorted(front, key, cmp);
      var m := Members(front, key);
      MembersOfGroup(front, key);
      if x.displayName == key {
        var m' := m + [x];
        forall i, j | 0 <= i < j < |m'| ensures cmp(m'[i].name, m'[j].name) <= 0 {
          if j == |m'| - 1 {
            assert m'[i] == m[i] && m[i] in m;
            assert m'[i] in front;
            var p :| 0 <= p < |front| && front[p] == m'[i];
            assert rs[p] == m'[i] && rs[|rs| - 1] == x;
          } else {
            assert m'[i] == m[i] && m'[j] == m[j];
          }
        }
      }
    }
  }
}

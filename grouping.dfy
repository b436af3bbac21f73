/**
 * The parent level of both treemaps: leaf nodes bucketed by a key (the sector's section code, the
 * country's continent) in first-seen order, each bucket sorted by descending value and summed,
 * and the groups sorted by descending total.
 */
module Grouping {
  import opened Common
  import opened Ordering
  import opened Nodes

  /** One parent tile: `id` is the prefixed key, `key` the section code or continent. */
  datatype Group<T> = Group(id: string, key: string, caption: string, value: real, children: seq<T>)

  /** The group sort key `b.value || 0`; group values are numbers, so this is the value itself. */
  function GroupValue<T>(g: Group<T>): real {
    g.value
  }

  /** `s.reduce((acc, c) => acc + value(c), 0)`, summed left to right. */
  function SumValues<T>(s: seq<T>, value: T -> real): real
    decreases |s|
  {
    if s == [] then 0.0 else SumValues(s[..|s| - 1], value) + value(s[|s| - 1])
  }

  lemma {:induction false} SumValuesCons<T>(x: T, s: seq<T>, value: T -> real)
    ensures SumValues([x] + s, value) == value(x) + SumValues(s, value)
    decreases |s|
  {
    if s != [] {
      var t := [x] + s;
      assert t[..|t| - 1] == [x] + s[..|s| - 1];
      SumValuesCons(x, s[..|s| - 1], value);
    }
  }

  lemma {:induction false} SumValuesInsert<T>(x: T, s: seq<T>, key: T -> real, value: T -> real)
    ensures SumValues(InsertDesc(x, s, key), value) == value(x) + SumValues(s, value)
    decreases |s|
  {
    if s == [] || key(x) >= key(s[0]) {
      SumValuesCons(x, s, value);
    } else {
      SumValuesInsert(x, s[1..], key, value);
      SumValuesCons(s[0], InsertDesc(x, s[1..], key), value);
      SumValuesCons(s[0], s[1..], value);
      assert [s[0]] + s[1..] == s;
    }
  }

  /** Sorting does not change a sum. */
  lemma {:induction false} SumValuesSort<T>(s: seq<T>, key: T -> real, value: T -> real)
    ensures SumValues(SortDesc(s, key), value) == SumValues(s, value)
    decreases |s|
  {
    if s != [] {
      SumValuesSort(s[1..], key, value);
      SumValuesInsert(s[0], SortDesc(s[1..], key), key, value);
      SumValuesCons(s[0], s[1..], value);
      assert [s[0]] + s[1..] == s;
    }
  }

  /** The keys of the bucket map in insertion order: each node key once, where it first occurs. */
  function Order<T>(nodes: seq<T>, key: T -> string): seq<string>
    decreases |nodes|
  {
    if nodes == [] then []
    else
      var o := Order(nodes[..|nodes| - 1], key);
      var k := key(nodes[|nodes| - 1]);
      if k in o then o else o + [k]
  }

  /** The bucket of key `k`: the nodes with that key, in their order. */
  function Bucket<T>(nodes: seq<T>, key: T -> string, k: string): seq<T>
    decreases |nodes|
  {
    if nodes == [] then []
    else
      var x := nodes[|nodes| - 1];
      Bucket(nodes[..|nodes| - 1], key, k) + (if key(x) == k then [x] else [])
  }

  /** The bucket keys are exactly the node keys. */
  lemma {:induction false} OrderMembers<T(!new)>(nodes: seq<T>, key: T -> string)
    ensures forall k :: k in Order(nodes, key) <==> exists x :: x in nodes && key(x) == k
    decreases |nodes|
  {
    if nodes != [] {
      var p := nodes[..|nodes| - 1];
      assert nodes == p + [nodes[|nodes| - 1]];
      OrderMembers(p, key);
    }
  }

  predicate Distinct(ks: seq<string>) {
    forall i, j :: 0 <= i < j < |ks| ==> ks[i] != ks[j]
  }

  /** Each key appears once in the insertion order. */
  lemma {:induction false} OrderDistinct<T>(nodes: seq<T>, key: T -> string)
    ensures Distinct(Order(nodes, key))
    decreases |nodes|
  {
    if nodes != [] {
      var o := Order(nodes[..|nodes| - 1], key);
      var k := key(nodes[|nodes| - 1]);
      OrderDistinct(nodes[..|nodes| - 1], key);
      if k !in o {
        var o2 := o + [k];
        assert Order(nodes, key) == o2;
        forall i, j | 0 <= i < j < |o2| ensures o2[i] != o2[j] {
          if j == |o| {
            assert o2[i] == o[i] && o[i] in o;
          } else {
            assert o2[i] == o[i] && o2[j] == o[j];
          }
        }
      } else {
        assert Order(nodes, key) == o;
      }
    }
  }

  /** A bucket holds exactly the nodes with its key. */
  lemma {:induction false} BucketMembers<T(!new)>(nodes: seq<T>, key: T -> string, k: string)
    ensures forall x :: x in Bucket(nodes, key, k) <==> x in nodes && key(x) == k
    decreases |nodes|
  {
    if nodes != [] {
      var p := nodes[..|nodes| - 1];
      assert nodes == p + [nodes[|nodes| - 1]];
      BucketMembers(p, key, k);
    }
  }

  /** A key that has not been seen has an empty bucket. */
  lemma {:induction false} BucketUnseen<T>(nodes: seq<T>, key: T -> string, k: string)
    requires k !in Order(nodes, key)
    ensures Bucket(nodes, key, k) == []
    decreases |nodes|
  {
    if nodes != [] {
      BucketUnseen(nodes[..|nodes| - 1], key, k);
    }
  }

  /** The group of key `k`: its bucket sorted by descending value, summed and labelled. */
  function GroupFor<T(==)>(nodes: seq<T>, key: T -> string, value: T -> real, prefix: string,
                                labelOf: (string, seq<T>) -> string, k: string): Group<T>
  {
    var children := SortDesc(Bucket(nodes, key, k), value);
    Group(prefix + k, k, labelOf(k, children), SumValues(children, value), children)
  }

  /** `Array.from(map, ...)` over the keys `ks`. */
  function GroupsOver<T(==)>(nodes: seq<T>, key: T -> string, value: T -> real, prefix: string,
                                  labelOf: (string, seq<T>) -> string, ks: seq<string>): (r: seq<Group<T>>)
    ensures |r| == |ks|
  {
    seq(|ks|, i requires 0 <= i < |ks| => GroupFor(nodes, key, value, prefix, labelOf, ks[i]))
  }

  /** The groups a grouping function returns. */
  function Groups<T(==,!new)>(nodes: seq<T>, key: T -> string, value: T -> real, prefix: string,
                              labelOf: (string, seq<T>) -> string): (r: seq<Group<T>>)
    ensures SortedDesc(r, GroupValue)
    ensures multiset(r) == multiset(GroupsOver(nodes, key, value, prefix, labelOf, Order(nodes, key)))
  {
    var u := GroupsOver(nodes, key, value, prefix, labelOf, Order(nodes, key));
    SortDescSorted(u, GroupValue);
    SortDesc(u, GroupValue)
  }

  /** The bucket-map loop: `if (!m.has(k)) m.set(k, []); m.get(k).push(n)` for every node. */
  method BucketBy<T>(nodes: seq<T>, key: T -> string) returns (order: seq<string>, buckets: map<string, seq<T>>)
    ensures order == Order(nodes, key)
    ensures forall k :: k in buckets <==> k in order
    ensures forall k :: k in buckets ==> buckets[k] == Bucket(nodes, key, k)
  {
    order := [];
    buckets := map[];
    for i := 0 to |nodes|
      invariant order == Order(nodes[..i], key)
      invariant forall k :: k in buckets <==> k in order
      invariant forall k :: k in buckets ==> buckets[k] == Bucket(nodes[..i], key, k)
    {
      var n := nodes[i];
      var k := key(n);
      assert nodes[..i + 1][..i] == nodes[..i];
      if k !in buckets {
        BucketUnseen(nodes[..i], key, k);
        order := order + [k];
        buckets := buckets[k := []];
      }
      buckets := buckets[k := buckets[k] + [n]];
    }
    assert nodes[..|nodes|] == nodes;
  }

  /**
   * The bucket-map loop, the per-bucket sort and sum, and the final sort of the groups, computing
   * exactly the groups `Groups` describes.
   */
  method GroupNodes<T(==,!new)>(nodes: seq<T>, key: T -> string, value: T -> real, prefix: string,
                                labelOf: (string, seq<T>) -> string) returns (groups: seq<Group<T>>)
    ensures groups == Groups(nodes, key, value, prefix, labelOf)
  {
    var order, buckets := BucketBy(nodes, key);
    var unsorted: seq<Group<T>> := [];
    for j := 0 to |order|
      invariant unsorted == GroupsOver(nodes, key, value, prefix, labelOf, order[..j])
    {
      var k := order[j];
      var children := SortDesc(buckets[k], value);
      var total := SumValues(children, value);
      GroupsOverSnoc(nodes, key, value, prefix, labelOf, order, j);
      unsorted := unsorted + [Group(prefix + k, k, labelOf(k, children), total, children)];
    }
    assert order[..|order|] == order;
    groups := SortDesc(unsorted, GroupValue);
  }

  /** The groups over one more key are the groups so far followed by that key's group. */
  lemma GroupsOverSnoc<T>(nodes: seq<T>, key: T -> string, value: T -> real, prefix: string,
                                 labelOf: (string, seq<T>) -> string, ks: seq<string>, j: nat)
    requires j < |ks|
    ensures GroupsOver(nodes, key, value, prefix, labelOf, ks[..j + 1])
         == GroupsOver(nodes, key, value, prefix, labelOf, ks[..j]) + [GroupFor(nodes, key, value, prefix, labelOf, ks[j])]
  {
  }

  // ---------------------------------------------------------------------------------------------
  // What the grouping promises

  /**
   * One group per distinct node key and no other: each group is the group of its own key, and
   * every key a node has gets its group.
   */
  lemma GroupsByKey<T(!new)>(nodes: seq<T>, key: T -> string, value: T -> real, prefix: string,
                                labelOf: (string, seq<T>) -> string)
    ensures var gs := Groups(nodes, key, value, prefix, labelOf);
      && |gs| == |Order(nodes, key)|
      && (forall g :: g in gs ==> g == GroupFor(nodes, key, value, prefix, labelOf, g.key) && g.key in Order(nodes, key))
      && (forall x :: x in nodes ==> GroupFor(nodes, key, value, prefix, labelOf, key(x)) in gs)
  {
    GroupsOwnKeys(nodes, key, value, prefix, labelOf);
    GroupsCoverKeys(nodes, key, value, prefix, labelOf);
  }

  /** Each group is the group of its own key, for a key some node has. */
  lemma GroupsOwnKeys<T(!new)>(nodes: seq<T>, key: T -> string, value: T -> real, prefix: string,
                                  labelOf: (string, seq<T>) -> string)
    ensures forall g :: g in Groups(nodes, key, value, prefix, labelOf) ==>
      g == GroupFor(nodes, key, value, prefix, labelOf, g.key) && g.key in Order(nodes, key)
  {
    var o := Order(nodes, key);
    var u := GroupsOver(nodes, key, value, prefix, labelOf, o);
    var gs := Groups(nodes, key, value, prefix, labelOf);
    forall g | g in gs
      ensures g == GroupFor(nodes, key, value, prefix, labelOf, g.key) && g.key in o
    {
      assert g in multiset(u);
      var i :| 0 <= i < |u| && u[i] == g;
    }
  }

  /** Every key a node has gets its group. */
  lemma GroupsCoverKeys<T(!new)>(nodes: seq<T>, key: T -> string, value: T -> real, prefix: string,
                                    labelOf: (string, seq<T>) -> string)
    ensures forall x :: x in nodes ==> GroupFor(nodes, key, value, prefix, labelOf, key(x)) in Groups(nodes, key, value, prefix, labelOf)
  {
    var o := Order(nodes, key);
    var u := GroupsOver(nodes, key, value, prefix, labelOf, o);
    var gs := Groups(nodes, key, value, prefix, labelOf);
    OrderMembers(nodes, key);
    forall x | x in nodes
      ensures GroupFor(nodes, key, value, prefix, labelOf, key(x)) in gs
    {
      assert key(x) in o;
      var i :| 0 <= i < |o| && o[i] == key(x);
      assert u[i] in multiset(gs);
    }
  }

  /**
   * A group's children are exactly the nodes with its key, each as often as in the input, in
   * descending order of value, and its value is their sum; its id is the prefixed key.
   */
  lemma GroupContents<T(!new)>(nodes: seq<T>, key: T -> string, value: T -> real, prefix: string,
                                  labelOf: (string, seq<T>) -> string, k: string)
    ensures var g := GroupFor(nodes, key, value, prefix, labelOf, k);
      && g.id == prefix + k
      && multiset(g.children) == multiset(Bucket(nodes, key, k))
      && (forall x :: x in g.children <==> x in nodes && key(x) == k)
      && SortedDesc(g.children, value)
      && g.value == SumValues(Bucket(nodes, key, k), value)
  {
    var b := Bucket(nodes, key, k);
    var g := GroupFor(nodes, key, value, prefix, labelOf, k);
    SortDescSorted(b, value);
    SumValuesSort(b, value, value);
    BucketMembers(nodes, key, k);
    forall x ensures x in g.children <==> x in b {
      assert x in g.children <==> x in multiset(g.children);
      assert x in b <==> x in multiset(b);
    }
  }

  /** Every node is a child of exactly one group: the group of its key. */
  lemma Partition<T(!new)>(nodes: seq<T>, key: T -> string, value: T -> real, prefix: string,
                              labelOf: (string, seq<T>) -> string, x: T)
    requires x in nodes
    ensures var gs := Groups(nodes, key, value, prefix, labelOf);
      && (exists g :: g in gs && x in g.children)
      && (forall g :: g in gs && x in g.children ==> g.key == key(x))
  {
    var gs := Groups(nodes, key, value, prefix, labelOf);
    GroupsByKey(nodes, key, value, prefix, labelOf);
    GroupContents(nodes, key, value, prefix, labelOf, key(x));
    forall g | g in gs && x in g.children ensures g.key == key(x) {
      GroupContents(nodes, key, value, prefix, labelOf, g.key);
    }
  }

  /** There are groups exactly when there are nodes. */
  lemma GroupsEmpty<T(!new)>(nodes: seq<T>, key: T -> string, value: T -> real, prefix: string,
                                labelOf: (string, seq<T>) -> string)
    ensures Groups(nodes, key, value, prefix, labelOf) == [] <==> nodes == []
  {
    GroupsByKey(nodes, key, value, prefix, labelOf);
    if nodes != [] {
      OrderMembers(nodes, key);
      assert key(nodes[0]) in Order(nodes, key);
    }
  }

  /** When every node value is positive, every group has children and a positive value. */
  lemma GroupsPositive<T(!new)>(nodes: seq<T>, key: T -> string, value: T -> real, prefix: string,
                                labelOf: (string, seq<T>) -> string)
    requires forall x :: x in nodes ==> value(x) > 0.0
    ensures forall g :: g in Groups(nodes, key, value, prefix, labelOf) ==> g.children != [] && g.value > 0.0
  {
    GroupsByKey(nodes, key, value, prefix, labelOf);
    OrderMembers(nodes, key);
    forall g | g in Groups(nodes, key, value, prefix, labelOf) ensures g.children != [] && g.value > 0.0 {
      var k := g.key;
      assert g == GroupFor(nodes, key, value, prefix, labelOf, k) && k in Order(nodes, key);
      GroupPositive(nodes, key, value, prefix, labelOf, k);
    }
  }

  lemma GroupPositive<T(!new)>(nodes: seq<T>, key: T -> string, value: T -> real, prefix: string,
                               labelOf: (string, seq<T>) -> string, k: string)
    requires forall x :: x in nodes ==> value(x) > 0.0
    requires exists x :: x in nodes && key(x) == k
    ensures GroupFor(nodes, key, value, prefix, labelOf, k).children != []
    ensures GroupFor(nodes, key, value, prefix, labelOf, k).value > 0.0
  {
    var g := GroupFor(nodes, key, value, prefix, labelOf, k);
    GroupContents(nodes, key, value, prefix, labelOf, k);
    var x :| x in nodes && key(x) == k;
    assert x in g.children;
    forall i | 0 <= i < |g.children| ensures value(g.children[i]) > 0.0 {
      assert g.children[i] in g.children;
    }
    PositiveSum(g.children, value);
  }

  lemma {:induction false} PositiveSum<T>(s: seq<T>, value: T -> real)
    requires s != [] && forall i :: 0 <= i < |s| ==> value(s[i]) > 0.0
    ensures SumValues(s, value) > 0.0
    decreases |s|
  {
    if |s| > 1 {
      PositiveSum(s[..|s| - 1], value);
    }
  }

  // ---------------------------------------------------------------------------------------------
  // Conservation: the group totals add up to the node total

  /** The summed bucket totals over the keys `ks`. */
  function BucketTotals<T>(nodes: seq<T>, key: T -> string, value: T -> real, ks: seq<string>): real
    decreases |ks|
  {
    if ks == [] then 0.0
    else BucketTotals(nodes, key, value, ks[..|ks| - 1]) + SumValues(Bucket(nodes, key, ks[|ks| - 1]), value)
  }

  lemma {:induction false} BucketTotalsSnoc<T>(p: seq<T>, x: T, key: T -> string, value: T -> real, ks: seq<string>)
    requires Distinct(ks)
    ensures BucketTotals(p + [x], key, value, ks)
      == BucketTotals(p, key, value, ks) + (if key(x) in ks then value(x) else 0.0)
    decreases |ks|
  {
    if ks != [] {
      var q := ks[..|ks| - 1];
      var k := ks[|ks| - 1];
      BucketTotalsSnoc(p, x, key, value, q);
      assert (p + [x])[..|p + [x]| - 1] == p;
      var b := Bucket(p, key, k);
      if key(x) == k {
        assert Bucket(p + [x], key, k) == b + [x];
        assert (b + [x])[..|b + [x]| - 1] == b;
        assert key(x) !in q;
      } else {
        assert Bucket(p + [x], key, k) == b + [];
        assert b + [] == b;
        assert key(x) in ks <==> key(x) in q;
      }
    }
  }

  lemma {:induction false} BucketTotalsOrder<T(!new)>(nodes: seq<T>, key: T -> string, value: T -> real)
    ensures BucketTotals(nodes, key, value, Order(nodes, key)) == SumValues(nodes, value)
    decreases |nodes|
  {
    if nodes != [] {
      var p := nodes[..|nodes| - 1];
      var x := nodes[|nodes| - 1];
      assert nodes == p + [x];
      var o := Order(p, key);
      BucketTotalsOrder(p, key, value);
      OrderDistinct(p, key);
      BucketTotalsSnoc(p, x, key, value, o);
      assert SumValues(nodes, value) == SumValues(p, value) + value(x);
      if key(x) !in o {
        NewKeyTotal(p, x, key, value);
      }
    }
  }

  lemma NewKeyTotal<T>(p: seq<T>, x: T, key: T -> string, value: T -> real)
    requires key(x) !in Order(p, key)
    ensures BucketTotals(p + [x], key, value, Order(p, key) + [key(x)])
      == BucketTotals(p + [x], key, value, Order(p, key)) + value(x)
  {
    var o := Order(p, key);
    var o2 := o + [key(x)];
    assert o2[..|o2| - 1] == o;
    BucketUnseen(p, key, key(x));
    assert (p + [x])[..|p + [x]| - 1] == p;
    var b := Bucket(p + [x], key, key(x));
    assert b == [x];
    assert b[..0] == [];
    assert SumValues(b, value) == value(x);
  }

  lemma {:induction false} GroupsOverTotal<T(!new)>(nodes: seq<T>, key: T -> string, value: T -> real, prefix: string,
                                                     labelOf: (string, seq<T>) -> string, ks: seq<string>)
    ensures SumValues(GroupsOver(nodes, key, value, prefix, labelOf, ks), GroupValue) == BucketTotals(nodes, key, value, ks)
    decreases |ks|
  {
    if ks != [] {
      var q := ks[..|ks| - 1];
      var k := ks[|ks| - 1];
      var u := GroupsOver(nodes, key, value, prefix, labelOf, ks);
      assert u[..|u| - 1] == GroupsOver(nodes, key, value, prefix, labelOf, q);
      GroupsOverTotal(nodes, key, value, prefix, labelOf, q);
      SumValuesSort(Bucket(nodes, key, k), value, value);
    }
  }

  /** Grouping loses no value: the group values add up to the sum of the node values. */
  lemma GroupsConserveValue<T(!new)>(nodes: seq<T>, key: T -> string, value: T -> real, prefix: string,
                                        labelOf: (string, seq<T>) -> string)
    ensures SumValues(Groups(nodes, key, value, prefix, labelOf), GroupValue) == SumValues(nodes, value)
  {
    var u := GroupsOver(nodes, key, value, prefix, labelOf, Order(nodes, key));
    SumValuesSort(u, GroupValue, GroupValue);
    GroupsOverTotal(nodes, key, value, prefix, labelOf, Order(nodes, key));
    BucketTotalsOrder(nodes, key, value);
  }

  // ---------------------------------------------------------------------------------------------
  // The two concrete groupings

  /** `n.section || "UNK"`. */
  function SectionKey(n: SectorNode): string {
    OrElse(n.section, "UNK")
  }

  /** The section label: the largest child's section long name, else its short name, else the code. */
  function SectionLabel(code: string, children: seq<SectorNode>): string {
    if children == [] then code
    else OrElse(OrElse(children[0].sectionLongName, children[0].sectionShortName), code)
  }

  /** `n.continent || "Unknown"`. */
  function ContinentKey(n: CountryNode): string {
    OrElse(n.continent, "Unknown")
  }

  /** A continent group is labelled with the continent itself. */
  function ContinentLabel(continent: string, children: seq<CountryNode>): string {
    continent
  }

  method SectionGroups(nodes: seq<SectorNode>) returns (groups: seq<Group<SectorNode>>)
    ensures groups == Groups(nodes, SectionKey, SectorValue, "section:", SectionLabel)
  {
    groups := GroupNodes(nodes, SectionKey, SectorValue, "section:", SectionLabel);
  }

  method ContinentGroups(nodes: seq<CountryNode>) returns (groups: seq<Group<CountryNode>>)
    ensures groups == Groups(nodes, ContinentKey, CountryValue, "continent:", ContinentLabel)
  {
    groups := GroupNodes(nodes, ContinentKey, CountryValue, "continent:", ContinentLabel);
  }
}

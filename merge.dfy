/**
 * The quantity-merge rule shared by UpdateNumberOfRequest (folding a request
 * into a profile's reality lists) and ExportMaterialsRequest (summing the
 * consumables of all equipment): materials are folded one at a time into a map
 * keyed by material name; an existing entry's quantity grows by the new
 * quantity and keeps its other fields, and a new name is inserted as given.
 */
module Merge {
  import opened Types
  import opened Utils

  /** Folding one material into the map. */
  function MergeOne(m: map<string, Material>, x: Material): map<string, Material>
  {
    if x.name in m then m[x.name := m[x.name].(quantity := m[x.name].quantity + x.quantity)]
    else m[x.name := x]
  }

  /** Folding `items` into `m`, first item first. */
  function MergeSeq(m: map<string, Material>, items: seq<Material>): map<string, Material>
  {
    if items == [] then m
    else MergeOne(MergeSeq(m, items[..|items| - 1]), items[|items| - 1])
  }

  /** The names the items carry. */
  function Names(items: seq<Material>): (names: set<string>)
    ensures forall i :: 0 <= i < |items| ==> items[i].name in names
  {
    if items == [] then {}
    else Names(items[..|items| - 1]) + {items[|items| - 1].name}
  }

  /** Every name in Names is carried by some item. */
  lemma {:induction false} NameWitness(items: seq<Material>, n: string) returns (i: nat)
    requires n in Names(items)
    ensures i < |items| && items[i].name == n
  {
    var init := items[..|items| - 1];
    if n in Names(init) {
      i := NameWitness(init, n);
    } else {
      i := |items| - 1;
    }
  }

  /** Total quantity of the items named `n`. */
  function SumQty(items: seq<Material>, n: string): real
  {
    if items == [] then 0.0
    else SumQty(items[..|items| - 1], n) + (if items[|items| - 1].name == n then items[|items| - 1].quantity else 0.0)
  }

  /** The first item named `n`. */
  function FirstNamed(items: seq<Material>, n: string): (x: Material)
    requires n in Names(items)
    ensures x.name == n
  {
    var init := items[..|items| - 1];
    if n in Names(init) then FirstNamed(init, n) else items[|items| - 1]
  }

  /** The merged map holds the old names and the item names, and no other. */
  lemma {:induction false} MergeKeys(m: map<string, Material>, items: seq<Material>)
    ensures MergeSeq(m, items).Keys == m.Keys + Names(items)
  {
    if items != [] {
      MergeKeys(m, items[..|items| - 1]);
    }
  }

  /** An entry whose name no item carries is unchanged. */
  lemma {:induction false} MergeUntouched(m: map<string, Material>, items: seq<Material>, n: string)
    requires n in m && n !in Names(items)
    ensures n in MergeSeq(m, items) && MergeSeq(m, items)[n] == m[n]
  {
    if items != [] {
      MergeUntouched(m, items[..|items| - 1], n);
    }
  }

  /** An existing entry keeps its fields and its quantity grows by the items' total. */
  lemma {:induction false} MergeExisting(m: map<string, Material>, items: seq<Material>, n: string)
    requires n in m
    ensures n in MergeSeq(m, items)
    ensures MergeSeq(m, items)[n] == m[n].(quantity := m[n].quantity + SumQty(items, n))
  {
    if items != [] {
      MergeExisting(m, items[..|items| - 1], n);
    }
  }

  /** A new name takes the fields of its first item and the total quantity of all its items. */
  lemma {:induction false} MergeNew(m: map<string, Material>, items: seq<Material>, n: string)
    requires n !in m && n in Names(items)
    ensures n in MergeSeq(m, items)
    ensures MergeSeq(m, items)[n] == FirstNamed(items, n).(quantity := SumQty(items, n))
  {
    var init := items[..|items| - 1];
    var last := items[|items| - 1];
    var before := MergeSeq(m, init);
    assert MergeSeq(m, items) == MergeOne(before, last);
    if n in Names(init) {
      MergeNew(m, init, n);
      assert FirstNamed(items, n) == FirstNamed(init, n);
      if last.name == n {
        assert MergeOne(before, last)[n] == before[n].(quantity := before[n].quantity + last.quantity);
      } else {
        assert MergeOne(before, last)[n] == before[n];
      }
    } else {
      MergeKeys(m, init);
      NoItemsNoSum(init, n);
      assert last.name == n && n !in before;
      assert MergeOne(before, last)[n] == last;
      assert FirstNamed(items, n) == last;
    }
  }

  /** Items that do not carry a name contribute nothing to its total. */
  lemma {:induction false} NoItemsNoSum(items: seq<Material>, n: string)
    requires n !in Names(items)
    ensures SumQty(items, n) == 0.0
  {
    if items != [] {
      NoItemsNoSum(items[..|items| - 1], n);
    }
  }

  /** Merging two runs of items one after the other is merging their concatenation. */
  lemma {:induction false} MergeAppend(m: map<string, Material>, a: seq<Material>, b: seq<Material>)
    ensures MergeSeq(m, a + b) == MergeSeq(MergeSeq(m, a), b)
  {
    if b == [] {
      assert a + b == a;
    } else {
      var ab := a + b;
      var init := b[..|b| - 1];
      assert ab[..|ab| - 1] == a + init;
      assert ab[|ab| - 1] == b[|b| - 1];
      calc {
        MergeSeq(m, ab);
        MergeOne(MergeSeq(m, a + init), b[|b| - 1]);
        { MergeAppend(m, a, init); }
        MergeOne(MergeSeq(MergeSeq(m, a), init), b[|b| - 1]);
        MergeSeq(MergeSeq(m, a), b);
      }
    }
  }

  // ---------------------------------------------------------------------------
  // Ranging over a Go map of materials
  // ---------------------------------------------------------------------------

  /** The values of `m` in the key order `order`. */
  function ValuesInOrder(m: map<string, Material>, order: seq<string>): (vs: seq<Material>)
    requires forall k :: k in order ==> k in m
    ensures |vs| == |order|
    ensures forall i :: 0 <= i < |order| ==> vs[i] == m[order[i]]
  {
    seq(|order|, i requires 0 <= i < |order| => m[order[i]])
  }

  /** One more key, one more value at the end. */
  lemma ValuesSnoc(m: map<string, Material>, order: seq<string>, k: string)
    requires forall j :: j in order ==> j in m
    requires k in m
    ensures ValuesInOrder(m, order + [k]) == ValuesInOrder(m, order) + [m[k]]
  {
  }

  /** The names carried by the values of a map. */
  ghost function ValueNames(m: map<string, Material>): set<string>
  {
    set k | k in m :: m[k].name
  }

  /** Whatever the iteration order, the values carry the names of `ValueNames`. */
  lemma NamesOfValues(m: map<string, Material>, order: seq<string>)
    requires IsOrderOf(order, m.Keys)
    ensures Names(ValuesInOrder(m, order)) == ValueNames(m)
  {
    var vs := ValuesInOrder(m, order);
    forall n | n in Names(vs)
      ensures n in ValueNames(m)
    {
      var i := NameWitness(vs, n);
      assert m[order[i]].name == n;
    }
    forall n | n in ValueNames(m)
      ensures n in Names(vs)
    {
      var k :| k in m && m[k].name == n;
      var i :| 0 <= i < |order| && order[i] == k;
      assert vs[i].name == n;
    }
  }

  /** `after` is `before` with the values of `requested` folded in, in one of the map's iteration orders. */
  ghost predicate MergedFrom(before: map<string, Material>, after: map<string, Material>, requested: map<string, Material>)
  {
    exists order :: IsOrderOf(order, requested.Keys) && after == MergeSeq(before, ValuesInOrder(requested, order))
  }

  /** The order-independent part of MergedFrom: which names the merged map holds. */
  lemma MergedFromKeys(before: map<string, Material>, after: map<string, Material>, requested: map<string, Material>)
    requires MergedFrom(before, after, requested)
    ensures after.Keys == before.Keys + ValueNames(requested)
  {
    var order :| IsOrderOf(order, requested.Keys) && after == MergeSeq(before, ValuesInOrder(requested, order));
    MergeKeys(before, ValuesInOrder(requested, order));
    NamesOfValues(requested, order);
  }

  // ---------------------------------------------------------------------------
  // The totals do not depend on the iteration order
  // ---------------------------------------------------------------------------

  lemma {:induction false} SumQtyAppend(a: seq<Material>, b: seq<Material>, n: string)
    ensures SumQty(a + b, n) == SumQty(a, n) + SumQty(b, n)
  {
    if b == [] {
      assert a + b == a;
    } else {
      var ab := a + b;
      assert ab[..|ab| - 1] == a + b[..|b| - 1];
      SumQtyAppend(a, b[..|b| - 1], n);
    }
  }

  /** What one item contributes to the total of `n`. */
  function Share(x: Material, n: string): real
  {
    if x.name == n then x.quantity else 0.0
  }

  /** Taking out the item at `j` takes its share out of the total. */
  lemma SumQtyRemove(b: seq<Material>, j: nat, n: string)
    requires j < |b|
    ensures SumQty(b, n) == SumQty(b[..j] + b[j + 1..], n) + Share(b[j], n)
  {
    assert b == b[..j] + ([b[j]] + b[j + 1..]);
    SumQtyAppend(b[..j], [b[j]] + b[j + 1..], n);
    SumQtyAppend([b[j]], b[j + 1..], n);
    SumQtyAppend(b[..j], b[j + 1..], n);
    assert SumQty([b[j]], n) == SumQty([], n) + Share(b[j], n);
  }

  /** Taking out the item at `j` takes it out of the multiset. */
  lemma MultisetRemove(b: seq<Material>, j: nat)
    requires j < |b|
    ensures multiset(b[..j] + b[j + 1..]) == multiset(b) - multiset{b[j]}
  {
    assert b == b[..j] + [b[j]] + b[j + 1..];
  }

  /** Reordering the items does not change any total. */
  lemma {:induction false} SumQtyPerm(a: seq<Material>, b: seq<Material>, n: string)
    requires multiset(a) == multiset(b)
    ensures SumQty(a, n) == SumQty(b, n)
  {
    if a != [] {
      var x := a[|a| - 1];
      var a' := a[..|a| - 1];
      assert a == a' + [x];
      assert x in multiset(b);
      var j :| 0 <= j < |b| && b[j] == x;
      MultisetRemove(a, |a| - 1);
      MultisetRemove(b, j);
      assert a' == a[..|a| - 1] + a[|a|..];
      SumQtyPerm(a', b[..j] + b[j + 1..], n);
      SumQtyRemove(b, j, n);
    } else {
      assert b == [];
    }
  }

  /** Listing the values of concatenated key lists is concatenating their listings. */
  lemma ValuesConcat(m: map<string, Material>, a: seq<string>, b: seq<string>)
    requires forall k :: k in a ==> k in m
    requires forall k :: k in b ==> k in m
    ensures ValuesInOrder(m, a + b) == ValuesInOrder(m, a) + ValuesInOrder(m, b)
  {
  }

  /** The inductive step of ValuesPerm: appending `l` to one listing and inserting it into the other. */
  lemma ValuesPermStep(m: map<string, Material>, a: seq<string>, pre: seq<string>, post: seq<string>, l: string)
    requires l in m
    requires forall k :: k in a ==> k in m
    requires forall k :: k in pre ==> k in m
    requires forall k :: k in post ==> k in m
    requires multiset(ValuesInOrder(m, a)) == multiset(ValuesInOrder(m, pre + post))
    ensures multiset(ValuesInOrder(m, a + [l])) == multiset(ValuesInOrder(m, pre + [l] + post))
  {
    ValuesConcat(m, a, [l]);
    ValuesConcat(m, [l], post);
    ValuesConcat(m, pre, [l] + post);
    ValuesConcat(m, pre, post);
    var one := ValuesInOrder(m, [l]);
    var vPre, vPost := ValuesInOrder(m, pre), ValuesInOrder(m, post);
    calc {
      multiset(ValuesInOrder(m, a + [l]));
      multiset(ValuesInOrder(m, a) + one);
      multiset(ValuesInOrder(m, a)) + multiset(one);
      multiset(vPre + vPost) + multiset(one);
      multiset(vPre) + multiset(one) + multiset(vPost);
      multiset(vPre + (one + vPost));
      multiset(ValuesInOrder(m, pre + ([l] + post)));
      { assert pre + ([l] + post) == pre + [l] + post; }
      multiset(ValuesInOrder(m, pre + [l] + post));
    }
  }

  /** Any two iteration orders of a map visit the same values. */
  lemma {:induction false} ValuesPerm(m: map<string, Material>, o1: seq<string>, o2: seq<string>, keys: set<string>)
    requires keys <= m.Keys
    requires IsOrderOf(o1, keys) && IsOrderOf(o2, keys)
    ensures multiset(ValuesInOrder(m, o1)) == multiset(ValuesInOrder(m, o2))
  {
    if o1 != [] {
      var l := o1[|o1| - 1];
      var o1' := o1[..|o1| - 1];
      assert l in o2;
      var j :| 0 <= j < |o2| && o2[j] == l;
      OrderWithoutLast(o1, keys);
      OrderWithout(o2, j, keys);
      var pre, post := o2[..j], o2[j + 1..];
      ValuesPerm(m, o1', pre + post, keys - {l});
      assert o1 == o1' + [l];
      assert o2 == pre + [l] + post;
      ValuesPermStep(m, o1', pre, post, l);
    } else {
      OrderLength(o2, keys);
    }
  }

  /** One iteration order of a set of keys, as a reference for the totals. */
  ghost function SomeOrder(keys: set<string>): (o: seq<string>)
    ensures IsOrderOf(o, keys)
    decreases |keys|
  {
    if keys == {} then []
    else
      var k :| k in keys;
      var o := SomeOrder(keys - {k});
      assert forall i :: 0 <= i < |o| ==> o[i] != k;
      o + [k]
  }

  /** The total quantity of the values of `m` named `n`. */
  ghost function TotalQty(m: map<string, Material>, n: string): real
  {
    SumQty(ValuesInOrder(m, SomeOrder(m.Keys)), n)
  }

  /** Whatever order the map is visited in, the values named `n` add up to TotalQty. */
  lemma SumInAnyOrder(m: map<string, Material>, order: seq<string>, n: string)
    requires IsOrderOf(order, m.Keys)
    ensures SumQty(ValuesInOrder(m, order), n) == TotalQty(m, n)
  {
    ValuesPerm(m, order, SomeOrder(m.Keys), m.Keys);
    SumQtyPerm(ValuesInOrder(m, order), ValuesInOrder(m, SomeOrder(m.Keys)), n);
  }

  /**
   * Folding a map of materials into `before`: an existing entry keeps its name
   * and unit and its quantity grows by the total requested under its name, in
   * whatever order the map was visited.
   */
  lemma MergedExisting(before: map<string, Material>, after: map<string, Material>, requested: map<string, Material>, n: string)
    requires MergedFrom(before, after, requested)
    requires n in before
    ensures n in after
    ensures after[n] == before[n].(quantity := before[n].quantity + TotalQty(requested, n))
  {
    var order :| IsOrderOf(order, requested.Keys) && after == MergeSeq(before, ValuesInOrder(requested, order));
    MergeExisting(before, ValuesInOrder(requested, order), n);
    SumInAnyOrder(requested, order, n);
  }

  /** An entry whose name is not requested is left as it was. */
  lemma MergedUntouched(before: map<string, Material>, after: map<string, Material>, requested: map<string, Material>, n: string)
    requires MergedFrom(before, after, requested)
    requires n in before && n !in ValueNames(requested)
    ensures n in after && after[n] == before[n]
  {
    var order :| IsOrderOf(order, requested.Keys) && after == MergeSeq(before, ValuesInOrder(requested, order));
    NamesOfValues(requested, order);
    MergeUntouched(before, ValuesInOrder(requested, order), n);
  }

  /**
   * A new name is inserted as the requested value `k` that the fold met
   * first under that name, with the total requested under it as its quantity.
   */
  lemma MergedNew(before: map<string, Material>, after: map<string, Material>, requested: map<string, Material>, n: string)
    returns (k: string)
    requires MergedFrom(before, after, requested)
    requires n !in before && n in ValueNames(requested)
    ensures k in requested && requested[k].name == n
    ensures n in after && after[n] == requested[k].(quantity := TotalQty(requested, n))
  {
    var order :| IsOrderOf(order, requested.Keys) && after == MergeSeq(before, ValuesInOrder(requested, order));
    var vs := ValuesInOrder(requested, order);
    NamesOfValues(requested, order);
    MergeNew(before, vs, n);
    SumInAnyOrder(requested, order, n);
    var i := FirstNamedAt(vs, n);
    k := order[i];
  }

  /** Where the first item named `n` sits. */
  lemma {:induction false} FirstNamedAt(items: seq<Material>, n: string) returns (i: nat)
    requires n in Names(items)
    ensures i < |items| && items[i] == FirstNamed(items, n)
  {
    var init := items[..|items| - 1];
    if n in Names(init) {
      i := FirstNamedAt(init, n);
    } else {
      i := |items| - 1;
    }
  }

  /**
   * `for _, x := range requested { ... }` with the merge rule as its body. Go
   * visits the values in an unspecified order; `order` is the one taken.
   */
  method MergeInto(m: map<string, Material>, requested: map<string, Material>)
    returns (r: map<string, Material>, ghost order: seq<string>)
    ensures IsOrderOf(order, requested.Keys)
    ensures r == MergeSeq(m, ValuesInOrder(requested, order))
    ensures MergedFrom(m, r, requested)
  {
    r := m;
    order := [];
    var rest := requested.Keys;
    while rest != {}
      invariant rest <= requested.Keys
      invariant IsOrderOf(order, requested.Keys - rest)
      invariant r == MergeSeq(m, ValuesInOrder(requested, order))
      decreases |rest|
    {
      var k :| k in rest;
      var vs := ValuesInOrder(requested, order);
      var vs' := ValuesInOrder(requested, order + [k]);
      assert vs'[..|vs'| - 1] == vs;
      r := MergeOne(r, requested[k]);
      order := order + [k];
      rest := rest - {k};
    }
  }
}

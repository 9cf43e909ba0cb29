/** Pricing and grouping of a cart in the checkout: every cart line is priced
    from the catalogue and put in the group of the store that owns its
    product (`ordersByStore`, a JavaScript Map, so its keys keep insertion
    order). */
module Grouping {
  import opened Js
  import opened Entities

  /** A cart line as the client sends it: a product id and a quantity. */
  datatype CartItem = CartItem(id: string, quantity: int)

  /** `ordersByStore`: the keys in insertion order and the entry of each key. */
  datatype StoreMap = StoreMap(keys: seq<string>, entries: map<string, seq<OrderItem>>)

  /** Every cart line names a product of the catalogue. */
  predicate AllKnown(items: seq<CartItem>, products: map<string, Product>) {
    forall i :: 0 <= i < |items| ==> items[i].id in products
  }

  /** The cart line with its product's catalogue price attached. */
  function Priced(item: CartItem, products: map<string, Product>): OrderItem
    requires item.id in products
  {
    OrderItem(item.id, item.quantity, products[item.id].price)
  }

  /** The store of every cart line, in cart order. */
  function Stores(items: seq<CartItem>, products: map<string, Product>): seq<string>
    requires AllKnown(items, products)
  {
    if items == [] then []
    else Stores(items[..|items| - 1], products) + [products[items[|items| - 1].id].storeId]
  }

  /** The priced lines of the whole cart, in cart order. */
  function Lines(items: seq<CartItem>, products: map<string, Product>): seq<OrderItem>
    requires AllKnown(items, products)
  {
    if items == [] then []
    else Lines(items[..|items| - 1], products) + [Priced(items[|items| - 1], products)]
  }

  /** The priced lines of the cart whose product belongs to store `k`, in cart order. */
  function LinesFor(items: seq<CartItem>, products: map<string, Product>, k: string): seq<OrderItem>
    requires AllKnown(items, products)
  {
    if items == [] then []
    else
      var last := items[|items| - 1];
      LinesFor(items[..|items| - 1], products, k)
        + (if products[last.id].storeId == k then [Priced(last, products)] else [])
  }

  /** The elements of `s` without repetitions, in order of first occurrence. */
  function Distinct(s: seq<string>): seq<string> {
    if s == [] then []
    else
      var d := Distinct(s[..|s| - 1]);
      if s[|s| - 1] in d then d else d + [s[|s| - 1]]
  }

  predicate NoDuplicates(s: seq<string>) {
    forall a, b :: 0 <= a < b < |s| ==> s[a] != s[b]
  }

  /** The position of the first occurrence of `x` in `s`. */
  function FirstIndex(s: seq<string>, x: string): (r: nat)
    requires x in s
    ensures r < |s| && s[r] == x && x !in s[..r]
  {
    if s[0] == x then 0 else 1 + FirstIndex(s[1..], x)
  }

  /** What the grouping loop should produce: one key per distinct store in
      order of first occurrence, and for each key the lines of that store. */
  function GroupSpec(items: seq<CartItem>, products: map<string, Product>): StoreMap
    requires AllKnown(items, products)
  {
    var keys := Distinct(Stores(items, products));
    StoreMap(keys, map k | k in keys :: LinesFor(items, products, k))
  }

  /** The keys are distinct and are exactly the entries' keys. */
  predicate WellFormed(m: StoreMap) {
    && NoDuplicates(m.keys)
    && (forall k :: k in m.keys ==> k in m.entries)
    && (forall k :: k in m.entries ==> k in m.keys)
  }

  /** The sum of the line totals of a group, in order. */
  function Subtotal(lines: seq<OrderItem>): real {
    if lines == [] then 0.0
    else Subtotal(lines[..|lines| - 1]) + LineTotal(lines[|lines| - 1])
  }

  /** The unit price times the quantity. */
  function LineTotal(line: OrderItem): real {
    line.price * line.quantity as real
  }

  /** The groups' lines one after the other, in key order. */
  function Flatten(keys: seq<string>, items: seq<CartItem>, products: map<string, Product>): seq<OrderItem>
    requires AllKnown(items, products)
  {
    if keys == [] then []
    else Flatten(keys[..|keys| - 1], items, products) + LinesFor(items, products, keys[|keys| - 1])
  }

  // ---------------------------------------------------------------------
  // The grouping loop
  // ---------------------------------------------------------------------

  /** The loop over the cart that resolves each product and pushes the priced
      line onto its store's entry. A cart line whose product does not exist
      makes `product.storeId` throw, which ends the checkout with no orders. */
  method GroupByStore(items: seq<CartItem>, products: map<string, Product>) returns (r: Option<StoreMap>)
    ensures r.Some? <==> AllKnown(items, products)
    ensures r.Some? ==> r.value == GroupSpec(items, products)
  {
    var keys: seq<string> := [];
    var entries: map<string, seq<OrderItem>> := map[];
    var i := 0;
    assert items[..0] == [];
    while i < |items|
      invariant 0 <= i <= |items|
      invariant GroupsPrefix(items[..i], products, keys, entries)
    {
      var item := items[i];
      if item.id !in products {
        return None;
      }
      ghost var keys0, entries0 := keys, entries;
      var storeId := products[item.id].storeId;
      if storeId !in entries {
        keys := keys + [storeId];
        entries := entries[storeId := []];
      }
      entries := entries[storeId := entries[storeId] + [Priced(item, products)]];
      GroupStep(items[..i], item, products, keys0, entries0, keys, entries);
      assert items[..i + 1] == items[..i] + [item];
      i := i + 1;
    }
    assert items[..i] == items;
    GroupsPrefixIsSpec(items, products, keys, entries);
    r := Some(StoreMap(keys, entries));
  }

  /** The loop's invariant: the keys and entries group the processed prefix. */
  ghost predicate GroupsPrefix(prefix: seq<CartItem>, products: map<string, Product>, keys: seq<string>,
                         entries: map<string, seq<OrderItem>>) {
    && AllKnown(prefix, products)
    && keys == Distinct(Stores(prefix, products))
    && (forall k :: k in entries <==> k in keys)
    && (forall k :: k in entries ==> entries[k] == LinesFor(prefix, products, k))
  }

  /** One iteration of the grouping loop keeps its invariant. */
  lemma GroupStep(prefix: seq<CartItem>, x: CartItem, products: map<string, Product>,
                  keys: seq<string>, entries: map<string, seq<OrderItem>>,
                  keys': seq<string>, entries': map<string, seq<OrderItem>>)
    requires GroupsPrefix(prefix, products, keys, entries) && x.id in products
    requires var s := products[x.id].storeId;
      && keys' == (if s in entries then keys else keys + [s])
      && entries' == entries[s := (if s in entries then entries[s] else []) + [Priced(x, products)]]
    ensures GroupsPrefix(prefix + [x], products, keys', entries')
  {
    var s := products[x.id].storeId;
    LinesForSnoc(prefix, x, products, s);
    var p := prefix + [x];
    assert p[..|prefix|] == prefix && p[|prefix|] == x;
    assert Stores(p, products) == Stores(prefix, products) + [s];
    DistinctMembers(Stores(prefix, products));
    if s !in entries {
      LinesForAbsentStore(prefix, products, s);
    }
    forall k | k in entries' ensures entries'[k] == LinesFor(p, products, k) {
      LinesForSnoc(prefix, x, products, k);
    }
  }

  /** When the whole cart is processed, the keys and entries are the grouping. */
  lemma GroupsPrefixIsSpec(items: seq<CartItem>, products: map<string, Product>, keys: seq<string>,
                           entries: map<string, seq<OrderItem>>)
    requires GroupsPrefix(items, products, keys, entries)
    ensures StoreMap(keys, entries) == GroupSpec(items, products)
  {
  }

  // ---------------------------------------------------------------------
  // What the grouping means
  // ---------------------------------------------------------------------

  /** A store that owns none of the cart's products gets no lines. */
  lemma {:induction false} LinesForAbsentStore(items: seq<CartItem>, products: map<string, Product>, k: string)
    requires AllKnown(items, products) && k !in Stores(items, products)
    ensures LinesFor(items, products, k) == []
  {
    if items != [] {
      LinesForAbsentStore(items[..|items| - 1], products, k);
    }
  }

  /** `Distinct` keeps exactly the elements of its input... */
  lemma {:induction false} DistinctMembers(s: seq<string>)
    ensures forall x :: x in Distinct(s) <==> x in s
  {
    if s != [] {
      DistinctMembers(s[..|s| - 1]);
      assert s == s[..|s| - 1] + [s[|s| - 1]];
    }
  }

  /** ...each of them once... */
  lemma {:induction false} DistinctNoDuplicates(s: seq<string>)
    ensures NoDuplicates(Distinct(s))
  {
    if s != [] {
      DistinctNoDuplicates(s[..|s| - 1]);
    }
  }

  lemma {:induction false} FirstIndexOfExtension(s: seq<string>, y: string, x: string)
    requires x in s
    ensures FirstIndex(s + [y], x) == FirstIndex(s, x)
  {
    if s[0] != x {
      assert (s + [y])[1..] == s[1..] + [y];
      FirstIndexOfExtension(s[1..], y, x);
    }
  }

  /** ...in the order in which they first occur. */
  lemma {:induction false} DistinctFirstEncounterOrder(s: seq<string>)
    ensures forall x :: x in Distinct(s) ==> x in s
    ensures forall a, b :: 0 <= a < b < |Distinct(s)| ==>
      FirstIndex(s, Distinct(s)[a]) < FirstIndex(s, Distinct(s)[b])
  {
    DistinctMembers(s);
    if s != [] {
      var p, y := s[..|s| - 1], s[|s| - 1];
      assert s == p + [y];
      DistinctFirstEncounterOrder(p);
      DistinctMembers(p);
      forall a, b | 0 <= a < b < |Distinct(s)|
        ensures FirstIndex(s, Distinct(s)[a]) < FirstIndex(s, Distinct(s)[b])
      {
        FirstEncounterPair(p, y, a, b);
      }
    }
  }

  /** The order of two keys after one more element, from the order before it. */
  lemma FirstEncounterPair(p: seq<string>, y: string, a: nat, b: nat)
    requires forall x :: x in Distinct(p) <==> x in p
    requires forall a, b :: 0 <= a < b < |Distinct(p)| ==> FirstIndex(p, Distinct(p)[a]) < FirstIndex(p, Distinct(p)[b])
    requires forall x :: x in Distinct(p + [y]) <==> x in p + [y]
    requires a < b < |Distinct(p + [y])|
    ensures FirstIndex(p + [y], Distinct(p + [y])[a]) < FirstIndex(p + [y], Distinct(p + [y])[b])
  {
    var s := p + [y];
    var d := Distinct(p);
    assert s[..|s| - 1] == p && s[|s| - 1] == y;
    assert Distinct(s) == if y in d then d else d + [y];
    assert d[a] in d;
    FirstIndexOfExtension(p, y, d[a]);
    if b < |d| {
      assert d[b] in d;
      FirstIndexOfExtension(p, y, d[b]);
    } else {
      // the new key y occurs first at the end of s
      assert Distinct(s)[b] == y && y !in p;
      assert FirstIndex(s, y) == |p|;
    }
  }

  lemma {:induction false} StoresMembers(items: seq<CartItem>, products: map<string, Product>)
    requires AllKnown(items, products)
    ensures |Stores(items, products)| == |items|
    ensures forall i :: 0 <= i < |items| ==> Stores(items, products)[i] == products[items[i].id].storeId
  {
    if items != [] {
      StoresMembers(items[..|items| - 1], products);
    }
  }

  /** The grouping is a map whose keys are distinct and are its entries' keys. */
  lemma GroupSpecWellFormed(items: seq<CartItem>, products: map<string, Product>)
    requires AllKnown(items, products)
    ensures WellFormed(GroupSpec(items, products))
  {
    DistinctNoDuplicates(Stores(items, products));
  }

  /** The group keys are the distinct stores of the cart's products, each
      once, in the order in which the cart first mentions them. */
  lemma GroupKeys(items: seq<CartItem>, products: map<string, Product>)
    requires AllKnown(items, products)
    ensures var keys := GroupSpec(items, products).keys;
      && NoDuplicates(keys)
      && (forall i :: 0 <= i < |items| ==> products[items[i].id].storeId in keys)
      && (forall k :: k in keys ==> exists i :: 0 <= i < |items| && products[items[i].id].storeId == k)
      && (forall a, b :: 0 <= a < b < |keys| ==>
            && keys[a] in Stores(items, products) && keys[b] in Stores(items, products)
            && FirstIndex(Stores(items, products), keys[a]) < FirstIndex(Stores(items, products), keys[b]))
  {
    var s := Stores(items, products);
    DistinctNoDuplicates(s);
    DistinctMembers(s);
    DistinctFirstEncounterOrder(s);
    StoresMembers(items, products);
    forall i | 0 <= i < |items| ensures products[items[i].id].storeId in Distinct(s) {
      assert s[i] in s;
    }
    forall k | k in Distinct(s) ensures exists i :: 0 <= i < |items| && products[items[i].id].storeId == k {
      var i := FirstIndex(s, k);
      assert products[items[i].id].storeId == k;
    }
  }

  /** What the rest of the checkout relies on about a grouping of the cart:
      distinct keys, each key's entry holds that store's lines, every cart
      line's store is a key and every key is the store of some cart line. */
  predicate GroupedBy(m: StoreMap, items: seq<CartItem>, products: map<string, Product>)
    requires AllKnown(items, products)
  {
    && NoDuplicates(m.keys)
    && (forall k :: k in m.keys ==> k in m.entries && m.entries[k] == LinesFor(items, products, k))
    && (forall i :: 0 <= i < |items| ==> products[items[i].id].storeId in m.keys)
    && (forall k :: k in m.keys ==> exists i :: 0 <= i < |items| && products[items[i].id].storeId == k)
  }

  lemma GroupSpecGroups(items: seq<CartItem>, products: map<string, Product>)
    requires AllKnown(items, products)
    ensures GroupedBy(GroupSpec(items, products), items, products)
  {
    GroupKeys(items, products);
  }

  /** Every line of the group of store `k` is a cart line whose product
      belongs to `k`, priced at the catalogue price. */
  lemma {:induction false} LinesForFromCatalogue(items: seq<CartItem>, products: map<string, Product>, k: string)
    requires AllKnown(items, products)
    ensures forall l :: l in LinesFor(items, products, k) ==>
      l.productId in products && products[l.productId].storeId == k && l.price == products[l.productId].price
  {
    if items != [] {
      LinesForFromCatalogue(items[..|items| - 1], products, k);
    }
  }

  /** Every cart line is in the group of its product's store. */
  lemma {:induction false} LineInItsGroup(items: seq<CartItem>, products: map<string, Product>, i: nat)
    requires AllKnown(items, products) && i < |items|
    ensures Priced(items[i], products) in LinesFor(items, products, products[items[i].id].storeId)
  {
    var n := |items| - 1;
    if i < n {
      LineInItsGroup(items[..n], products, i);
    }
  }

  /** One more cart line adds its priced line to its store's group only. */
  lemma LinesForSnoc(items: seq<CartItem>, x: CartItem, products: map<string, Product>, k: string)
    requires AllKnown(items, products) && x.id in products
    ensures AllKnown(items + [x], products)
    ensures LinesFor(items + [x], products, k)
         == LinesFor(items, products, k) + (if products[x.id].storeId == k then [Priced(x, products)] else [])
  {
    assert (items + [x])[..|items|] == items;
  }

  lemma {:induction false} FlattenStep(keys: seq<string>, items: seq<CartItem>, x: CartItem, products: map<string, Product>)
    requires AllKnown(items, products) && x.id in products && NoDuplicates(keys)
    ensures AllKnown(items + [x], products)
    ensures multiset(Flatten(keys, items + [x], products))
      == multiset(Flatten(keys, items, products))
         + (if products[x.id].storeId in keys then multiset{Priced(x, products)} else multiset{})
  {
    LinesForSnoc(items, x, products, "");
    if keys != [] {
      var ks, k := keys[..|keys| - 1], keys[|keys| - 1];
      assert keys == ks + [k];
      assert NoDuplicates(ks) && k !in ks by {
        forall a, b | 0 <= a < b < |ks| ensures ks[a] != ks[b] {
          assert ks[a] == keys[a] && ks[b] == keys[b];
        }
        forall a | 0 <= a < |ks| ensures ks[a] != k {
          assert ks[a] == keys[a];
        }
      }
      FlattenStep(ks, items, x, products);
      FlattenStepLast(ks, k, items, x, products);
    }
  }

  /** The step for the last key, given the step for the keys before it. */
  lemma FlattenStepLast(ks: seq<string>, k: string, items: seq<CartItem>, x: CartItem, products: map<string, Product>)
    requires AllKnown(items, products) && x.id in products && k !in ks
    requires AllKnown(items + [x], products)
    requires multiset(Flatten(ks, items + [x], products))
      == multiset(Flatten(ks, items, products))
         + (if products[x.id].storeId in ks then multiset{Priced(x, products)} else multiset{})
    ensures multiset(Flatten(ks + [k], items + [x], products))
      == multiset(Flatten(ks + [k], items, products))
         + (if products[x.id].storeId in ks + [k] then multiset{Priced(x, products)} else multiset{})
  {
    var s, px := products[x.id].storeId, Priced(x, products);
    var after, before := Flatten(ks, items + [x], products), Flatten(ks, items, products);
    var la, lb := LinesFor(items + [x], products, k), LinesFor(items, products, k);
    assert (ks + [k])[..|ks|] == ks && (ks + [k])[|ks|] == k;
    assert Flatten(ks + [k], items + [x], products) == after + la;
    assert Flatten(ks + [k], items, products) == before + lb;
    LinesForSnoc(items, x, products, k);
    var e := if s in ks then multiset{px} else multiset{};
    var f := if s == k then multiset{px} else multiset{};
    assert multiset(la) == multiset(lb) + f;
    UnionStep(multiset(after), multiset(before), multiset(la), multiset(lb), e, f);
    assert s in ks + [k] <==> s in ks || s == k;
    assert e + f == if s in ks + [k] then multiset{px} else multiset{};
    assert multiset(after + la) == multiset(after) + multiset(la);
    assert multiset(before + lb) == multiset(before) + multiset(lb);
  }

  lemma UnionStep<T>(a: multiset<T>, b: multiset<T>, la: multiset<T>, lb: multiset<T>, e: multiset<T>, f: multiset<T>)
    requires a == b + e && la == lb + f
    ensures a + la == (b + lb) + (e + f)
  {
  }

  /** Grouping is a partition of the cart: taken together, the groups hold
      exactly the priced cart lines, each as often as it occurs in the cart. */
  lemma {:induction false} FlattenIsPartition(keys: seq<string>, items: seq<CartItem>, products: map<string, Product>)
    requires AllKnown(items, products) && NoDuplicates(keys)
    requires forall i :: 0 <= i < |items| ==> products[items[i].id].storeId in keys
    ensures multiset(Flatten(keys, items, products)) == multiset(Lines(items, products))
  {
    if items == [] {
      if keys != [] {
        FlattenOfEmptyCart(keys, products);
      }
    } else {
      var p, x := items[..|items| - 1], items[|items| - 1];
      assert items == p + [x];
      assert AllKnown(p, products) && x.id in products by {
        assert forall i :: 0 <= i < |p| ==> p[i] == items[i];
      }
      FlattenStep(keys, p, x, products);
      FlattenIsPartition(keys, p, products);
    }
  }

  lemma {:induction false} FlattenOfEmptyCart(keys: seq<string>, products: map<string, Product>)
    ensures Flatten(keys, [], products) == []
  {
    if keys != [] {
      FlattenOfEmptyCart(keys[..|keys| - 1], products);
    }
  }

  /** So the groups of the grouping hold exactly the priced cart lines, and
      their sizes add up to the length of the cart. */
  lemma GroupingIsPartition(items: seq<CartItem>, products: map<string, Product>)
    requires AllKnown(items, products)
    ensures multiset(Flatten(GroupSpec(items, products).keys, items, products)) == multiset(Lines(items, products))
    ensures |Flatten(GroupSpec(items, products).keys, items, products)| == |items|
  {
    GroupKeys(items, products);
    FlattenIsPartition(GroupSpec(items, products).keys, items, products);
    LinesLength(items, products);
    assert |multiset(Lines(items, products))| == |items|;
  }

  lemma {:induction false} LinesLength(items: seq<CartItem>, products: map<string, Product>)
    requires AllKnown(items, products)
    ensures |Lines(items, products)| == |items|
  {
    if items != [] {
      LinesLength(items[..|items| - 1], products);
    }
  }

  // ---------------------------------------------------------------------
  // Subtotals
  // ---------------------------------------------------------------------

  lemma {:induction false} SubtotalConcat(a: seq<OrderItem>, b: seq<OrderItem>)
    ensures Subtotal(a + b) == Subtotal(a) + Subtotal(b)
    decreases |b|
  {
    if b == [] {
      assert a + b == a;
    } else {
      var c := a + b;
      assert c != [];
      assert c[..|c| - 1] == a + b[..|b| - 1];
      assert c[|c| - 1] == b[|b| - 1];
      SubtotalConcat(a, b[..|b| - 1]);
    }
  }

  /** Taking one line out of a sequence takes its line total out of the subtotal. */
  lemma SubtotalSplit(l: seq<OrderItem>, x: OrderItem, r: seq<OrderItem>)
    ensures Subtotal(l + [x] + r) == Subtotal(l + r) + LineTotal(x)
  {
    SubtotalConcat(l + [x], r);
    SubtotalConcat(l, r);
    assert (l + [x])[..|l|] == l;
  }

  /** The sum of price times quantity does not depend on the order of the lines. */
  lemma {:induction false} SubtotalPermutation(a: seq<OrderItem>, b: seq<OrderItem>)
    requires multiset(a) == multiset(b)
    ensures Subtotal(a) == Subtotal(b)
    decreases |a|
  {
    if a == [] {
      assert |b| == |multiset(b)| == 0;
      assert b == [];
    } else {
      var p, x := a[..|a| - 1], a[|a| - 1];
      var l, r := TakeOut(a, b);
      SubtotalPermutation(p, l + r);
      SubtotalSplit(l, x, r);
      assert Subtotal(a) == Subtotal(p) + LineTotal(x);
    }
  }

  /** The last line of `a` sits somewhere in its permutation `b`; without it
      the two are still permutations of each other. */
  lemma TakeOut(a: seq<OrderItem>, b: seq<OrderItem>) returns (l: seq<OrderItem>, r: seq<OrderItem>)
    requires a != [] && multiset(a) == multiset(b)
    ensures b == l + [a[|a| - 1]] + r
    ensures multiset(a[..|a| - 1]) == multiset(l + r)
  {
    var p, x := a[..|a| - 1], a[|a| - 1];
    assert a == p + [x];
    assert multiset(a) == multiset(p) + multiset{x};
    assert x in multiset(b);
    var i :| 0 <= i < |b| && b[i] == x;
    l, r := b[..i], b[i + 1..];
    assert b == l + [x] + r;
    MultisetSplit(l, x, r);
    MultisetCancel(multiset(p), multiset(l + r), x);
  }

  /** Removing the same element from two equal multisets leaves them equal. */
  lemma MultisetCancel<T>(a: multiset<T>, b: multiset<T>, x: T)
    requires a + multiset{x} == b + multiset{x}
    ensures a == b
  {
    assert a == (a + multiset{x}) - multiset{x};
    assert b == (b + multiset{x}) - multiset{x};
  }

  lemma MultisetSplit(l: seq<OrderItem>, x: OrderItem, r: seq<OrderItem>)
    ensures multiset(l + [x] + r) == multiset(l + r) + multiset{x}
  {
    assert multiset(l + [x] + r) == multiset(l) + multiset{x} + multiset(r);
  }
}

/** The cart as a list of lines, and the three updates the storefront applies
    to it (App.tsx: addToCart, removeFromCart, and the quantity total shown in
    the header and credited at checkout), as functions from the old list to
    the new one. */
module Cart {
  import opened Types
  import opened Sequences

  function Quantity(item: CartItem): int
  {
    item.quantity
  }

  /** `items.reduce((a, b) => a + b.quantity, 0)`. When every line holds at
      least one unit, the sum is at least the number of lines and zero
      exactly when there are none. */
  function QuantitySum(items: seq<CartItem>): (r: int)
    ensures (forall i :: 0 <= i < |items| ==> items[i].quantity >= 1) ==>
      r >= |items| && (r == 0 <==> items == [])
  {
    CountCoversLines(items);
    SumOf(items, Quantity)
  }

  predicate HasId(items: seq<CartItem>, id: string)
  {
    exists i :: 0 <= i < |items| && items[i].Id() == id
  }

  /** No two lines of the cart are for the same product. */
  predicate DistinctIds(items: seq<CartItem>)
  {
    forall i, j :: 0 <= i < j < |items| ==> items[i].Id() != items[j].Id()
  }

  /** What the storefront's updates keep true of its cart: one line per
      product, each with a quantity of at least one. */
  predicate WellFormed(items: seq<CartItem>)
  {
    DistinctIds(items) && forall i :: 0 <= i < |items| ==> items[i].quantity >= 1
  }

  /** `items.find(item => item.id === id)`: the first line with that id. */
  function Find(items: seq<CartItem>, id: string): (r: Option<CartItem>)
    ensures r.None? <==> !HasId(items, id)
    ensures r.Some? ==> r.value in items && r.value.Id() == id
  {
    if items == [] then None
    else if items[0].Id() == id then Some(items[0])
    else
      HasIdTail(items, id);
      Find(items[1..], id)
  }

  lemma {:induction false} HasIdTail(items: seq<CartItem>, id: string)
    requires items != [] && items[0].Id() != id
    ensures HasId(items, id) <==> HasId(items[1..], id)
  {
    if HasId(items, id) {
      var i :| 0 <= i < |items| && items[i].Id() == id;
      assert items[1..][i - 1].Id() == id;
    }
  }

  lemma {:induction false} HeadIdNotInTail(items: seq<CartItem>)
    requires items != [] && DistinctIds(items)
    ensures !HasId(items[1..], items[0].Id())
  {
    forall i | 0 <= i < |items[1..]| ensures items[1..][i].Id() != items[0].Id() {
      assert items[1..][i] == items[i + 1];
    }
  }

  /** `find` returns the line at `k` when no earlier line has its id; in a
      cart with one line per product that is every line. */
  lemma {:induction false} FindFirst(items: seq<CartItem>, k: int)
    requires 0 <= k < |items|
    requires forall j :: 0 <= j < k ==> items[j].Id() != items[k].Id()
    ensures Find(items, items[k].Id()) == Some(items[k])
  {
    if k > 0 {
      assert items[1..][k - 1] == items[k];
      FindFirst(items[1..], k - 1);
    }
  }

  /** The `map` of addToCart: every line for `id` gets one more unit; each
      line keeps its product. */
  function Incremented(items: seq<CartItem>, id: string): (r: seq<CartItem>)
    ensures |r| == |items|
    ensures forall i :: 0 <= i < |items| ==> r[i].product == items[i].product
  {
    seq(|items|, i requires 0 <= i < |items| =>
      if items[i].Id() == id then items[i].(quantity := items[i].quantity + 1) else items[i])
  }

  /** The updater addToCart passes to setCart. Afterwards the product has a
      line; a line is added only when it had none; lines for other products
      stay where they were, unchanged. */
  function AddedToCart(items: seq<CartItem>, product: Product): (r: seq<CartItem>)
    ensures HasId(r, product.id)
    ensures |r| == |items| + (if HasId(items, product.id) then 0 else 1)
    ensures forall i :: 0 <= i < |items| && items[i].Id() != product.id ==> r[i] == items[i]
  {
    if Find(items, product.id).Some? then
      var r := Incremented(items, product.id);
      var k :| 0 <= k < |items| && items[k].Id() == product.id;
      assert r[k].Id() == product.id;
      r
    else
      var r := items + [CartItem(product, 1)];
      assert r[|items|].Id() == product.id;
      r
  }

  /** The updater removeFromCart passes to setCart: it keeps exactly the
      lines for other products. */
  function RemovedFromCart(items: seq<CartItem>, id: string): (r: seq<CartItem>)
    ensures forall x :: x in r <==> x in items && x.Id() != id
  {
    FilterMembership(items, IdIsNot(id));
    Filter(items, IdIsNot(id))
  }

  function IdIsNot(id: string): CartItem -> bool
  {
    (item: CartItem) => item.Id() != id
  }

  /** In a cart with one line per product, adding a product already present
      changes exactly one line, the product's own, whose quantity rises by
      one; adding a new product appends a line with quantity one. */
  lemma {:induction false} AddToCartLines(items: seq<CartItem>, product: Product)
    requires DistinctIds(items)
    ensures var r := AddedToCart(items, product);
      && (HasId(items, product.id) ==>
            exists k :: 0 <= k < |items| && items[k].Id() == product.id
              && (forall j :: 0 <= j < |items| && j != k ==> items[j].Id() != product.id)
              && r == items[k := items[k].(quantity := items[k].quantity + 1)])
      && (!HasId(items, product.id) ==> r == items + [CartItem(product, 1)])
  {
    if HasId(items, product.id) {
      var k :| 0 <= k < |items| && items[k].Id() == product.id;
      IncrementedAt(items, product.id, k);
    }
  }

  /** With one line per product, the `map` changes only the line at `k`. */
  lemma {:induction false} IncrementedAt(items: seq<CartItem>, id: string, k: int)
    requires DistinctIds(items) && 0 <= k < |items| && items[k].Id() == id
    ensures forall j :: 0 <= j < |items| && j != k ==> items[j].Id() != id
    ensures Incremented(items, id) == items[k := items[k].(quantity := items[k].quantity + 1)]
  {
    var r := Incremented(items, id);
    var expected := items[k := items[k].(quantity := items[k].quantity + 1)];
    forall j | 0 <= j < |items| ensures r[j] == expected[j] {
      if j != k {
        assert items[j].Id() != id;
      }
    }
  }

  /** Adding one product raises the cart's quantity total by exactly one. */
  lemma {:induction false} AddToCartCount(items: seq<CartItem>, product: Product)
    requires DistinctIds(items)
    ensures QuantitySum(AddedToCart(items, product)) == QuantitySum(items) + 1
  {
    if HasId(items, product.id) {
      IncrementedSum(items, product.id);
    } else {
      SumOfConcat(items, [CartItem(product, 1)], Quantity);
    }
  }

  lemma {:induction false} IncrementedSum(items: seq<CartItem>, id: string)
    requires DistinctIds(items)
    ensures QuantitySum(Incremented(items, id)) == QuantitySum(items) + (if HasId(items, id) then 1 else 0)
  {
    if items != [] {
      var r := Incremented(items, id);
      assert r[1..] == Incremented(items[1..], id);
      IncrementedSum(items[1..], id);
      if items[0].Id() == id {
        HeadIdNotInTail(items);
      } else {
        HasIdTail(items, id);
      }
    }
  }

  /** Adding a product keeps one line per product with positive quantities. */
  lemma {:induction false} AddToCartWellFormed(items: seq<CartItem>, product: Product)
    requires WellFormed(items)
    ensures WellFormed(AddedToCart(items, product))
  {
    var r := AddedToCart(items, product);
    if !HasId(items, product.id) {
      forall i, j | 0 <= i < j < |r| ensures r[i].Id() != r[j].Id() {
        if j == |items| {
          assert r[i] == items[i];
        }
      }
    }
  }

  /** After removeFromCart no line has the id, and the remaining lines are
      exactly the other lines, in their original order. */
  lemma {:induction false} RemoveFromCartLines(items: seq<CartItem>, id: string)
    ensures var r := RemovedFromCart(items, id);
      && !HasId(r, id)
      && IsSubsequence(r, items)
      && (forall x :: x in r <==> x in items && x.Id() != id)
      && (forall x: CartItem :: x.Id() != id ==> multiset(r)[x] == multiset(items)[x])
  {
    var r := RemovedFromCart(items, id);
    FilterIsSubsequence(items, IdIsNot(id));
    forall x: CartItem | x.Id() != id ensures multiset(r)[x] == multiset(items)[x] {
      FilterCount(items, IdIsNot(id), x);
    }
  }

  /** Removing a product takes its line's quantity off the cart's total. */
  lemma {:induction false} RemoveFromCartCount(items: seq<CartItem>, id: string)
    requires DistinctIds(items)
    ensures QuantitySum(RemovedFromCart(items, id)) ==
            QuantitySum(items) - (match Find(items, id) case Some(it) => it.quantity case None => 0)
  {
    if items != [] {
      assert DistinctIds(items[1..]);
      RemoveFromCartCount(items[1..], id);
      if items[0].Id() == id {
        HeadIdNotInTail(items);
      }
    }
  }

  /** Removing a product keeps one line per product with positive quantities. */
  lemma {:induction false} RemoveFromCartWellFormed(items: seq<CartItem>, id: string)
    requires WellFormed(items)
    ensures WellFormed(RemovedFromCart(items, id))
  {
    if items != [] {
      RemoveFromCartWellFormed(items[1..], id);
      var rest := RemovedFromCart(items[1..], id);
      FilterMembership(items[1..], IdIsNot(id));
      if items[0].Id() != id {
        var r := [items[0]] + rest;
        forall j | 0 < j < |r| ensures r[0].Id() != r[j].Id() {
          assert r[j] == rest[j - 1];
          assert rest[j - 1] in items[1..];
        }
      }
    }
  }

  /** Summing quantities of at least one each gives at least the number of
      lines, and zero only for no lines. */
  lemma {:induction false} CountCoversLines(items: seq<CartItem>)
    ensures (forall i :: 0 <= i < |items| ==> items[i].quantity >= 1) ==>
      SumOf(items, Quantity) >= |items| && (SumOf(items, Quantity) == 0 <==> items == [])
  {
    if items != [] {
      CountCoversLines(items[1..]);
      if forall i :: 0 <= i < |items| ==> items[i].quantity >= 1 {
        assert forall i :: 0 <= i < |items[1..]| ==> items[1..][i] == items[i + 1];
      }
    }
  }
}

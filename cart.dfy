/**
 * The cart as a value: the ordered list of line items, the effect of each
 * CartManager mutation on it (script.js, lines 25-62) and the two
 * reductions over it, the total and the item count (lines 64-69).
 */
module Cart {
  import opened Wrappers
  import opened LineItems

  type Items = seq<LineItem>

  // ---------------------------------------------------------------- invariants

  /** At most one entry per (id, color, size). */
  predicate UniqueKeys(cart: Items)
  {
    forall i, j :: 0 <= i < j < |cart| ==> KeyOf(cart[i]) != KeyOf(cart[j])
  }

  /** No entry has a quantity of zero or less. */
  predicate AllPositive(cart: Items)
  {
    forall i :: 0 <= i < |cart| ==> cart[i].quantity >= 1
  }

  // ---------------------------------------------------------------- reductions

  function Subtotal(item: LineItem): int
  {
    item.price * item.quantity
  }

  /** `cart.reduce((total, item) => total + item.price * item.quantity, 0)`, folded from the left. */
  function Total(cart: Items): (t: int)
    ensures cart == [] ==> t == 0
    ensures AllPositive(cart) ==> t >= 0
  {
    if cart == [] then 0 else Total(cart[..|cart| - 1]) + Subtotal(cart[|cart| - 1])
  }

  /** `cart.reduce((sum, item) => sum + item.quantity, 0)`, folded from the left. */
  function Count(cart: Items): (c: int)
    ensures cart == [] ==> c == 0
    ensures AllPositive(cart) ==> c >= |cart|
  {
    if cart == [] then 0 else Count(cart[..|cart| - 1]) + cart[|cart| - 1].quantity
  }

  /** The entries filed under key `k`, in cart order. */
  function Matching(cart: Items, k: Key): (m: Items)
    ensures |m| <= |cart|
    ensures forall i :: 0 <= i < |m| ==> KeyOf(m[i]) == k
  {
    if cart == [] then []
    else (if KeyOf(cart[0]) == k then [cart[0]] else []) + Matching(cart[1..], k)
  }

  // ---------------------------------------------------------------- operations

  /** `cart.find(...)`: the position of the first entry with key `k`. */
  function Find(cart: Items, k: Key): (r: Option<nat>)
    ensures r.Some? ==> r.value < |cart| && KeyOf(cart[r.value]) == k
    ensures r.Some? ==> forall j :: 0 <= j < r.value ==> KeyOf(cart[j]) != k
    ensures r.None? <==> forall j :: 0 <= j < |cart| ==> KeyOf(cart[j]) != k
  {
    if cart == [] then None
    else if KeyOf(cart[0]) == k then Some(0)
    else match Find(cart[1..], k)
      case None => None
      case Some(i) => Some(i + 1)
  }

  /** The cart after `addToCart(p)`: merge into the first matching entry, or append. */
  function Added(cart: Items, p: Product): (r: Items)
    ensures Find(cart, ProductKey(p)).None? ==> |r| == |cart| + 1 && r[|cart|] == Resolve(p)
    ensures Find(cart, ProductKey(p)).Some? ==> |r| == |cart|
    ensures Find(cart, ProductKey(p)).Some? ==>
      var i := Find(cart, ProductKey(p)).value;
      r[i] == cart[i].(quantity := cart[i].quantity + ResolvedQuantity(p))
    ensures forall j :: 0 <= j < |cart| && Find(cart, ProductKey(p)) != Some(j) ==> r[j] == cart[j]
  {
    match Find(cart, ProductKey(p))
    case Some(i) => cart[i := cart[i].(quantity := cart[i].quantity + ResolvedQuantity(p))]
    case None => cart + [Resolve(p)]
  }

  /** The cart after `removeFromCart(i)`: `splice(i, 1)` for an index in range. */
  function Removed(cart: Items, i: nat): (r: Items)
    requires i < |cart|
    ensures |r| == |cart| - 1
    ensures forall j :: 0 <= j < i ==> r[j] == cart[j]
    ensures forall j :: i <= j < |r| ==> r[j] == cart[j + 1]
  {
    cart[..i] + cart[i + 1..]
  }

  /** The cart after `updateQuantity(i, q)`. */
  function Updated(cart: Items, i: nat, q: int): (r: Items)
    requires i < |cart|
    ensures q <= 0 ==> |r| == |cart| - 1 && r[..i] == cart[..i] && r[i..] == cart[i + 1..]
    ensures q > 0 ==> |r| == |cart| && r[i] == cart[i].(quantity := q)
    ensures q > 0 ==> forall j :: 0 <= j < |cart| && j != i ==> r[j] == cart[j]
  {
    if q <= 0 then Removed(cart, i) else cart[i := cart[i].(quantity := q)]
  }

  /** The cart after a run of addToCart calls, one per element of `ps`, in order. */
  function AddedAll(cart: Items, ps: seq<Product>): Items
    decreases |ps|
  {
    if ps == [] then cart else AddedAll(Added(cart, ps[0]), ps[1..])
  }

  /** The sum of the quantities a run of addToCart calls supplies, defaults filled in. */
  function SuppliedQuantity(ps: seq<Product>): (n: nat)
    ensures n >= |ps|
  {
    if ps == [] then 0 else ResolvedQuantity(ps[0]) + SuppliedQuantity(ps[1..])
  }

  // ---------------------------------------------------------------- sum identities

  lemma {:induction false} TotalConcat(a: Items, b: Items)
    ensures Total(a + b) == Total(a) + Total(b)
  {
    if b == [] {
      assert a + b == a;
    } else {
      assert (a + b)[..|a + b| - 1] == a + b[..|b| - 1];
      TotalConcat(a, b[..|b| - 1]);
    }
  }

  lemma {:induction false} CountConcat(a: Items, b: Items)
    ensures Count(a + b) == Count(a) + Count(b)
  {
    if b == [] {
      assert a + b == a;
    } else {
      assert (a + b)[..|a + b| - 1] == a + b[..|b| - 1];
      CountConcat(a, b[..|b| - 1]);
    }
  }

  lemma {:induction false} MatchingConcat(a: Items, b: Items, k: Key)
    ensures Matching(a + b, k) == Matching(a, k) + Matching(b, k)
  {
    if a == [] {
      assert a + b == b;
    } else {
      assert (a + b)[1..] == a[1..] + b;
      MatchingConcat(a[1..], b, k);
    }
  }

  lemma {:induction false} MatchingNone(cart: Items, k: Key)
    requires forall j :: 0 <= j < |cart| ==> KeyOf(cart[j]) != k
    ensures Matching(cart, k) == []
  {
    if cart != [] {
      MatchingNone(cart[1..], k);
    }
  }

  /** Splits a cart around position `i`. */
  lemma Split(cart: Items, i: nat, x: LineItem)
    requires i < |cart|
    ensures cart == cart[..i] + [cart[i]] + cart[i + 1..]
    ensures cart[i := x] == cart[..i] + [x] + cart[i + 1..]
  {
  }

  /** Replacing one entry changes the total by the difference of the two subtotals. */
  lemma TotalAfterReplace(cart: Items, i: nat, x: LineItem)
    requires i < |cart|
    ensures Total(cart[i := x]) == Total(cart) - Subtotal(cart[i]) + Subtotal(x)
  {
    Split(cart, i, x);
    TotalConcat(cart[..i] + [cart[i]], cart[i + 1..]);
    TotalConcat(cart[..i], [cart[i]]);
    TotalConcat(cart[..i] + [x], cart[i + 1..]);
    TotalConcat(cart[..i], [x]);
  }

  /** Replacing one entry changes the count by the difference of the two quantities. */
  lemma CountAfterReplace(cart: Items, i: nat, x: LineItem)
    requires i < |cart|
    ensures Count(cart[i := x]) == Count(cart) - cart[i].quantity + x.quantity
  {
    Split(cart, i, x);
    CountConcat(cart[..i] + [cart[i]], cart[i + 1..]);
    CountConcat(cart[..i], [cart[i]]);
    CountConcat(cart[..i] + [x], cart[i + 1..]);
    CountConcat(cart[..i], [x]);
  }

  /** With positive quantities, the item count is zero exactly when the cart is empty. */
  lemma CountZeroIffEmpty(cart: Items)
    requires AllPositive(cart)
    ensures Count(cart) == 0 <==> cart == []
  {
  }

  // ---------------------------------------------------------------- addToCart

  /** An entry already matches: its quantity rises by the supplied quantity; nothing else changes. */
  lemma AddMergesIntoMatch(cart: Items, p: Product, i: nat)
    requires i < |cart| && KeyOf(cart[i]) == ProductKey(p)
    requires forall j :: 0 <= j < i ==> KeyOf(cart[j]) != ProductKey(p)
    ensures |Added(cart, p)| == |cart|
    ensures Added(cart, p)[i] == cart[i].(quantity := cart[i].quantity + ResolvedQuantity(p))
    ensures forall j :: 0 <= j < |cart| && j != i ==> Added(cart, p)[j] == cart[j]
  {
  }

  /** In a cart with unique keys, the matching entry is the one that is merged into. */
  lemma AddMergesIntoUniqueMatch(cart: Items, p: Product, i: nat)
    requires UniqueKeys(cart)
    requires i < |cart| && KeyOf(cart[i]) == ProductKey(p)
    ensures |Added(cart, p)| == |cart|
    ensures Added(cart, p)[i].quantity == cart[i].quantity + ResolvedQuantity(p)
    ensures forall j :: 0 <= j < |cart| && j != i ==> Added(cart, p)[j] == cart[j]
  {
  }

  /** No entry matches: exactly one new, default-filled entry is appended at the end. */
  lemma AddAppendsNew(cart: Items, p: Product)
    requires forall j :: 0 <= j < |cart| ==> KeyOf(cart[j]) != ProductKey(p)
    ensures Added(cart, p) == cart + [Resolve(p)]
  {
  }

  lemma AddPreservesUniqueKeys(cart: Items, p: Product)
    requires UniqueKeys(cart)
    ensures UniqueKeys(Added(cart, p))
  {
  }

  lemma AddPreservesAllPositive(cart: Items, p: Product)
    requires AllPositive(cart)
    ensures AllPositive(Added(cart, p))
  {
  }

  /** addToCart raises the item count by the supplied quantity (1 when none is given). */
  lemma AddCount(cart: Items, p: Product)
    ensures Count(Added(cart, p)) == Count(cart) + ResolvedQuantity(p)
  {
    match Find(cart, ProductKey(p))
    case Some(i) =>
      CountAfterReplace(cart, i, cart[i].(quantity := cart[i].quantity + ResolvedQuantity(p)));
    case None =>
      CountConcat(cart, [Resolve(p)]);
  }

  /**
   * addToCart raises the total by the supplied quantity times a unit price: the
   * matched entry's own price when it merges (the product's price is ignored),
   * the default-filled price when it appends.
   */
  lemma AddTotal(cart: Items, p: Product)
    ensures Find(cart, ProductKey(p)).Some? ==>
      Total(Added(cart, p)) == Total(cart) + cart[Find(cart, ProductKey(p)).value].price * ResolvedQuantity(p)
    ensures Find(cart, ProductKey(p)).None? ==>
      Total(Added(cart, p)) == Total(cart) + Resolve(p).price * ResolvedQuantity(p)
  {
    var q := ResolvedQuantity(p);
    var r := Find(cart, ProductKey(p));
    if r.Some? {
      var i := r.value;
      var x := cart[i].(quantity := cart[i].quantity + q);
      assert Added(cart, p) == cart[i := x];
      TotalAfterReplace(cart, i, x);
      MulAdd(cart[i].price, cart[i].quantity, q);
      assert Subtotal(x) == Subtotal(cart[i]) + cart[i].price * q;
    } else {
      assert Added(cart, p) == cart + [Resolve(p)];
      TotalConcat(cart, [Resolve(p)]);
      assert [Resolve(p)][..0] == [];
      assert Total([Resolve(p)]) == Subtotal(Resolve(p));
    }
  }

  lemma MulAdd(a: int, b: int, c: int)
    ensures a * (b + c) == a * b + a * c
  {
  }

  /**
   * Under the added key, addToCart either creates the single entry or bumps the first
   * one; under every other key the matching entries are untouched.
   */
  lemma {:induction false} AddMatching(cart: Items, p: Product, k: Key)
    ensures k != ProductKey(p) ==> Matching(Added(cart, p), k) == Matching(cart, k)
    ensures k == ProductKey(p) && Matching(cart, k) == [] ==> Matching(Added(cart, p), k) == [Resolve(p)]
    ensures k == ProductKey(p) && Matching(cart, k) != [] ==>
      Matching(Added(cart, p), k) ==
        Matching(cart, k)[0 := Matching(cart, k)[0].(quantity := Matching(cart, k)[0].quantity + ResolvedQuantity(p))]
  {
    var pk := ProductKey(p);
    match Find(cart, pk)
    case Some(i) =>
      var x := cart[i].(quantity := cart[i].quantity + ResolvedQuantity(p));
      Split(cart, i, x);
      MatchingConcat(cart[..i] + [cart[i]], cart[i + 1..], k);
      MatchingConcat(cart[..i], [cart[i]], k);
      MatchingConcat(cart[..i] + [x], cart[i + 1..], k);
      MatchingConcat(cart[..i], [x], k);
      if k == pk {
        MatchingNone(cart[..i], k);
      }
    case None =>
      MatchingNone(cart, pk);
      MatchingConcat(cart, [Resolve(p)], k);
  }

  /** One addToCart under key `k`, on a cart holding at most one entry for `k`. */
  lemma AddOneUnderKey(cart: Items, p: Product, k: Key)
    requires ProductKey(p) == k
    requires |Matching(cart, k)| <= 1
    ensures |Matching(Added(cart, p), k)| == 1
    ensures Count(Matching(Added(cart, p), k)) == Count(Matching(cart, k)) + ResolvedQuantity(p)
  {
    var q := ResolvedQuantity(p);
    var m := Matching(cart, k);
    AddMatching(cart, p, k);
    if m != [] {
      CountAfterReplace(m, 0, m[0].(quantity := m[0].quantity + q));
    } else {
      assert [Resolve(p)][..0] == [];
    }
  }

  /**
   * A run of addToCart calls that all resolve to key `k`, on a cart holding at most
   * one entry for `k`, leaves exactly one entry for `k`, holding the earlier
   * quantity plus every supplied quantity.
   */
  lemma {:induction false} AddRepeatedly(cart: Items, ps: seq<Product>, k: Key)
    requires |ps| > 0
    requires forall n :: 0 <= n < |ps| ==> ProductKey(ps[n]) == k
    requires |Matching(cart, k)| <= 1
    ensures |Matching(AddedAll(cart, ps), k)| == 1
    ensures Count(Matching(AddedAll(cart, ps), k)) == Count(Matching(cart, k)) + SuppliedQuantity(ps)
    decreases |ps|
  {
    var next := Added(cart, ps[0]);
    AddOneUnderKey(cart, ps[0], k);
    assert AddedAll(cart, ps) == AddedAll(next, ps[1..]);
    if |ps| > 1 {
      AddRepeatedly(next, ps[1..], k);
    } else {
      assert ps[1..] == [];
    }
  }

  /** The same configuration added to a cart that lacks it: one entry whose quantity is the sum. */
  lemma AddSameConfiguration(cart: Items, ps: seq<Product>, k: Key)
    requires |ps| > 0
    requires forall n :: 0 <= n < |ps| ==> ProductKey(ps[n]) == k
    requires forall j :: 0 <= j < |cart| ==> KeyOf(cart[j]) != k
    ensures |Matching(AddedAll(cart, ps), k)| == 1
    ensures Matching(AddedAll(cart, ps), k)[0].quantity == SuppliedQuantity(ps)
  {
    MatchingNone(cart, k);
    AddRepeatedly(cart, ps, k);
    var m := Matching(AddedAll(cart, ps), k);
    assert m == [] + [m[0]];
  }

  // ---------------------------------------------------------------- removeFromCart

  lemma RemovePreservesInvariants(cart: Items, i: nat)
    requires i < |cart|
    ensures UniqueKeys(cart) ==> UniqueKeys(Removed(cart, i))
    ensures AllPositive(cart) ==> AllPositive(Removed(cart, i))
  {
  }

  lemma RemoveSums(cart: Items, i: nat)
    requires i < |cart|
    ensures Total(Removed(cart, i)) == Total(cart) - Subtotal(cart[i])
    ensures Count(Removed(cart, i)) == Count(cart) - cart[i].quantity
  {
    Split(cart, i, cart[i]);
    TotalConcat(cart[..i] + [cart[i]], cart[i + 1..]);
    TotalConcat(cart[..i], [cart[i]]);
    TotalConcat(cart[..i], cart[i + 1..]);
    CountConcat(cart[..i] + [cart[i]], cart[i + 1..]);
    CountConcat(cart[..i], [cart[i]]);
    CountConcat(cart[..i], cart[i + 1..]);
  }

  // ---------------------------------------------------------------- updateQuantity

  /** A quantity of zero or less is the same as removing the entry. */
  lemma UpdateNonPositiveRemoves(cart: Items, i: nat, q: int)
    requires i < |cart| && q <= 0
    ensures Updated(cart, i, q) == Removed(cart, i)
    ensures |Updated(cart, i, q)| == |cart| - 1
  {
  }

  /** A positive quantity replaces entry i's quantity and nothing else. */
  lemma UpdatePositiveSetsQuantity(cart: Items, i: nat, q: int)
    requires i < |cart| && q > 0
    ensures |Updated(cart, i, q)| == |cart|
    ensures Updated(cart, i, q)[i] == cart[i].(quantity := q)
    ensures forall j :: 0 <= j < |cart| && j != i ==> Updated(cart, i, q)[j] == cart[j]
    ensures Count(Updated(cart, i, q)) == Count(cart) - cart[i].quantity + q
    ensures Total(Updated(cart, i, q)) == Total(cart) - Subtotal(cart[i]) + cart[i].price * q
  {
    CountAfterReplace(cart, i, cart[i].(quantity := q));
    TotalAfterReplace(cart, i, cart[i].(quantity := q));
  }

  lemma UpdatePreservesInvariants(cart: Items, i: nat, q: int)
    requires i < |cart|
    ensures UniqueKeys(cart) ==> UniqueKeys(Updated(cart, i, q))
    ensures AllPositive(cart) ==> AllPositive(Updated(cart, i, q))
  {
  }

  // ---------------------------------------------------------------- scenarios

  /** `addToCart({})` on an empty cart: one default entry, quantity 1, total 29. */
  lemma ScenarioAddDefaultToEmpty()
    ensures Added([], NoFields) == [DefaultItem]
    ensures Count(Added([], NoFields)) == 1 && Total(Added([], NoFields)) == 29
  {
  }

  /** The default item added twice: one entry, quantity 2, total 58. */
  lemma ScenarioAddDefaultTwice()
    ensures |AddedAll([], [NoFields, NoFields])| == 1
    ensures AddedAll([], [NoFields, NoFields])[0].quantity == 2
    ensures Total(AddedAll([], [NoFields, NoFields])) == 58
  {
    ScenarioAddDefaultToEmpty();
    var once := [DefaultItem];
    assert Find(once, ProductKey(NoFields)) == Some(0);
    var twice := Added(once, NoFields);
    assert twice == [DefaultItem.(quantity := 2)];
    assert [NoFields, NoFields][1..] == [NoFields];
    assert AddedAll([], [NoFields, NoFields]) == AddedAll(once, [NoFields]) == twice;
    assert twice[..0] == [];
  }

  /** A blue item after a red one with the same id and size: two distinct entries. */
  lemma ScenarioTwoColors()
    ensures |Added(Added([], NoFields.(color := Some("rouge"))), NoFields.(color := Some("bleu")))| == 2
  {
  }

  /** One entry of quantity 1, then `updateQuantity(0, 0)`: the cart is empty and totals 0. */
  lemma ScenarioUpdateToZero(item: LineItem)
    ensures Updated([item], 0, 0) == [] && Total(Updated([item], 0, 0)) == 0
  {
  }
}

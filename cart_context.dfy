/**
 * The shopping cart: its actions, the pure reducer that applies them to an
 * ordered list of line items, the two aggregates, and the provider object
 * whose `items` state each dispatcher replaces.
 */
module Cart {

  import opened Options
  import opened Catalog
  import opened Seqs

  /** One line of the cart. */
  datatype Item = Item(product: Product, quantity: int)

  /**
   * The four tagged actions. An add action's quantity is optional; the
   * type rules out any other tag, so the reducer's `default` branch cannot
   * be reached.
   */
  datatype Action =
    | AddToCart(product: Product, quantity: Option<int>)
    | RemoveFromCart(productId: int)
    | UpdateQuantity(productId: int, newQuantity: int)
    | ClearCart

  /**
   * `action.quantity || 1`: an absent or zero quantity is falsy and becomes 1;
   * every other value, negative ones included, is kept.
   */
  function EffectiveQuantity(q: Option<int>): (r: int)
    ensures r != 0
    ensures q.None? || q.value == 0 ==> r == 1
    ensures q.Some? && q.value != 0 ==> r == q.value
    ensures (q.None? || q.value >= 0) ==> r > 0
  {
    match q
    case None => 1
    case Some(v) => if v == 0 then 1 else v
  }

  /** Some line of `s` is for the product with this id. */
  predicate HasId(s: seq<Item>, id: int)
  {
    exists i :: 0 <= i < |s| && s[i].product.id == id
  }

  /** `state.find(item => item.product.id === id)`: the first line for that id, if any. */
  function Find(s: seq<Item>, id: int): (r: Option<Item>)
    ensures r.Some? <==> HasId(s, id)
    ensures r.Some? ==> r.value == s[FirstIndex(s, id)]
    decreases |s|
  {
    if s == [] then None
    else if s[0].product.id == id then Some(s[0])
    else
      assert HasId(s, id) ==> HasId(s[1..], id) by {
        if HasId(s, id) {
          var i :| 0 <= i < |s| && s[i].product.id == id;
          assert s[1..][i - 1].product.id == id;
        }
      }
      Find(s[1..], id)
  }

  /** Index of the first line with that id. */
  function FirstIndex(s: seq<Item>, id: int): (k: nat)
    requires HasId(s, id)
    ensures k < |s| && s[k].product.id == id
    ensures forall j :: 0 <= j < k ==> s[j].product.id != id
    decreases |s|
  {
    if s[0].product.id == id then 0
    else
      assert HasId(s[1..], id) by {
        var i :| 0 <= i < |s| && s[i].product.id == id;
        assert s[1..][i - 1].product.id == id;
      }
      1 + FirstIndex(s[1..], id)
  }

  /** Every line whose product has that id gets `q` more. */
  function IncreaseQuantity(s: seq<Item>, id: int, q: int): seq<Item>
  {
    seq(|s|, i requires 0 <= i < |s| =>
      if s[i].product.id == id then s[i].(quantity := s[i].quantity + q) else s[i])
  }

  /** Every line whose product has that id gets quantity `q`. */
  function SetQuantity(s: seq<Item>, id: int, q: int): seq<Item>
  {
    seq(|s|, i requires 0 <= i < |s| =>
      if s[i].product.id == id then s[i].(quantity := q) else s[i])
  }

  /** The filter predicate `item.product.id !== id`. */
  function NotFor(id: int): Item -> bool
  {
    (item: Item) => item.product.id != id
  }

  /** The `ADD_TO_CART` case: merge into the existing line, or append a new one. */
  function AddLine(state: seq<Item>, product: Product, quantity: int): seq<Item>
  {
    if Find(state, product.id).Some? then IncreaseQuantity(state, product.id, quantity)
    else state + [Item(product, quantity)]
  }

  /** The state transition of the cart. */
  function Reduce(state: seq<Item>, action: Action): seq<Item>
  {
    match action
    case AddToCart(product, q) =>
      AddLine(state, product, EffectiveQuantity(q))
    case RemoveFromCart(id) =>
      Filter(state, NotFor(id))
    case UpdateQuantity(id, q) =>
      if q <= 0 then Filter(state, NotFor(id)) else SetQuantity(state, id, q)
    case ClearCart =>
      []
  }

  /** The actions applied one after another, as the dispatcher feeds them to the reducer. */
  function ReduceAll(state: seq<Item>, actions: seq<Action>): seq<Item>
    decreases |actions|
  {
    if actions == [] then state else ReduceAll(Reduce(state, actions[0]), actions[1..])
  }

  // ---------------------------------------------------------------------
  // The cart invariant

  /** No two lines share a product id. */
  predicate UniqueIds(s: seq<Item>)
  {
    forall i, j :: 0 <= i < j < |s| ==> s[i].product.id != s[j].product.id
  }

  /** Every line has a strictly positive quantity. */
  predicate AllPositive(s: seq<Item>)
  {
    forall i :: 0 <= i < |s| ==> s[i].quantity > 0
  }

  predicate ValidCart(s: seq<Item>)
  {
    UniqueIds(s) && AllPositive(s)
  }

  /** An action that does not pass a negative quantity through the `|| 1` default. */
  predicate NoNegativeAdd(a: Action)
  {
    a.AddToCart? && a.quantity.Some? ==> a.quantity.value >= 0
  }

  // ---------------------------------------------------------------------
  // The individual actions

  /** Adding an absent product appends exactly one line, at the end. */
  lemma {:induction false} AddAbsentAppends(s: seq<Item>, p: Product, q: Option<int>)
    requires !HasId(s, p.id)
    ensures Reduce(s, AddToCart(p, q)) == s + [Item(p, EffectiveQuantity(q))]
    ensures |Reduce(s, AddToCart(p, q))| == |s| + 1
  {
  }

  /** An add without a quantity, or with quantity 0, is an add of one unit. */
  lemma {:induction false} AddDefaultsToOne(s: seq<Item>, p: Product)
    ensures Reduce(s, AddToCart(p, None)) == Reduce(s, AddToCart(p, Some(1)))
    ensures Reduce(s, AddToCart(p, Some(0))) == Reduce(s, AddToCart(p, Some(1)))
    ensures !HasId(s, p.id) ==> Reduce(s, AddToCart(p, None)) == s + [Item(p, 1)]
  {
  }

  /**
   * Adding a product already in a cart with unique ids raises only that
   * line's quantity, by the effective quantity; length, order and every
   * other line stay as they were.
   */
  lemma {:induction false} AddPresentIncrements(s: seq<Item>, p: Product, q: Option<int>, k: nat)
    requires UniqueIds(s)
    requires k < |s| && s[k].product.id == p.id
    ensures Reduce(s, AddToCart(p, q))
         == s[..k] + [Item(s[k].product, s[k].quantity + EffectiveQuantity(q))] + s[k + 1..]
  {
    assert HasId(s, p.id);
    IncreaseAt(s, p.id, EffectiveQuantity(q), k);
  }

  /** With unique ids, raising the lines for `id` changes line `k` alone. */
  lemma {:induction false} IncreaseAt(s: seq<Item>, id: int, n: int, k: nat)
    requires UniqueIds(s)
    requires k < |s| && s[k].product.id == id
    ensures IncreaseQuantity(s, id, n) == s[..k] + [Item(s[k].product, s[k].quantity + n)] + s[k + 1..]
  {
    var r := IncreaseQuantity(s, id, n);
    var t := s[..k] + [Item(s[k].product, s[k].quantity + n)] + s[k + 1..];
    assert |r| == |t|;
    forall i | 0 <= i < |r| ensures r[i] == t[i] {
      if i < k {
        assert s[i].product.id != s[k].product.id;
      } else if i > k {
        assert s[k].product.id != s[i].product.id;
      }
    }
  }

  /** Removal deletes the one line for that id and keeps the others in order. */
  lemma {:induction false} RemovePresentDeletes(s: seq<Item>, id: int, k: nat)
    requires UniqueIds(s)
    requires k < |s| && s[k].product.id == id
    ensures Reduce(s, RemoveFromCart(id)) == s[..k] + s[k + 1..]
  {
    var a, b, keep := s[..k], s[k + 1..], NotFor(id);
    assert s == (a + [s[k]]) + b;
    forall i | 0 <= i < |a| ensures keep(a[i]) {
      assert a[i] == s[i];
    }
    forall i | 0 <= i < |b| ensures keep(b[i]) {
      assert b[i] == s[k + 1 + i];
    }
    FilterDropsOne(a, s[k], b, keep);
  }

  /** Removing an id that is not in the cart changes nothing. */
  lemma {:induction false} RemoveAbsentIsNoOp(s: seq<Item>, id: int)
    requires !HasId(s, id)
    ensures Reduce(s, RemoveFromCart(id)) == s
  {
    FilterKeepsAll(s, NotFor(id));
  }

  /** After removal no line has that id, and the rest is an order-preserving subsequence. */
  lemma {:induction false} RemoveDropsId(s: seq<Item>, id: int)
    ensures !HasId(Reduce(s, RemoveFromCart(id)), id)
    ensures IsSubsequence(Reduce(s, RemoveFromCart(id)), s)
  {
    FilterIsSubsequence(s, NotFor(id));
    var r := Reduce(s, RemoveFromCart(id));
    forall i | 0 <= i < |r| ensures r[i].product.id != id {
      assert r[i] in r;
    }
  }

  /** Updating to zero or less is the same as removing. */
  lemma {:induction false} UpdateNonPositiveRemoves(s: seq<Item>, id: int, q: int)
    requires q <= 0
    ensures Reduce(s, UpdateQuantity(id, q)) == Reduce(s, RemoveFromCart(id))
  {
  }

  /** Updating to a positive quantity replaces that line's quantity and nothing else. */
  lemma {:induction false} UpdatePositiveReplaces(s: seq<Item>, id: int, q: int, k: nat)
    requires q > 0 && UniqueIds(s)
    requires k < |s| && s[k].product.id == id
    ensures Reduce(s, UpdateQuantity(id, q)) == s[..k] + [Item(s[k].product, q)] + s[k + 1..]
  {
    var r := Reduce(s, UpdateQuantity(id, q));
    var t := s[..k] + [Item(s[k].product, q)] + s[k + 1..];
    assert |r| == |t|;
    forall i | 0 <= i < |r| ensures r[i] == t[i] {
      if i < k {
        assert s[i].product.id != s[k].product.id;
      } else if i > k {
        assert s[k].product.id != s[i].product.id;
      }
    }
  }

  /** Update never appends a line: for an absent id it is a no-op, whatever the quantity. */
  lemma {:induction false} UpdateAbsentIsNoOp(s: seq<Item>, id: int, q: int)
    requires !HasId(s, id)
    ensures Reduce(s, UpdateQuantity(id, q)) == s
  {
    if q <= 0 {
      RemoveAbsentIsNoOp(s, id);
    } else {
      var r := Reduce(s, UpdateQuantity(id, q));
      assert |r| == |s|;
      forall i | 0 <= i < |s| ensures r[i] == s[i] {
        assert s[i].product.id != id;
      }
    }
  }

  /** Clearing yields the empty cart. */
  lemma {:induction false} ClearEmpties(s: seq<Item>)
    ensures Reduce(s, ClearCart) == []
  {
  }

  // ---------------------------------------------------------------------
  // The invariant is preserved

  lemma {:induction false} FilterKeepsUniqueIds(s: seq<Item>, keep: Item -> bool)
    requires UniqueIds(s)
    ensures UniqueIds(Filter(s, keep))
    decreases |s|
  {
    if s != [] {
      FilterKeepsUniqueIds(s[1..], keep);
      var rest := Filter(s[1..], keep);
      if keep(s[0]) {
        var r := Filter(s, keep);
        assert r == [s[0]] + rest;
        forall j | 0 <= j < |rest| ensures rest[j].product.id != s[0].product.id {
          assert rest[j] in s[1..];
          var m :| 0 <= m < |s[1..]| && s[1..][m] == rest[j];
          assert s[m + 1] == rest[j];
        }
      }
    }
  }

  lemma {:induction false} FilterKeepsAllPositive(s: seq<Item>, keep: Item -> bool)
    requires AllPositive(s)
    ensures AllPositive(Filter(s, keep))
  {
    var r := Filter(s, keep);
    forall i | 0 <= i < |r| ensures r[i].quantity > 0 {
      assert r[i] in s;
    }
  }

  /** Every action keeps product ids unique. */
  lemma {:induction false} ReducePreservesUniqueIds(s: seq<Item>, a: Action)
    requires UniqueIds(s)
    ensures UniqueIds(Reduce(s, a))
  {
    match a
    case AddToCart(p, q) =>
      if !HasId(s, p.id) {
        var r := Reduce(s, a);
        assert r == s + [Item(p, EffectiveQuantity(q))];
        forall i, j | 0 <= i < j < |r| ensures r[i].product.id != r[j].product.id {
          if j == |s| {
            assert r[i] == s[i];
          }
        }
      }
    case RemoveFromCart(id) =>
      FilterKeepsUniqueIds(s, NotFor(id));
    case UpdateQuantity(id, q) =>
      FilterKeepsUniqueIds(s, NotFor(id));
    case ClearCart =>
  }

  /**
   * Every action keeps quantities positive, provided an add does not carry a
   * negative quantity (which `|| 1` lets through).
   */
  lemma {:induction false} ReducePreservesAllPositive(s: seq<Item>, a: Action)
    requires AllPositive(s) && NoNegativeAdd(a)
    ensures AllPositive(Reduce(s, a))
  {
    match a
    case AddToCart(p, q) =>
    case RemoveFromCart(id) =>
      FilterKeepsAllPositive(s, NotFor(id));
    case UpdateQuantity(id, q) =>
      FilterKeepsAllPositive(s, NotFor(id));
    case ClearCart =>
  }

  lemma {:induction false} ReducePreservesValid(s: seq<Item>, a: Action)
    requires ValidCart(s) && NoNegativeAdd(a)
    ensures ValidCart(Reduce(s, a))
  {
    ReducePreservesUniqueIds(s, a);
    ReducePreservesAllPositive(s, a);
  }

  /** The positivity half of the invariant is only conditional: a negative add breaks it. */
  lemma {:induction false} NegativeAddBreaksPositivity(p: Product)
    ensures Reduce([], AddToCart(p, Some(-1))) == [Item(p, -1)]
    ensures !AllPositive(Reduce([], AddToCart(p, Some(-1))))
  {
    assert !HasId([], p.id);
    assert Reduce([], AddToCart(p, Some(-1)))[0].quantity == -1;
  }

  /** For all sequences of actions, the invariant holds after every one of them. */
  lemma {:induction false} ReduceAllPreservesValid(s: seq<Item>, actions: seq<Action>)
    requires ValidCart(s)
    requires forall i :: 0 <= i < |actions| ==> NoNegativeAdd(actions[i])
    ensures ValidCart(ReduceAll(s, actions))
    decreases |actions|
  {
    if actions != [] {
      ReducePreservesValid(s, actions[0]);
      ReduceAllPreservesValid(Reduce(s, actions[0]), actions[1..]);
    }
  }

  /** Uniqueness of ids needs no condition at all. */
  lemma {:induction false} ReduceAllPreservesUniqueIds(s: seq<Item>, actions: seq<Action>)
    requires UniqueIds(s)
    ensures UniqueIds(ReduceAll(s, actions))
    decreases |actions|
  {
    if actions != [] {
      ReducePreservesUniqueIds(s, actions[0]);
      ReduceAllPreservesUniqueIds(Reduce(s, actions[0]), actions[1..]);
    }
  }

  // ---------------------------------------------------------------------
  // Aggregates

  /** `items.reduce((total, item) => total + item.quantity, 0)`, folding from the left. */
  function TotalItems(s: seq<Item>): int
    decreases |s|
  {
    if s == [] then 0 else TotalItems(s[..|s| - 1]) + s[|s| - 1].quantity
  }

  /** What one line contributes to the price total: `item.product.price * item.quantity`. */
  function LinePrice(x: Item): real
  {
    x.product.price * x.quantity as real
  }

  lemma {:induction false} LinePriceAdd(x: Item, n: int)
    ensures LinePrice(Item(x.product, x.quantity + n)) == LinePrice(x) + LinePrice(Item(x.product, n))
  {
    var p := x.product.price;
    assert p * (x.quantity + n) as real == p * x.quantity as real + p * n as real;
  }

  /** `items.reduce((total, item) => total + item.product.price * item.quantity, 0)`. */
  function TotalPrice(s: seq<Item>): real
    decreases |s|
  {
    if s == [] then 0.0 else TotalPrice(s[..|s| - 1]) + LinePrice(s[|s| - 1])
  }

  /** Both totals add up over concatenation. */
  lemma {:induction false} TotalsAppend(a: seq<Item>, b: seq<Item>)
    ensures TotalItems(a + b) == TotalItems(a) + TotalItems(b)
    ensures TotalPrice(a + b) == TotalPrice(a) + TotalPrice(b)
    decreases |b|
  {
    if b == [] {
      assert a + b == a;
    } else {
      var b' := b[..|b| - 1];
      assert (a + b)[..|a + b| - 1] == a + b';
      assert (a + b)[|a + b| - 1] == b[|b| - 1];
      TotalsAppend(a, b');
    }
  }

  /** The totals of one line. */
  lemma {:induction false} TotalsSingle(x: Item)
    ensures TotalItems([x]) == x.quantity
    ensures TotalPrice([x]) == LinePrice(x)
  {
    assert [x][..0] == [];
  }

  /** The totals of a cart split around line `k`. */
  lemma {:induction false} TotalsSplitAt(s: seq<Item>, k: nat)
    requires k < |s|
    ensures TotalItems(s) == TotalItems(s[..k]) + s[k].quantity + TotalItems(s[k + 1..])
    ensures TotalPrice(s) == TotalPrice(s[..k]) + LinePrice(s[k]) + TotalPrice(s[k + 1..])
  {
    var a, b := s[..k], s[k + 1..];
    assert s == (a + [s[k]]) + b;
    TotalsAppend(a + [s[k]], b);
    TotalsAppend(a, [s[k]]);
    TotalsSingle(s[k]);
  }

  /** Both totals of the empty cart are 0. */
  lemma {:induction false} TotalsEmpty()
    ensures TotalItems([]) == 0 && TotalPrice([]) == 0.0
  {
  }

  /** The totals around replacing line `k`. */
  lemma {:induction false} TotalsReplaceAt(s: seq<Item>, k: nat, x: Item)
    requires k < |s|
    ensures TotalItems(s[..k] + [x] + s[k + 1..]) == TotalItems(s) - s[k].quantity + x.quantity
    ensures TotalPrice(s[..k] + [x] + s[k + 1..]) == TotalPrice(s) - LinePrice(s[k]) + LinePrice(x)
  {
    var t := s[..k] + [x] + s[k + 1..];
    assert t[..k] == s[..k] && t[k] == x && t[k + 1..] == s[k + 1..];
    TotalsSplitAt(s, k);
    TotalsSplitAt(t, k);
  }

  /** With positive quantities the item count is at least the number of lines. */
  lemma {:induction false} TotalItemsAtLeastLines(s: seq<Item>)
    requires AllPositive(s)
    ensures TotalItems(s) >= |s|
    ensures TotalItems(s) == 0 <==> s == []
    decreases |s|
  {
    if s != [] {
      TotalItemsAtLeastLines(s[..|s| - 1]);
    }
  }

  predicate NonNegativePrices(s: seq<Item>)
  {
    forall i :: 0 <= i < |s| ==> s[i].product.price >= 0.0
  }

  lemma {:induction false} TotalPriceNonNegative(s: seq<Item>)
    requires AllPositive(s) && NonNegativePrices(s)
    ensures TotalPrice(s) >= 0.0
    decreases |s|
  {
    if s != [] {
      var x := s[|s| - 1];
      TotalPriceNonNegative(s[..|s| - 1]);
      assert LinePrice(x) >= 0.0;
    }
  }

  /** The unit price the cart charges when `p` is added: the existing line's product, or `p` itself. */
  function UnitPriceOnAdd(s: seq<Item>, p: Product): real
  {
    match Find(s, p.id)
    case Some(item) => item.product.price
    case None => p.price
  }

  /**
   * The add case raises the item count by the quantity added, and the price
   * total by that many units of the line's price.
   */
  lemma {:induction false} AddRaisesTotals(s: seq<Item>, p: Product, n: int)
    requires UniqueIds(s)
    ensures TotalItems(AddLine(s, p, n)) == TotalItems(s) + n
    ensures TotalPrice(AddLine(s, p, n)) == TotalPrice(s) + UnitPriceOnAdd(s, p) * n as real
  {
    if Find(s, p.id).Some? {
      var k := FirstIndex(s, p.id);
      IncreaseAt(s, p.id, n, k);
      TotalsAfterIncrement(s, k, n, AddLine(s, p, n), UnitPriceOnAdd(s, p));
    } else {
      TotalsAppend(s, [Item(p, n)]);
      TotalsSingle(Item(p, n));
    }
  }

  /** The totals of `r`, the cart `s` with line `k` raised by `n` units of price `unit`. */
  lemma {:induction false} TotalsAfterIncrement(s: seq<Item>, k: nat, n: int, r: seq<Item>, unit: real)
    requires k < |s| && unit == s[k].product.price
    requires r == s[..k] + [Item(s[k].product, s[k].quantity + n)] + s[k + 1..]
    ensures TotalItems(r) == TotalItems(s) + n
    ensures TotalPrice(r) == TotalPrice(s) + unit * n as real
  {
    TotalsReplaceAt(s, k, Item(s[k].product, s[k].quantity + n));
    LinePriceAdd(s[k], n);
  }

  /** Removing a line lowers the totals by exactly that line's share. */
  lemma {:induction false} RemoveLowersTotals(s: seq<Item>, k: nat)
    requires UniqueIds(s) && k < |s|
    ensures TotalItems(Reduce(s, RemoveFromCart(s[k].product.id))) == TotalItems(s) - s[k].quantity
    ensures TotalPrice(Reduce(s, RemoveFromCart(s[k].product.id))) == TotalPrice(s) - LinePrice(s[k])
  {
    RemovePresentDeletes(s, s[k].product.id, k);
    TotalsSplitAt(s, k);
    TotalsAppend(s[..k], s[k + 1..]);
  }

  /** Adding P twice, 2 then 3, leaves one line for P with quantity 5; item count rises by 5. */
  lemma {:induction false} AddTwiceMerges(s: seq<Item>, p: Product)
    requires UniqueIds(s) && !HasId(s, p.id)
    ensures ReduceAll(s, [AddToCart(p, Some(2)), AddToCart(p, Some(3))]) == s + [Item(p, 5)]
    ensures TotalItems(ReduceAll(s, [AddToCart(p, Some(2)), AddToCart(p, Some(3))])) == TotalItems(s) + 5
  {
    var first, second := AddToCart(p, Some(2)), AddToCart(p, Some(3));
    var s1 := Reduce(s, first);
    AddAbsentAppends(s, p, Some(2));
    assert s1 == s + [Item(p, 2)];
    ReducePreservesUniqueIds(s, first);
    AddPresentIncrements(s1, p, Some(3), |s|);
    assert s1[..|s|] == s && s1[|s| + 1..] == [];
    var s2 := Reduce(s1, second);
    assert s2 == s + [Item(p, 5)];
    assert [first, second][1..] == [second];
    assert ReduceAll(s1, [second]) == ReduceAll(s2, []);
    assert ReduceAll(s, [first, second]) == s2;
    TotalsAppend(s, [Item(p, 5)]);
    TotalsSingle(Item(p, 5));
  }

  // ---------------------------------------------------------------------
  // The provider

  /**
   * `CartProvider`: holds the current `items`; each dispatcher replaces them
   * with the reducer's result, starting from the empty cart.
   */
  class CartStore {

    var items: seq<Item>

    constructor ()
      ensures items == [] && ValidCart(items)
    {
      items := [];
    }

    /** `addToCart(product, quantity = 1)`: the quantity is always passed to the action. */
    method AddToCart(product: Product, quantity: int := 1)
      modifies this
      ensures items == Reduce(old(items), Action.AddToCart(product, Some(quantity)))
      ensures ValidCart(old(items)) && quantity >= 0 ==> ValidCart(items)
      ensures UniqueIds(old(items)) ==> TotalItems(items) == TotalItems(old(items)) + EffectiveQuantity(Some(quantity))
    {
      if UniqueIds(items) {
        AddRaisesTotals(items, product, EffectiveQuantity(Some(quantity)));
      }
      if ValidCart(items) && quantity >= 0 {
        ReducePreservesValid(items, Action.AddToCart(product, Some(quantity)));
      }
      items := Reduce(items, Action.AddToCart(product, Some(quantity)));
    }

    method RemoveFromCart(productId: int)
      modifies this
      ensures items == Reduce(old(items), Action.RemoveFromCart(productId))
      ensures ValidCart(old(items)) ==> ValidCart(items)
      ensures !HasId(items, productId)
    {
      if ValidCart(items) {
        ReducePreservesValid(items, Action.RemoveFromCart(productId));
      }
      RemoveDropsId(items, productId);
      items := Reduce(items, Action.RemoveFromCart(productId));
    }

    method UpdateQuantity(productId: int, quantity: int)
      modifies this
      ensures items == Reduce(old(items), Action.UpdateQuantity(productId, quantity))
      ensures ValidCart(old(items)) ==> ValidCart(items)
      ensures |items| <= |old(items)|
    {
      if ValidCart(items) {
        ReducePreservesValid(items, Action.UpdateQuantity(productId, quantity));
      }
      items := Reduce(items, Action.UpdateQuantity(productId, quantity));
    }

    method ClearCart()
      modifies this
      ensures items == [] && ValidCart(items)
    {
      items := Reduce(items, Action.ClearCart);
    }

    /** `getTotalPrice()`: 0 for the empty cart, never negative when no price is. */
    function GetTotalPrice(): (r: real)
      reads this
      ensures items == [] ==> r == 0.0
      ensures AllPositive(items) && NonNegativePrices(items) ==> r >= 0.0
    {
      if AllPositive(items) && NonNegativePrices(items) then
        TotalPriceNonNegative(items);
        TotalPrice(items)
      else
        TotalPrice(items)
    }

    /** `getTotalItems()`: with positive quantities, at least one per line, and 0 exactly for the empty cart. */
    function GetTotalItems(): (r: int)
      reads this
      ensures items == [] ==> r == 0
      ensures AllPositive(items) ==> r >= |items| && (r == 0 <==> items == [])
    {
      if AllPositive(items) then
        TotalItemsAtLeastLines(items);
        TotalItems(items)
      else
        TotalItems(items)
    }
  }

}

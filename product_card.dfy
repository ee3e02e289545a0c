/**
 * The product card: the mock discount rule, the filled-star count, the
 * wishlist flag and the "Add to cart" button.
 */
module ProductCard {

  import opened Options
  import opened Catalog
  import opened Cart

  /** JavaScript's `%`: the remainder takes the sign of the dividend. */
  function JsRemainder(a: int, b: int): int
    requires b != 0
  {
    var r := (if a < 0 then -a else a) % (if b < 0 then -b else b);
    if a < 0 then -r else r
  }

  /** `product.id % 3 === 0`. */
  predicate HasDiscount(p: Product)
  {
    JsRemainder(p.id, 3) == 0
  }

  function DiscountPercentage(p: Product): int
  {
    if HasDiscount(p) then 50 else 0
  }

  /** The struck-through price. */
  function OriginalPrice(p: Product): real
  {
    if HasDiscount(p) then p.price * 2.0 else p.price
  }

  /** Every third id is discounted, negative ids included. */
  lemma {:induction false} DiscountEveryThirdId(p: Product)
    ensures HasDiscount(p) <==> p.id % 3 == 0
  {
    var m := if p.id < 0 then -p.id else p.id;
    assert (m % 3 == 0) <==> (p.id % 3 == 0) by {
      if p.id < 0 {
        assert p.id == -m;
        assert -m == 3 * (-(m / 3)) - m % 3;
        if m % 3 != 0 {
          assert -m == 3 * (-(m / 3) - 1) + (3 - m % 3);
        }
      }
    }
  }

  /**
   * The three values are consistent: the price shown is the original price
   * less the discount percentage, and the original price is never below it.
   */
  lemma {:induction false} DiscountConsistent(p: Product)
    ensures p.price == OriginalPrice(p) * (100 - DiscountPercentage(p)) as real / 100.0
    ensures HasDiscount(p) <==> DiscountPercentage(p) == 50
    ensures !HasDiscount(p) <==> DiscountPercentage(p) == 0
    ensures p.price >= 0.0 ==> OriginalPrice(p) >= p.price
    ensures p.price > 0.0 ==> (HasDiscount(p) <==> OriginalPrice(p) > p.price)
  {
  }

  /** The five stars: star `i` is filled when `i < Math.floor(rate)`. */
  function StarFlags(rate: real): seq<bool>
  {
    seq(5, i => i < rate.Floor)
  }

  /** How many flags are set. */
  function CountFilled(flags: seq<bool>): nat
    decreases |flags|
  {
    if flags == [] then 0
    else CountFilled(flags[..|flags| - 1]) + (if flags[|flags| - 1] then 1 else 0)
  }

  function Clamp(x: int, lo: int, hi: int): int
  {
    if x < lo then lo else if x > hi then hi else x
  }

  lemma {:induction false} CountPrefixFlags(n: nat, f: int)
    ensures CountFilled(seq(n, i => i < f)) == Clamp(f, 0, n)
  {
    if n > 0 {
      var s := seq(n, i => i < f);
      assert s[..n - 1] == seq(n - 1, i => i < f);
      CountPrefixFlags(n - 1, f);
    }
  }

  /** The filled stars are the floor of the rate, clamped to 0..5, and come first. */
  lemma {:induction false} FilledStarsClamp(rate: real)
    ensures CountFilled(StarFlags(rate)) == Clamp(rate.Floor, 0, 5)
    ensures forall i :: 0 <= i < 5 ==> (StarFlags(rate)[i] <==> i < CountFilled(StarFlags(rate)))
  {
    CountPrefixFlags(5, rate.Floor);
  }

  /** `setIsWishlisted(!isWishlisted)`. */
  function ToggleWishlist(wishlisted: bool): bool
  {
    !wishlisted
  }

  /** Each click flips the flag; two clicks restore it. */
  lemma {:induction false} WishlistToggleTwice(wishlisted: bool)
    ensures ToggleWishlist(wishlisted) != wishlisted
    ensures ToggleWishlist(ToggleWishlist(wishlisted)) == wishlisted
  {
  }

  /** "Add to cart" adds one unit: the item count rises by exactly 1. */
  lemma {:induction false} AddOneRaisesCountByOne(s: seq<Item>, p: Product)
    requires UniqueIds(s)
    ensures TotalItems(Reduce(s, AddToCart(p, Some(1)))) == TotalItems(s) + 1
    ensures ValidCart(s) ==> ValidCart(Reduce(s, AddToCart(p, Some(1))))
  {
    AddRaisesTotals(s, p, 1);
    if ValidCart(s) {
      ReducePreservesValid(s, AddToCart(p, Some(1)));
    }
  }

  /** `handleAddToCart`: `addToCart(product)` with the default quantity. */
  method HandleAddToCart(cart: CartStore, product: Product)
    modifies cart
    ensures cart.items == Reduce(old(cart.items), AddToCart(product, Some(1)))
    ensures UniqueIds(old(cart.items)) ==> TotalItems(cart.items) == TotalItems(old(cart.items)) + 1
    ensures ValidCart(old(cart.items)) ==> ValidCart(cart.items)
  {
    cart.AddToCart(product);
  }

}

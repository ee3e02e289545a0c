/** The header's cart badge, derived from the cart's item count. */
module Header {

  import opened Options
  import opened Decimal
  import opened Cart

  /** No badge for a count of 0 or less; "9+" above 9; otherwise the count itself. */
  function BadgeLabel(totalItems: int): Option<string>
  {
    if totalItems > 0 then Some(if totalItems > 9 then "9+" else NatToString(totalItems))
    else None
  }

  /** The badge of the header for the current cart. */
  function CartBadge(cart: CartStore): Option<string>
    reads cart
  {
    BadgeLabel(cart.GetTotalItems())
  }

  /** The badge is rendered exactly when the count is positive; "9+" exactly above 9. */
  lemma {:induction false} BadgeShownWhenPositive(totalItems: int)
    ensures BadgeLabel(totalItems).Some? <==> totalItems > 0
    ensures BadgeLabel(totalItems) == Some("9+") <==> totalItems > 9
  {
    if 0 < totalItems <= 9 {
      assert |NatToString(totalItems)| == 1;
    }
  }

  /** From 1 to 9 the badge shows the exact count, as one digit. */
  lemma {:induction false} BadgeShowsExactCount(totalItems: int)
    requires 1 <= totalItems <= 9
    ensures BadgeLabel(totalItems) == Some([DigitChar(totalItems)])
    ensures ParseNat(BadgeLabel(totalItems).value) == totalItems
  {
    ParseNatToString(totalItems);
  }

  /** After clearing the cart the badge is hidden. */
  lemma {:induction false} BadgeHiddenAfterClear(s: seq<Item>)
    ensures BadgeLabel(TotalItems(Reduce(s, ClearCart))).None?
  {
  }

  /** On a cart with positive quantities the badge is hidden exactly when the cart is empty. */
  lemma {:induction false} BadgeHiddenWhenEmpty(s: seq<Item>)
    requires AllPositive(s)
    ensures BadgeLabel(TotalItems(s)).None? <==> s == []
  {
    TotalItemsAtLeastLines(s);
  }

  /** The header's badge reads the store's current count. */
  lemma {:induction false} CartBadgeOfStore(cart: CartStore)
    ensures CartBadge(cart) == BadgeLabel(TotalItems(cart.items))
    ensures AllPositive(cart.items) ==> (CartBadge(cart).None? <==> cart.items == [])
  {
    if AllPositive(cart.items) {
      BadgeHiddenWhenEmpty(cart.items);
    }
  }

}

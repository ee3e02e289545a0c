/**
 * The cart page: shipping-option lookup, the order total, the per-line
 * subtotal, the shipping price labels, and what the quantity and remove
 * buttons dispatch to the cart.
 */
module CartPage {

  import opened Options
  import opened Decimal
  import opened Cart

  /**
   * A shipping choice; `labelText` is the option's `label` (a reserved word in
   * Dafny), and the source's prices are whole dollars.
   */
  datatype ShippingOption = ShippingOption(id: string, labelText: string, price: int)

  /** The three options, pick-up carrying a negative price as a discount. */
  const ShippingOptions: seq<ShippingOption> := [
    ShippingOption("free", "Free shipping", 0),
    ShippingOption("express", "Express shipping", 15),
    ShippingOption("pickup", "Pick Up", -21)
  ]

  /** `options.find(option => option.id === id)`. */
  function FindOption(options: seq<ShippingOption>, id: string): (r: Option<ShippingOption>)
    ensures r.Some? ==> r.value.id == id
    ensures r.Some? ==> exists k :: 0 <= k < |options| && options[k] == r.value
                                   && forall j :: 0 <= j < k ==> options[j].id != id
    ensures r.None? ==> forall i :: 0 <= i < |options| ==> options[i].id != id
    decreases |options|
  {
    if options == [] then None
    else if options[0].id == id then Some(options[0])
    else
      var r := FindOption(options[1..], id);
      assert r.Some? ==> exists k :: 0 <= k < |options| && options[k] == r.value
                                  && forall j :: 0 <= j < k ==> options[j].id != id by {
        if r.Some? {
          var k :| 0 <= k < |options[1..]| && options[1..][k] == r.value
                   && forall j :: 0 <= j < k ==> options[1..][j].id != id;
          assert options[k + 1] == r.value;
          forall j | 0 <= j < k + 1 ensures options[j].id != id {
            if j > 0 {
              assert options[j] == options[1..][j - 1];
            }
          }
        }
      }
      r
  }

  /** `find(...)?.price || 0`: a missing option, or a price of 0, gives 0. */
  function SelectedShippingCost(selected: string): int
  {
    match FindOption(ShippingOptions, selected)
    case Some(option) => if option.price != 0 then option.price else 0
    case None => 0
  }

  /** The shipping cost of each selection, and 0 for an id that names no option. */
  lemma {:induction false} ShippingCostTable(selected: string)
    ensures SelectedShippingCost(selected)
         == if selected == "free" then 0
            else if selected == "express" then 15
            else if selected == "pickup" then -21
            else 0
  {
  }

  /** The order total: the cart's price total plus the selected shipping cost. */
  function OrderTotal(items: seq<Item>, selected: string): real
  {
    TotalPrice(items) + SelectedShippingCost(selected) as real
  }

  /** The displayed line subtotals, added up from the first line on. */
  function SumOfLineSubtotals(items: seq<Item>): real
    decreases |items|
  {
    if items == [] then 0.0 else LinePrice(items[0]) + SumOfLineSubtotals(items[1..])
  }

  /** The line subtotals shown on the page add up to the subtotal shown beneath them. */
  lemma {:induction false} LineSubtotalsAddUp(items: seq<Item>)
    ensures SumOfLineSubtotals(items) == TotalPrice(items)
    decreases |items|
  {
    if items != [] {
      LineSubtotalsAddUp(items[1..]);
      assert items == [items[0]] + items[1..];
      TotalsAppend([items[0]], items[1..]);
      TotalsSingle(items[0]);
    }
  }

  /** So the order total is the line subtotals plus shipping. */
  lemma {:induction false} OrderTotalFromLines(items: seq<Item>, selected: string)
    ensures OrderTotal(items, selected) == SumOfLineSubtotals(items) + SelectedShippingCost(selected) as real
    ensures selected !in ["free", "express", "pickup"] ==> OrderTotal(items, selected) == TotalPrice(items)
  {
    LineSubtotalsAddUp(items);
  }

  /** Nothing keeps the total from going below zero: pick-up on a cheap cart. */
  lemma {:induction false} PickupCanMakeTotalNegative(p: Catalog.Product)
    requires p.price == 5.0
    ensures OrderTotal([Item(p, 1)], "pickup") == -16.0
  {
    TotalsSingle(Item(p, 1));
  }

  // ---------------------------------------------------------------------
  // Buttons

  /** The minus button: disabled (no action) at quantity 1 or less, else one less. */
  function MinusButton(item: Item): Option<Action>
  {
    if item.quantity <= 1 then None else Some(UpdateQuantity(item.product.id, item.quantity - 1))
  }

  function PlusButton(item: Item): Action
  {
    UpdateQuantity(item.product.id, item.quantity + 1)
  }

  function RemoveButton(item: Item): Action
  {
    RemoveFromCart(item.product.id)
  }

  /**
   * The minus button never drives a line to 0: when enabled it lowers that
   * line by one and keeps it, otherwise it does nothing.
   */
  lemma {:induction false} MinusKeepsLine(s: seq<Item>, k: nat)
    requires ValidCart(s) && k < |s|
    ensures MinusButton(s[k]).None? <==> s[k].quantity == 1
    ensures MinusButton(s[k]).Some? ==>
              var r := Reduce(s, MinusButton(s[k]).value);
              && r == s[..k] + [Item(s[k].product, s[k].quantity - 1)] + s[k + 1..]
              && |r| == |s| && ValidCart(r)
  {
    if MinusButton(s[k]).Some? {
      UpdatePositiveReplaces(s, s[k].product.id, s[k].quantity - 1, k);
      ReducePreservesValid(s, MinusButton(s[k]).value);
    }
  }

  /** The plus button raises only that line by one, and the item count by one. */
  lemma {:induction false} PlusIncrements(s: seq<Item>, k: nat)
    requires ValidCart(s) && k < |s|
    ensures Reduce(s, PlusButton(s[k])) == s[..k] + [Item(s[k].product, s[k].quantity + 1)] + s[k + 1..]
    ensures TotalItems(Reduce(s, PlusButton(s[k]))) == TotalItems(s) + 1
    ensures ValidCart(Reduce(s, PlusButton(s[k])))
  {
    UpdatePositiveReplaces(s, s[k].product.id, s[k].quantity + 1, k);
    TotalsReplaceAt(s, k, Item(s[k].product, s[k].quantity + 1));
    ReducePreservesValid(s, PlusButton(s[k]));
  }

  /** The remove button deletes exactly the line it sits on. */
  lemma {:induction false} RemoveButtonDeletes(s: seq<Item>, k: nat)
    requires UniqueIds(s) && k < |s|
    ensures Reduce(s, RemoveButton(s[k])) == s[..k] + s[k + 1..]
  {
    RemovePresentDeletes(s, s[k].product.id, k);
  }

  /** The empty-cart view is shown when there are no lines. */
  predicate ShowsEmptyCart(items: seq<Item>)
  {
    |items| == 0
  }

  /** With positive quantities that is exactly when the item count is 0. */
  lemma {:induction false} EmptyViewWhenNoItems(items: seq<Item>)
    requires AllPositive(items)
    ensures ShowsEmptyCart(items) <==> TotalItems(items) == 0
  {
    TotalItemsAtLeastLines(items);
  }

  // ---------------------------------------------------------------------
  // Shipping price label

  /** "$0.00" for free, "+" and the amount for a surcharge, "-" and the absolute amount for a discount. */
  function ShippingPriceLabel(price: int): string
  {
    if price == 0 then "$0.00"
    else if price > 0 then "+" + ToFixed2(price)
    else "-" + ToFixed2(-price)
  }

  /** Reads a shipping price label back into the price it shows. */
  function ParseShippingLabel(text: string): Option<int>
  {
    if text == "$0.00" then Some(0)
    else if |text| >= 5 && (text[0] == '+' || text[0] == '-') && text[|text| - 3..] == ".00" then
      var amount := ParseNat(text[1..|text| - 3]);
      Some(if text[0] == '+' then amount else -amount)
    else None
  }

  /** The text shows the price exactly: it reads back to the same price. */
  lemma {:induction false} ShippingLabelRoundTrip(price: int)
    ensures ParseShippingLabel(ShippingPriceLabel(price)) == Some(price)
  {
    if price > 0 {
      assert ShippingPriceLabel(price) == ['+'] + ToFixed2(price);
      SignedLabelRoundTrip('+', price);
    } else if price < 0 {
      assert ShippingPriceLabel(price) == ['-'] + ToFixed2(-price);
      SignedLabelRoundTrip('-', -price);
    }
  }

  lemma {:induction false} SignedLabelRoundTrip(sign: char, n: nat)
    requires sign == '+' || sign == '-'
    ensures ParseShippingLabel([sign] + ToFixed2(n)) == Some(if sign == '+' then n as int else -(n as int))
  {
    var fixed := ToFixed2(n);
    var text := [sign] + fixed;
    assert text[0] == sign;
    assert text[|text| - 3..] == ".00";
    assert text[1..|text| - 3] == fixed[..|fixed| - 3];
  }

  /** The label's first character tells the sign of the price. */
  lemma {:induction false} ShippingLabelSign(price: int)
    ensures ShippingPriceLabel(price)[0] == '+' <==> price > 0
    ensures ShippingPriceLabel(price)[0] == '-' <==> price < 0
    ensures ShippingPriceLabel(price) == "$0.00" <==> price == 0
  {
  }

  /** The labels of the three options. */
  lemma {:induction false} ShippingOptionLabels()
    ensures ShippingPriceLabel(ShippingOptions[0].price) == "$0.00"
    ensures ShippingPriceLabel(ShippingOptions[1].price) == "+15.00"
    ensures ShippingPriceLabel(ShippingOptions[2].price) == "-21.00"
  {
    assert NatToString(1) == "1" && NatToString(2) == "2";
    assert NatToString(15) == NatToString(1) + "5";
    assert NatToString(21) == NatToString(2) + "1";
  }

}

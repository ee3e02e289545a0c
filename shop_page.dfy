/**
 * The shop page's product list: the catalog is copied, narrowed by an
 * optional category and an optional fixed price bucket, and the copy is then
 * sorted in place by one of four orders, or left in catalog order.
 */
module Shop {

  import opened Options
  import opened Catalog
  import opened Seqs

  // ---------------------------------------------------------------------
  // Category filter

  /** The category filter is active only for a non-empty selection other than "all". */
  predicate CategoryFilterApplies(category: string)
  {
    category != "" && category != "all"
  }

  function OfCategory(category: string): Product -> bool
  {
    (p: Product) => p.category == category
  }

  function ByCategory(products: seq<Product>, category: string): seq<Product>
  {
    if CategoryFilterApplies(category) then Filter(products, OfCategory(category)) else products
  }

  // ---------------------------------------------------------------------
  // Price-range filter

  /** The five fixed price buckets. */
  datatype PriceBucket = UpTo99 | From100To199 | From200To299 | From300To399 | From400

  /** The range strings the switch recognises; anything else has no case. */
  function BucketOf(range: string): Option<PriceBucket>
  {
    if range == "0-99" then Some(UpTo99)
    else if range == "100-199" then Some(From100To199)
    else if range == "200-299" then Some(From200To299)
    else if range == "300-399" then Some(From300To399)
    else if range == "400+" then Some(From400)
    else None
  }

  /** Inclusive bounds of each bucket. */
  predicate InBucket(b: PriceBucket, price: real)
  {
    match b
    case UpTo99 => 0.0 <= price <= 99.99
    case From100To199 => 100.0 <= price <= 199.99
    case From200To299 => 200.0 <= price <= 299.99
    case From300To399 => 300.0 <= price <= 399.99
    case From400 => price >= 400.0
  }

  function WithinBucket(b: PriceBucket): Product -> bool
  {
    (p: Product) => InBucket(b, p.price)
  }

  /** An empty or unrecognised range filters nothing: the switch has no default case. */
  function ByPriceRange(products: seq<Product>, range: string): seq<Product>
  {
    if range != "" then
      match BucketOf(range)
      case Some(b) => Filter(products, WithinBucket(b))
      case None => products
    else products
  }

  /** Both filters, category first. */
  function Narrowed(products: seq<Product>, category: string, range: string): seq<Product>
  {
    ByPriceRange(ByCategory(products, category), range)
  }

  /** Which prices a price-range selection lets through, range string by range string. */
  predicate RangeAdmits(range: string, price: real)
  {
    && (range == "0-99" ==> 0.0 <= price <= 99.99)
    && (range == "100-199" ==> 100.0 <= price <= 199.99)
    && (range == "200-299" ==> 200.0 <= price <= 299.99)
    && (range == "300-399" ==> 300.0 <= price <= 399.99)
    && (range == "400+" ==> price >= 400.0)
  }

  /**
   * A product is displayed exactly when it is in the catalog, has the selected
   * category (when that filter applies) and has a price the range admits.
   */
  lemma {:induction false} NarrowedMembers(products: seq<Product>, category: string, range: string, p: Product)
    ensures p in Narrowed(products, category, range)
        <==> p in products
             && (CategoryFilterApplies(category) ==> p.category == category)
             && RangeAdmits(range, p.price)
  {
  }

  /** The narrowed list keeps catalog order: it is a subsequence of `products`. */
  lemma {:induction false} NarrowedIsSubsequence(products: seq<Product>, category: string, range: string)
    ensures IsSubsequence(Narrowed(products, category, range), products)
  {
    var afterCategory := ByCategory(products, category);
    if CategoryFilterApplies(category) {
      FilterIsSubsequence(products, OfCategory(category));
    } else {
      SubsequenceReflexive(products);
    }
    var afterRange := ByPriceRange(afterCategory, range);
    if range != "" && BucketOf(range).Some? {
      FilterIsSubsequence(afterCategory, WithinBucket(BucketOf(range).value));
    } else {
      SubsequenceReflexive(afterCategory);
    }
    SubsequenceTransitive(afterRange, afterCategory, products);
  }

  /** With no category and no range selected, nothing is filtered out. */
  lemma {:induction false} NoSelectionKeepsAll(products: seq<Product>)
    ensures Narrowed(products, "", "") == products
  {
  }

  // ---------------------------------------------------------------------
  // Sort orders

  datatype SortOrder = PriceLow | PriceHigh | ByRating | ByName

  /** The sort keys the switch recognises; "featured" and anything else keep the order. */
  function SortOrderOf(sortBy: string): Option<SortOrder>
  {
    if sortBy == "price-low" then Some(PriceLow)
    else if sortBy == "price-high" then Some(PriceHigh)
    else if sortBy == "rating" then Some(ByRating)
    else if sortBy == "name" then Some(ByName)
    else None
  }

  /**
   * Title comparison: negative, zero or positive as `a` comes before, with or
   * after `b` in lexicographic order of character codes.
   */
  function LexCompare(a: string, b: string): int
    decreases |a|
  {
    if a == [] then (if b == [] then 0 else -1)
    else if b == [] then 1
    else if a[0] < b[0] then -1
    else if a[0] > b[0] then 1
    else LexCompare(a[1..], b[1..])
  }

  /** Lexicographic order: `a` is a prefix of `b`, or is smaller at the first difference. */
  predicate LexLe(a: string, b: string)
  {
    a <= b || exists k :: 0 <= k < |a| && k < |b| && a[..k] == b[..k] && a[k] < b[k]
  }

  lemma {:induction false} LexLeTail(a: string, b: string)
    requires a != [] && b != [] && a[0] == b[0]
    ensures LexLe(a, b) <==> LexLe(a[1..], b[1..])
  {
    if a <= b {
      assert a[1..] <= b[1..];
    }
    if a[1..] <= b[1..] {
      assert a == [a[0]] + a[1..] && b == [b[0]] + b[1..];
    }
    if exists k :: 0 <= k < |a| && k < |b| && a[..k] == b[..k] && a[k] < b[k] {
      var k :| 0 <= k < |a| && k < |b| && a[..k] == b[..k] && a[k] < b[k];
      assert k > 0;
      assert a[1..][..k - 1] == a[1..k] == b[1..k] == b[1..][..k - 1];
      assert a[1..][k - 1] < b[1..][k - 1];
    }
    if exists k :: 0 <= k < |a[1..]| && k < |b[1..]| && a[1..][..k] == b[1..][..k] && a[1..][k] < b[1..][k] {
      var k :| 0 <= k < |a[1..]| && k < |b[1..]| && a[1..][..k] == b[1..][..k] && a[1..][k] < b[1..][k];
      assert a[..k + 1] == [a[0]] + a[1..][..k];
      assert b[..k + 1] == [b[0]] + b[1..][..k];
      assert a[k + 1] < b[k + 1];
    }
  }

  /** The comparator agrees with the lexicographic order. */
  lemma {:induction false} LexCompareMeaning(a: string, b: string)
    ensures LexCompare(a, b) <= 0 <==> LexLe(a, b)
    decreases |a|
  {
    if a == [] {
      assert a <= b;
    } else if b == [] {
      assert !(a <= b);
    } else if a[0] < b[0] {
      assert a[..0] == b[..0];
    } else if a[0] > b[0] {
      assert !(a <= b);
      forall k | 0 < k <= |a| && k <= |b| ensures a[..k] != b[..k] {
        assert a[..k][0] != b[..k][0];
      }
    } else {
      LexLeTail(a, b);
      LexCompareMeaning(a[1..], b[1..]);
    }
  }

  /** Swapping the arguments negates the comparison. */
  lemma {:induction false} LexCompareAntisymmetric(a: string, b: string)
    ensures LexCompare(b, a) == -LexCompare(a, b)
    decreases |a|
  {
    if a != [] && b != [] && a[0] == b[0] {
      LexCompareAntisymmetric(a[1..], b[1..]);
    }
  }

  lemma {:induction false} LexCompareTransitive(a: string, b: string, c: string)
    requires LexCompare(a, b) <= 0 && LexCompare(b, c) <= 0
    ensures LexCompare(a, c) <= 0
    decreases |a|
  {
    if a != [] && b != [] && c != [] && a[0] == b[0] && b[0] == c[0] {
      LexCompareTransitive(a[1..], b[1..], c[1..]);
    }
  }

  /** The comparator handed to `sort` for each order (`a.price - b.price`, ...). */
  function Compare(order: SortOrder, a: Product, b: Product): real
  {
    match order
    case PriceLow => a.price - b.price
    case PriceHigh => b.price - a.price
    case ByRating => b.rating.rate - a.rating.rate
    case ByName => LexCompare(a.title, b.title) as real
  }

  /** What each order promises of two products that end up in this relative position. */
  predicate InOrder(order: SortOrder, a: Product, b: Product)
  {
    match order
    case PriceLow => a.price <= b.price
    case PriceHigh => a.price >= b.price
    case ByRating => a.rating.rate >= b.rating.rate
    case ByName => LexLe(a.title, b.title)
  }

  /** Sorted by the order: every earlier product may precede every later one. */
  predicate Ordered(order: SortOrder, s: seq<Product>)
  {
    forall i, j :: 0 <= i < j < |s| ==> InOrder(order, s[i], s[j])
  }

  /** A comparator result of at most 0 means the pair is already in order. */
  lemma {:induction false} CompareAgrees(order: SortOrder, a: Product, b: Product)
    ensures Compare(order, a, b) <= 0.0 <==> InOrder(order, a, b)
  {
    if order == ByName {
      LexCompareMeaning(a.title, b.title);
    }
  }

  /** A positive comparator result means the reversed pair is in order. */
  lemma {:induction false} CompareFlip(order: SortOrder, a: Product, b: Product)
    requires Compare(order, a, b) > 0.0
    ensures InOrder(order, b, a)
  {
    if order == ByName {
      LexCompareAntisymmetric(a.title, b.title);
      LexCompareMeaning(b.title, a.title);
    }
  }

  lemma {:induction false} InOrderTransitive(order: SortOrder, a: Product, b: Product, c: Product)
    requires InOrder(order, a, b) && InOrder(order, b, c)
    ensures InOrder(order, a, c)
  {
    if order == ByName {
      LexCompareMeaning(a.title, b.title);
      LexCompareMeaning(b.title, c.title);
      LexCompareMeaning(a.title, c.title);
      LexCompareTransitive(a.title, b.title, c.title);
    }
  }

  lemma {:induction false} ChainInOrder(order: SortOrder, s: seq<Product>, i: nat, j: nat)
    requires forall k :: 0 < k < |s| ==> InOrder(order, s[k - 1], s[k])
    requires i < j < |s|
    ensures InOrder(order, s[i], s[j])
    decreases j - i
  {
    if j > i + 1 {
      ChainInOrder(order, s, i, j - 1);
      InOrderTransitive(order, s[i], s[j - 1], s[j]);
    }
  }

  /** Order between neighbours extends to order between all pairs. */
  lemma {:induction false} AdjacentToOrdered(order: SortOrder, s: seq<Product>)
    requires forall k :: 0 < k < |s| ==> InOrder(order, s[k - 1], s[k])
    ensures Ordered(order, s)
  {
    forall i, j | 0 <= i < j < |s| ensures InOrder(order, s[i], s[j]) {
      ChainInOrder(order, s, i, j);
    }
  }

  /** The first `n` products are in order, neighbour by neighbour. */
  predicate SortedUpTo(order: SortOrder, s: seq<Product>, n: nat)
    requires n <= |s|
  {
    forall k :: 0 < k < n ==> InOrder(order, s[k - 1], s[k])
  }

  /**
   * While the product at `j` moves left: the first `i + 1` products are in
   * order around the gap at `j`, and its two neighbours are in order.
   */
  predicate SortedExceptAt(order: SortOrder, s: seq<Product>, i: nat, j: nat)
    requires j <= i < |s|
  {
    && (forall k :: 0 < k <= i && k != j ==> InOrder(order, s[k - 1], s[k]))
    && (0 < j < i ==> InOrder(order, s[j - 1], s[j + 1]))
  }

  /** The sequence with the products at `j - 1` and `j` exchanged. */
  function Swapped(s: seq<Product>, j: nat): (r: seq<Product>)
    requires 0 < j < |s|
    ensures |r| == |s| && multiset(r) == multiset(s)
  {
    var r := s[j - 1 := s[j]][j := s[j - 1]];
    assert s == s[..j - 1] + [s[j - 1], s[j]] + s[j + 1..];
    assert r == s[..j - 1] + [s[j], s[j - 1]] + s[j + 1..];
    r
  }

  lemma {:induction false} InsertStart(order: SortOrder, s: seq<Product>, i: nat)
    requires i < |s| && SortedUpTo(order, s, i)
    ensures SortedExceptAt(order, s, i, i)
  {
  }

  /** Moving the product at `j` past a greater left neighbour keeps the shape. */
  lemma {:induction false} SwapStep(order: SortOrder, s: seq<Product>, i: nat, j: nat)
    requires 0 < j <= i < |s| && SortedExceptAt(order, s, i, j)
    requires InOrder(order, s[j], s[j - 1])
    ensures SortedExceptAt(order, Swapped(s, j), i, j - 1)
  {
    var t := Swapped(s, j);
    forall k | 0 < k <= i && k != j - 1 ensures InOrder(order, t[k - 1], t[k]) {
      if k == j + 1 {
        assert t[k - 1] == s[j - 1] && t[k] == s[j + 1];
      } else if k == j {
        assert t[k - 1] == s[j] && t[k] == s[j - 1];
      } else {
        assert t[k - 1] == s[k - 1] && t[k] == s[k];
      }
    }
    if 0 < j - 1 {
      assert t[j - 2] == s[j - 2] && t[j] == s[j - 1];
    }
  }

  /** Once the moving product has no greater left neighbour, one more is in order. */
  lemma {:induction false} InsertDone(order: SortOrder, s: seq<Product>, i: nat, j: nat)
    requires j <= i < |s| && SortedExceptAt(order, s, i, j)
    requires j > 0 ==> InOrder(order, s[j - 1], s[j])
    ensures SortedUpTo(order, s, i + 1)
  {
  }

  /**
   * `a.sort(compare)`: a stable in-place sort, written as insertion by
   * adjacent swaps that move a product left only past a strictly greater one.
   */
  method SortInPlace(a: array<Product>, order: SortOrder)
    modifies a
    ensures multiset(a[..]) == multiset(old(a[..]))
    ensures Ordered(order, a[..])
  {
    var i := 0;
    while i < a.Length
      invariant 0 <= i <= a.Length
      invariant SortedUpTo(order, a[..], i)
      invariant multiset(a[..]) == multiset(old(a[..]))
    {
      InsertStart(order, a[..], i);
      var j := i;
      while j > 0 && Compare(order, a[j - 1], a[j]) > 0.0
        invariant 0 <= j <= i
        invariant SortedExceptAt(order, a[..], i, j)
        invariant multiset(a[..]) == multiset(old(a[..]))
      {
        CompareFlip(order, a[j - 1], a[j]);
        SwapStep(order, a[..], i, j);
        ghost var next := Swapped(a[..], j);
        a[j - 1], a[j] := a[j], a[j - 1];
        assert a[..] == next;
        j := j - 1;
      }
      if j > 0 {
        CompareAgrees(order, a[j - 1], a[j]);
      }
      InsertDone(order, a[..], i, j);
      i := i + 1;
    }
    AdjacentToOrdered(order, a[..]);
  }

  /**
   * The filter-and-sort effect. The catalog is a value, so it cannot be
   * changed; the list is narrowed, copied into a fresh array and sorted there.
   */
  method FilterAndSort(products: seq<Product>, category: string, priceRange: string, sortBy: string)
    returns (shown: seq<Product>)
    ensures multiset(shown) == multiset(Narrowed(products, category, priceRange))
    ensures SortOrderOf(sortBy).None? ==> shown == Narrowed(products, category, priceRange)
    ensures SortOrderOf(sortBy).Some? ==> Ordered(SortOrderOf(sortBy).value, shown)
  {
    var filtered := products;
    if CategoryFilterApplies(category) {
      filtered := Filter(filtered, OfCategory(category));
    }
    if priceRange != "" {
      match BucketOf(priceRange) {
        case Some(b) =>
          filtered := Filter(filtered, WithinBucket(b));
        case None =>
      }
    }
    assert filtered == Narrowed(products, category, priceRange);
    var copy := new Product[|filtered|](i requires 0 <= i < |filtered| => filtered[i]);
    assert copy[..] == filtered;
    match SortOrderOf(sortBy) {
      case Some(order) =>
        SortInPlace(copy, order);
      case None =>
    }
    shown := copy[..];
  }

  /** Category "electronics" with range "100-199" keeps exactly the electronics priced 100 to 199.99. */
  lemma {:induction false} ElectronicsInSecondBucket(products: seq<Product>, p: Product)
    ensures p in Narrowed(products, "electronics", "100-199")
        <==> p in products && p.category == "electronics" && 100.0 <= p.price <= 199.99
  {
    NarrowedMembers(products, "electronics", "100-199", p);
  }

  /** "price-high" on products priced 10, 50 and 30 can only give the order 50, 30, 10. */
  lemma {:induction false} PriceHighExample(x: Product, y: Product, z: Product, s: seq<Product>)
    requires x.price == 10.0 && y.price == 50.0 && z.price == 30.0
    requires multiset(s) == multiset([x, y, z]) && Ordered(PriceHigh, s)
    ensures s == [y, z, x]
  {
    assert |s| == |multiset(s)| == 3;
    assert x in multiset(s) && y in multiset(s) && z in multiset(s);
    assert x in s && y in s && z in s;
    assert s[0] in multiset([x, y, z]) && s[1] in multiset([x, y, z]) && s[2] in multiset([x, y, z]);
    assert InOrder(PriceHigh, s[0], s[1]) && InOrder(PriceHigh, s[1], s[2]);
  }

  // ---------------------------------------------------------------------
  // Filter controls

  /** The page's filter selection. */
  datatype FilterState = FilterState(category: string, priceRange: string, sortBy: string)

  /** The values behind the price checkboxes, "All Price" first. */
  const PriceRangeValues: seq<string> := ["", "0-99", "100-199", "200-299", "300-399", "400+"]

  /** A checkbox is shown ticked when its value is the selected range. */
  predicate IsTicked(f: FilterState, value: string)
  {
    f.priceRange == value
  }

  /** Ticking a price checkbox selects its value; unticking one resets the range to "". */
  function OnPriceCheckbox(f: FilterState, value: string, checked: bool): FilterState
  {
    f.(priceRange := if checked then value else "")
  }

  /** "Clear all filters". */
  function ClearAllFilters(f: FilterState): FilterState
  {
    FilterState("", "", "featured")
  }

  /** Every checkbox other than "All Price" stands for one bucket. */
  lemma {:induction false} CheckboxesAreBuckets()
    ensures forall w :: w in PriceRangeValues && w != "" ==> BucketOf(w).Some?
    ensures BucketOf("").None?
  {
  }

  /**
   * After a checkbox click exactly one box is ticked: the clicked one if it
   * was ticked, otherwise "All Price". Category and sort are untouched.
   */
  lemma {:induction false} PriceCheckboxTicksOne(f: FilterState, value: string, checked: bool)
    requires value in PriceRangeValues
    ensures forall w :: w in PriceRangeValues ==>
              (IsTicked(OnPriceCheckbox(f, value, checked), w) <==> w == (if checked then value else ""))
    ensures OnPriceCheckbox(f, value, checked).category == f.category
    ensures OnPriceCheckbox(f, value, checked).sortBy == f.sortBy
  {
  }

  /** After "Clear all filters" the list shown is the catalog itself, in catalog order. */
  lemma {:induction false} ClearedFiltersShowCatalog(f: FilterState, products: seq<Product>)
    ensures var g := ClearAllFilters(f);
            Narrowed(products, g.category, g.priceRange) == products && SortOrderOf(g.sortBy).None?
  {
  }

}

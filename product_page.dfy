/**
 * The product list page: the client-side filter over the fetched products
 * (price range, tags, availability), the sort options, the tag cloud, the
 * checkbox toggles and the reset of the filters. Prices are in cents and
 * ratings in tenths of a star.
 */
module ProductPage {
  import opened Wrappers
  import opened Schema
  import Seqs

  const InStock: string := "in-stock"
  const OutOfStock: string := "out-of-stock"
  /** The slider's bounds, $0 to $2000, in cents. */
  const PriceFloor: int := 0
  const PriceCeiling: int := 200000
  const DefaultSort: string := "popularity"

  datatype FilterState = FilterState(
    searchTerm: string,
    priceLow: int, priceHigh: int,
    selectedTags: seq<string>,
    availability: seq<string>,
    sortOption: string)

  /** The page's initial state, with the search term taken from the URL. */
  function InitialFilters(searchTerm: string): (s: FilterState)
    ensures s.priceLow == PriceFloor && s.priceHigh == PriceCeiling
    ensures s.selectedTags == [] && s.availability == [] && s.sortOption == DefaultSort
    ensures s.searchTerm == searchTerm
  {
    FilterState(searchTerm, PriceFloor, PriceCeiling, [], [], DefaultSort)
  }

  predicate WithinPriceRange(p: Product, s: FilterState) {
    s.priceLow <= p.price <= s.priceHigh
  }

  /** No selected tag passes everything; otherwise the product must carry one of them. */
  predicate MatchesTags(p: Product, selected: seq<string>) {
    selected == [] || (p.tags.Some? && exists t :: t in selected && t in p.tags.value)
  }

  predicate IsInStock(p: Product) {
    p.stock > 0
  }

  predicate MatchesAvailability(p: Product, availability: seq<string>) {
    availability == []
    || (InStock in availability && IsInStock(p))
    || (OutOfStock in availability && !IsInStock(p))
  }

  predicate Passes(p: Product, s: FilterState) {
    WithinPriceRange(p, s) && MatchesTags(p, s.selectedTags) && MatchesAvailability(p, s.availability)
  }

  lemma AvailabilityCases(p: Product, availability: seq<string>)
    ensures InStock in availability && OutOfStock in availability ==> MatchesAvailability(p, availability)
    ensures availability == [InStock] ==> (MatchesAvailability(p, availability) <==> p.stock > 0)
    ensures availability == [OutOfStock] ==> (MatchesAvailability(p, availability) <==> p.stock <= 0)
  {
  }

  function PriceKey(p: Product): int { p.price }
  function NegatedPrice(p: Product): int { -p.price }
  function NegatedRating(p: Product): int { -p.rating }
  function NegatedReviews(p: Product): int { -p.reviewCount }

  /**
   * The comparator of the sort option, as a stable sort by a key; "newest"
   * keeps the filtered order (its comparator is not a consistent ordering).
   */
  function SortProducts(ps: seq<Product>, option: string): (r: seq<Product>)
    ensures multiset(r) == multiset(ps)
    ensures option == "price-low-high" ==> forall i, j :: 0 <= i < j < |r| ==> r[i].price <= r[j].price
    ensures option == "price-high-low" ==> forall i, j :: 0 <= i < j < |r| ==> r[i].price >= r[j].price
    ensures option == "rating" ==> forall i, j :: 0 <= i < j < |r| ==> r[i].rating >= r[j].rating
    ensures option !in {"price-low-high", "price-high-low", "newest", "rating"} ==>
              forall i, j :: 0 <= i < j < |r| ==> r[i].reviewCount >= r[j].reviewCount
  {
    var r := match option
      case "price-low-high" => Seqs.SortByKey(ps, PriceKey)
      case "price-high-low" => Seqs.SortByKey(ps, NegatedPrice)
      case "newest" => ps
      case "rating" => Seqs.SortByKey(ps, NegatedRating)
      case _ => Seqs.SortByKey(ps, NegatedReviews);
    assert option == "price-low-high" ==> Seqs.SortedBy(r, PriceKey);
    assert option == "price-high-low" ==> Seqs.SortedBy(r, NegatedPrice);
    assert option == "rating" ==> Seqs.SortedBy(r, NegatedRating);
    assert option !in {"price-low-high", "price-high-low", "newest", "rating"} ==> Seqs.SortedBy(r, NegatedReviews);
    r
  }

  /** `filteredProducts`: the products passing every filter, in the chosen order. */
  function FilteredProducts(products: seq<Product>, s: FilterState): (r: seq<Product>)
    ensures multiset(r) <= multiset(products)
    ensures forall p :: p in r ==> Passes(p, s)
    ensures forall p :: p in r ==> s.priceLow <= p.price <= s.priceHigh
    ensures forall p :: p in products && Passes(p, s) ==> p in r
    ensures s.sortOption == "price-low-high" ==> forall i, j :: 0 <= i < j < |r| ==> r[i].price <= r[j].price
    ensures s.sortOption == "price-high-low" ==> forall i, j :: 0 <= i < j < |r| ==> r[i].price >= r[j].price
  {
    var kept := Seqs.Filter(products, (p: Product) => Passes(p, s));
    var r := SortProducts(kept, s.sortOption);
    Seqs.SameElements(r, kept);
    r
  }

  /** Every tag of every product, in product order, duplicates included. */
  function FlatTags(products: seq<Product>): (r: seq<string>)
    ensures forall t :: t in r ==> exists i :: 0 <= i < |products| && products[i].tags.Some? && t in products[i].tags.value
    ensures forall i, t :: 0 <= i < |products| && products[i].tags.Some? && t in products[i].tags.value ==> t in r
  {
    if products == [] then []
    else
      var last := products[|products| - 1];
      var init := products[..|products| - 1];
      var r := FlatTags(init) + last.tags.GetOr([]);
      assert forall i :: 0 <= i < |init| ==> init[i] == products[i];
      r
  }

  /** `allTags`: the distinct non-empty tags of the fetched products. */
  function AllTags(products: seq<Product>): (r: seq<string>)
    ensures Seqs.NoDuplicates(r)
    ensures forall t :: t in r ==> t != "" && exists i :: 0 <= i < |products| && products[i].tags.Some? && t in products[i].tags.value
    ensures forall i, t :: 0 <= i < |products| && products[i].tags.Some? && t in products[i].tags.value && t != "" ==> t in r
  {
    var flat := FlatTags(products);
    var named := Seqs.Filter(flat, (t: string) => t != "");
    assert forall t :: t in named ==> t in flat && t != "" by {
      forall t | t in named ensures t in flat {
        assert t in multiset(named);
      }
    }
    Seqs.Distinct(named)
  }

  /** `prev.filter(t => t !== x)`. */
  function Without(prev: seq<string>, x: string): (r: seq<string>)
    ensures x !in r
    ensures forall y :: y in r ==> y in prev
    ensures forall y :: y in prev && y != x ==> y in r
    ensures multiset(r) <= multiset(prev)
  {
    var r := Seqs.Filter(prev, (t: string) => t != x);
    assert forall y :: y in r ==> y in prev by {
      forall y | y in r ensures y in prev {
        assert y in multiset(r);
      }
    }
    r
  }

  /**
   * Removal works part by part and keeps the order of what remains: the
   * kept tags of `a + b` are those of `a`, then those of `b`.
   */
  lemma WithoutAppend(a: seq<string>, b: seq<string>, x: string)
    ensures Without(a + b, x) == Without(a, x) + Without(b, x)
  {
    Seqs.FilterAppend(a, b, (t: string) => t != x);
  }

  /** A single tag is dropped exactly when it is `x`. */
  lemma WithoutSingle(y: string, x: string)
    ensures Without([y], x) == if y == x then [] else [y]
  {
    assert [y][1..] == [];
  }

  lemma {:induction false} WithoutAbsent(prev: seq<string>, x: string)
    requires x !in prev
    ensures Without(prev, x) == prev
    decreases |prev|
  {
    if prev != [] {
      WithoutAbsent(prev[1..], x);
      assert prev == [prev[0]] + prev[1..];
    }
  }

  lemma {:induction false} WithoutNoDuplicates(prev: seq<string>, x: string)
    requires Seqs.NoDuplicates(prev)
    ensures Seqs.NoDuplicates(Without(prev, x))
    decreases |prev|
  {
    if prev != [] {
      WithoutNoDuplicates(prev[1..], x);
      var rest := Without(prev[1..], x);
      assert prev[0] !in prev[1..];
      assert prev[0] !in rest;
      var r := (if prev[0] == x then [] else [prev[0]]) + rest;
      assert forall i :: 1 <= i < |prev| ==> prev[i] == prev[1..][i - 1];
      forall i, j | 0 <= i < j < |r| ensures r[i] != r[j] {
        if prev[0] != x && i == 0 {
          assert r[j] == rest[j - 1];
        }
      }
    }
  }

  /** `handleTagToggle` and `handleAvailabilityToggle`: remove if present, else append. */
  function Toggle(prev: seq<string>, x: string): (r: seq<string>)
    ensures x in r <==> x !in prev
    ensures forall y :: y != x ==> (y in r <==> y in prev)
    ensures x !in prev ==> r == prev + [x]
    ensures x in prev ==> r == Without(prev, x)
  {
    if x in prev then Without(prev, x) else prev + [x]
  }

  lemma ToggleKeepsNoDuplicates(prev: seq<string>, x: string)
    requires Seqs.NoDuplicates(prev)
    ensures Seqs.NoDuplicates(Toggle(prev, x))
  {
    if x in prev {
      WithoutNoDuplicates(prev, x);
    }
  }

  /**
   * Toggling twice: an absent tag leaves the list exactly as it was; a
   * present one ends up moved to the end, after the other tags in their
   * order, with the list still free of duplicates and holding the same tags.
   */
  lemma ToggleTwice(prev: seq<string>, x: string)
    ensures x !in prev ==> Toggle(Toggle(prev, x), x) == prev
    ensures x in prev ==> Toggle(Toggle(prev, x), x) == Without(prev, x) + [x]
    ensures forall y :: y in Toggle(Toggle(prev, x), x) <==> y in prev
    ensures Seqs.NoDuplicates(prev) ==> Seqs.NoDuplicates(Toggle(Toggle(prev, x), x))
  {
    if x !in prev {
      assert x in prev + [x];
      WithoutAbsent(prev, x);
      WithoutShrinks(prev, x);
    }
    if Seqs.NoDuplicates(prev) {
      ToggleKeepsNoDuplicates(prev, x);
      ToggleKeepsNoDuplicates(Toggle(prev, x), x);
    }
  }

  /** Removing `x` from `prev + [x]` gives `Without(prev, x)`. */
  lemma WithoutShrinks(prev: seq<string>, x: string)
    ensures Without(prev + [x], x) == Without(prev, x)
  {
    WithoutAppend(prev, [x], x);
    WithoutSingle(x, x);
    assert Without(prev, x) + [] == Without(prev, x);
  }

  /** `clearFilters`: resets everything but the search term. */
  function ClearFilters(s: FilterState): (r: FilterState)
    ensures r == InitialFilters(s.searchTerm)
  {
    s.(priceLow := PriceFloor, priceHigh := PriceCeiling, selectedTags := [], availability := [], sortOption := DefaultSort)
  }

  /**
   * After a reset exactly the products priced within $0 to $2000 pass, ordered
   * by review count, most reviewed first.
   */
  lemma ClearedFilterAdmits(products: seq<Product>, s: FilterState)
    ensures forall p :: p in FilteredProducts(products, ClearFilters(s)) ==> PriceFloor <= p.price <= PriceCeiling
    ensures forall p :: p in products && PriceFloor <= p.price <= PriceCeiling ==> p in FilteredProducts(products, ClearFilters(s))
    ensures var r := FilteredProducts(products, ClearFilters(s));
            forall i, j :: 0 <= i < j < |r| ==> r[i].reviewCount >= r[j].reviewCount
  {
    var c := ClearFilters(s);
    var kept := Seqs.Filter(products, (p: Product) => Passes(p, c));
    assert FilteredProducts(products, c) == SortProducts(kept, DefaultSort);
  }
}

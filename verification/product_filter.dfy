/** The product listing's filter: a search term matched case-insensitively
    against name or description, an optional category, and an inclusive
    price range; plus the category checkbox toggle and "clear filters". */
module ProductFilter {
  import opened Wrappers
  import Seqs
  import opened Text
  import opened Catalog

  /** The filter state of the listing page. */
  datatype Criteria = Criteria(searchTerm: string, category: Option<string>, minPrice: real, maxPrice: real)

  /** The state the page opens with, which "clear filters" also restores. */
  const InitialCriteria: Criteria := Criteria("", None, 0.0, 1500.0)

  /** The lowercased term occurs in the lowercased name or description. */
  predicate MatchesSearch(term: string, p: Product)
  {
    Includes(Lower(p.name), Lower(term)) || Includes(Lower(p.description), Lower(term))
  }

  /** No category is selected (null or "", both falsy), or the product is in it. */
  predicate MatchesCategory(selected: Option<string>, p: Product)
  {
    !Truthy(selected) || p.category == selected.value
  }

  /** The price lies in the inclusive range. */
  predicate MatchesPrice(c: Criteria, p: Product)
  {
    c.minPrice <= p.price <= c.maxPrice
  }

  predicate Matches(c: Criteria, p: Product)
  {
    MatchesSearch(c.searchTerm, p) && MatchesCategory(c.category, p) && MatchesPrice(c, p)
  }

  /** `filteredProducts`: the catalog products that match, in catalog order. */
  function FilterProducts(catalog: seq<Product>, c: Criteria): (r: seq<Product>)
    ensures Seqs.IsSubsequence(r, catalog)
    ensures forall i :: 0 <= i < |r| ==> Matches(c, r[i])
    ensures forall i :: 0 <= i < |catalog| && Matches(c, catalog[i]) ==> catalog[i] in r
    ensures forall p :: multiset(r)[p] == if Matches(c, p) then multiset(catalog)[p] else 0
  {
    var keep := (p: Product) => Matches(c, p);
    Seqs.FilterMembers(catalog, keep);
    forall p { Seqs.FilterMultiset(catalog, keep, p); }
    Seqs.FilterIsSubsequence(catalog, keep);
    Seqs.Filter(catalog, keep)
  }

  /** A product passes the search exactly when the lowered term occurs at some
      position of its lowered name or of its lowered description. */
  lemma MatchesSearchIffOccurs(term: string, p: Product)
    ensures MatchesSearch(term, p) <==>
              (exists i :: OccursAt(Lower(p.name), Lower(term), i)) ||
              (exists i :: OccursAt(Lower(p.description), Lower(term), i))
  {
    IncludesIffOccurs(Lower(p.name), Lower(term));
    IncludesIffOccurs(Lower(p.description), Lower(term));
  }

  /** Filtering the filtered list again with the same criteria changes nothing. */
  lemma FilterIdempotent(catalog: seq<Product>, c: Criteria)
    ensures FilterProducts(FilterProducts(catalog, c), c) == FilterProducts(catalog, c)
  {
    Seqs.FilterIdempotent(catalog, (p: Product) => Matches(c, p));
  }

  /** With an empty term and no category, only the price range restricts. */
  lemma {:induction false} EmptyTermNoCategoryIsPriceFilter(catalog: seq<Product>, lo: real, hi: real)
    ensures FilterProducts(catalog, Criteria("", None, lo, hi)) ==
            Seqs.Filter(catalog, (p: Product) => lo <= p.price <= hi)
  {
    var c := Criteria("", None, lo, hi);
    forall i | 0 <= i < |catalog|
      ensures Matches(c, catalog[i]) <==> lo <= catalog[i].price <= hi
    {
      IncludesEmpty(Lower(catalog[i].name));
    }
    Seqs.FilterCongruent(catalog, (p: Product) => Matches(c, p), (p: Product) => lo <= p.price <= hi);
  }

  /** The category checkbox: clicking the selected category clears the
      selection, clicking any other selects it. */
  function ToggleCategory(selected: Option<string>, clicked: string): (r: Option<string>)
    ensures selected == Some(clicked) <==> r.None?
    ensures r.Some? ==> r.value == clicked
  {
    if selected == Some(clicked) then None else Some(clicked)
  }

  /** "Clear filters": term, category and range back to the opening state. */
  function ClearFilters(c: Criteria): (r: Criteria)
    ensures r.searchTerm == "" && r.category.None?
    ensures r.minPrice == 0.0 && r.maxPrice == 1500.0
    ensures r == InitialCriteria
  {
    Criteria("", None, 0.0, 1500.0)
  }

  /** Searching "laptop" with no category over [0, 1500] keeps the laptop. */
  lemma LaptopSearchFindsLaptop()
    ensures Products[0] in FilterProducts(Products, Criteria("laptop", None, 0.0, 1500.0))
  {
    var c := Criteria("laptop", None, 0.0, 1500.0);
    var name := Products[0].name;
    assert name == "Modern Laptop Pro";
    assert name[7] == 'L' && name[8] == 'a' && name[9] == 'p';
    assert name[10] == 't' && name[11] == 'o' && name[12] == 'p';
    var w := Lower(name)[7..13];
    assert w[0] == 'l' && w[1] == 'a' && w[2] == 'p' && w[3] == 't' && w[4] == 'o' && w[5] == 'p';
    var t := Lower(c.searchTerm);
    assert t[0] == 'l' && t[1] == 'a' && t[2] == 'p' && t[3] == 't' && t[4] == 'o' && t[5] == 'p';
    assert OccursAt(Lower(name), t, 7);
    IncludesIffOccurs(Lower(name), t);
  }
}

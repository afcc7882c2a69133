/**
 The product catalogue's client-side filtering: a free-text search over name,
 artisan and village, a verification-status filter, and a technique filter,
 plus the list of distinct techniques offered in the technique selector.
 */
module Catalog {
  import Registry
  import opened Text
  import opened Seqs

  type Product = Registry.Product

  /** The three options of the verification-status selector. */
  datatype VerifiedFilter = All | VerifiedOnly | UnverifiedOnly

  /** The technique selector's "every technique" value. */
  const AnyTechnique := "all"

  predicate MatchesSearch(p: Product, term: string)
  {
    var t := ToLower(term);
    || Contains(ToLower(p.productName), t)
    || Contains(ToLower(p.artisanName), t)
    || Contains(ToLower(p.village), t)
  }

  predicate MatchesVerified(p: Product, f: VerifiedFilter)
  {
    || f == All
    || (f == VerifiedOnly && p.isVerified)
    || (f == UnverifiedOnly && !p.isVerified)
  }

  predicate MatchesTechnique(p: Product, technique: string)
  {
    technique == AnyTechnique || Contains(ToLower(p.technique), ToLower(technique))
  }

  /** The predicate of `filteredProducts`: all three filters agree. */
  predicate Keep(p: Product, term: string, f: VerifiedFilter, technique: string)
  {
    MatchesSearch(p, term) && MatchesVerified(p, f) && MatchesTechnique(p, technique)
  }

  /** `filteredProducts`: the products the three filters keep, in their
      original order. */
  function FilterProducts(products: seq<Product>, term: string, f: VerifiedFilter, technique: string): (r: seq<Product>)
    ensures |r| <= |products|
    ensures IsSubsequence(r, products)
    ensures forall p :: p in r <==> p in products && Keep(p, term, f, technique)
    decreases |products|
  {
    if products == [] then []
    else
      var rest := FilterProducts(products[1..], term, f, technique);
      if Keep(products[0], term, f, technique) then
        assert ([products[0]] + rest)[1..] == rest;
        [products[0]] + rest
      else rest
  }

  /** The filter keeps duplicates as often as the catalogue lists them: a
      kept product appears as many times as in the input, any other not at
      all. */
  lemma {:induction false} FilterProductsCounts(products: seq<Product>, term: string, f: VerifiedFilter, technique: string)
    ensures forall q :: multiset(FilterProducts(products, term, f, technique))[q]
                        == if Keep(q, term, f, technique) then multiset(products)[q] else 0
    decreases |products|
  {
    if products != [] {
      FilterProductsCounts(products[1..], term, f, technique);
      assert products == [products[0]] + products[1..];
      assert multiset(products) == multiset([products[0]]) + multiset(products[1..]);
    }
  }

  /** An empty search term, "all" statuses and "all" techniques keep the
      whole catalogue. */
  lemma {:induction false} NoFilterKeepsAll(products: seq<Product>)
    ensures FilterProducts(products, "", All, AnyTechnique) == products
    decreases |products|
  {
    if products != [] {
      var p := products[0];
      ContainsEmpty(ToLower(p.productName));
      assert ToLower("") == "";
      NoFilterKeepsAll(products[1..]);
    }
  }

  /** The status filter alone partitions the catalogue: "verified" keeps
      exactly the verified products and "unverified" exactly the others. */
  lemma StatusFilterExact(products: seq<Product>, p: Product)
    ensures p in FilterProducts(products, "", VerifiedOnly, AnyTechnique) <==> p in products && p.isVerified
    ensures p in FilterProducts(products, "", UnverifiedOnly, AnyTechnique) <==> p in products && !p.isVerified
  {
    ContainsEmpty(ToLower(p.productName));
    assert ToLower("") == "";
  }

  /** The header "Menampilkan n dari m produk": n never exceeds m, and the two
      counts agree exactly when every product passes the filters. */
  lemma {:induction false} ShownAtMostTotal(products: seq<Product>, term: string, f: VerifiedFilter, technique: string)
    ensures |FilterProducts(products, term, f, technique)| <= |products|
    ensures |FilterProducts(products, term, f, technique)| == |products| <==>
            forall i :: 0 <= i < |products| ==> Keep(products[i], term, f, technique)
    decreases |products|
  {
    if products != [] {
      ShownAtMostTotal(products[1..], term, f, technique);
      if forall i :: 0 <= i < |products[1..]| ==> Keep(products[1..][i], term, f, technique) {
        if Keep(products[0], term, f, technique) {
          forall i | 0 <= i < |products|
            ensures Keep(products[i], term, f, technique)
          {
            if i > 0 { assert products[i] == products[1..][i - 1]; }
          }
        }
      } else {
        var j :| 0 <= j < |products[1..]| && !Keep(products[1..][j], term, f, technique);
        assert !Keep(products[j + 1], term, f, technique);
      }
    }
  }

  // ----- distinct techniques -----

  /** The techniques of `products`, in order. */
  function Techniques(products: seq<Product>): (r: seq<string>)
    ensures |r| == |products|
    ensures forall i :: 0 <= i < |products| ==> r[i] == products[i].technique
  {
    seq(|products|, i requires 0 <= i < |products| => products[i].technique)
  }

  predicate NoDuplicates<T(==)>(xs: seq<T>)
  {
    forall i, j :: 0 <= i < j < |xs| ==> xs[i] != xs[j]
  }

  /** The index of the first occurrence of `x` in `xs`. */
  function FirstIndex<T(==)>(xs: seq<T>, x: T): (k: nat)
    requires x in xs
    ensures k < |xs| && xs[k] == x
    ensures forall j :: 0 <= j < k ==> xs[j] != x
  {
    if xs[0] == x then 0 else 1 + FirstIndex(xs[1..], x)
  }

  /** `Array.from(new Set(xs))`: each string once, in order of first
      occurrence. */
  function Distinct(xs: seq<string>): (r: seq<string>)
    ensures NoDuplicates(r)
    ensures forall x :: x in r <==> x in xs
    ensures |r| <= |xs|
    decreases |xs|
  {
    if xs == [] then []
    else
      var init := Distinct(xs[..|xs| - 1]);
      var last := xs[|xs| - 1];
      assert forall x :: x in xs <==> x in xs[..|xs| - 1] || x == last;
      if last in init then init else init + [last]
  }

  /** The distinct values keep the order of their first occurrences. */
  lemma {:induction false} DistinctFirstOccurrenceOrder(xs: seq<string>, i: int, j: int)
    requires 0 <= i < j < |Distinct(xs)|
    ensures FirstIndex(xs, Distinct(xs)[i]) < FirstIndex(xs, Distinct(xs)[j])
    decreases |xs|
  {
    var init := xs[..|xs| - 1];
    var last := xs[|xs| - 1];
    var d := Distinct(init);
    var a := Distinct(xs)[i];
    var b := Distinct(xs)[j];
    FirstIndexOfPrefix(xs, a);
    if j < |d| {
      DistinctFirstOccurrenceOrder(init, i, j);
      FirstIndexOfPrefix(xs, b);
    } else {
      assert b == last && b !in init;
      assert FirstIndex(xs, b) == |xs| - 1;
    }
  }

  /** In `xs`, a value already present before the last position has its
      first occurrence there. */
  lemma FirstIndexOfPrefix(xs: seq<string>, x: string)
    requires |xs| > 0 && x in xs[..|xs| - 1]
    ensures FirstIndex(xs, x) == FirstIndex(xs[..|xs| - 1], x)
  {
    var k := FirstIndex(xs[..|xs| - 1], x);
    assert xs[k] == x;
  }

  /** `uniqueTechniques`. */
  function UniqueTechniques(products: seq<Product>): (r: seq<string>)
    ensures NoDuplicates(r)
    ensures forall t :: t in r <==> exists p :: p in products && p.technique == t
  {
    var ts := Techniques(products);
    var r := Distinct(ts);
    assert forall t :: t in ts <==> exists p :: p in products && p.technique == t by {
      forall t | t in ts
        ensures exists p :: p in products && p.technique == t
      {
        var i :| 0 <= i < |ts| && ts[i] == t;
        assert products[i] in products;
      }
      forall t | exists p :: p in products && p.technique == t
        ensures t in ts
      {
        var p :| p in products && p.technique == t;
        var i :| 0 <= i < |products| && products[i] == p;
        assert ts[i] == t;
      }
    }
    r
  }

  /** The selector lists the techniques in the order they first appear. */
  lemma UniqueTechniquesOrder(products: seq<Product>, i: int, j: int)
    requires 0 <= i < j < |UniqueTechniques(products)|
    ensures
      var ts := Techniques(products);
      var u := UniqueTechniques(products);
      u[i] in ts && u[j] in ts && FirstIndex(ts, u[i]) < FirstIndex(ts, u[j])
  {
    DistinctFirstOccurrenceOrder(Techniques(products), i, j);
  }
}

/** src/hooks/useProducts.ts: the product search of the order screens. It
    reads active products by name, at most 1000 of them, keeping only names
    that contain the search text (ignoring case) when there is one. */
module ProductsQuery {
  import opened Wrappers
  import opened Schema
  import opened Ordering
  import Stock

  /** `.limit(1000)`. */
  const Limit: nat := 1000

  /** `.order('nombre', { ascending: true })`. */
  function ByNombre(): (le: (Product, Product) -> bool)
    ensures forall a, b :: le(a, b) <==> LexLe(a.nombre, b.nombre)
  {
    (a: Product, b: Product) => LexLe(a.nombre, b.nombre)
  }

  /** `.eq('is_active', true)` and, when the search text is non-empty,
      `.ilike('nombre', '%search%')`; in table order. */
  predicate Matches(p: Product, search: Option<string>)
  {
    p.isActive && (Truthy(search) ==> ContainsIgnoringCase(p.nombre, search.value))
  }

  function Matching(products: seq<Product>, search: Option<string>): (r: seq<Product>)
    ensures forall p :: p in r <==> p in products && Matches(p, search)
  {
    if products == [] then []
    else
      var last := products[|products| - 1];
      Matching(products[..|products| - 1], search) + (if Matches(last, search) then [last] else [])
  }

  /** The query: [] when the read fails; otherwise the first 1000 matching
      products by name. Every listed product is active and matches; when more
      than 1000 match, the list is full. */
  function LoadProducts(search: Option<string>, products: seq<Product>, readOk: bool): (r: seq<Product>)
    ensures !readOk ==> r == []
    ensures |r| <= Limit
    ensures SortedBy(r, ByNombre())
    ensures forall p :: p in r ==> p in products && Matches(p, search)
    ensures readOk && |Matching(products, search)| <= Limit ==>
      multiset(r) == multiset(Matching(products, search))
    ensures readOk && |Matching(products, search)| > Limit ==> |r| == Limit
  {
    if !readOk then []
    else
      ByStringKeyIsTotalPreorder(ByNombre(), (p: Product) => p.nombre);
      var sorted := SortBy(Matching(products, search), ByNombre());
      var r := Take(sorted, Limit);
      forall p | p in r
        ensures p in sorted
      {
        var i :| 0 <= i < |r| && r[i] == p;
        assert sorted[i] == p;
      }
      assert forall p :: p in sorted <==> p in multiset(Matching(products, search));
      r
  }

  /** A matching product is left out only when the list is full, and then
      every listed name sorts no later than its name: the limit drops the
      alphabetical tail. */
  lemma {:induction false} LimitDropsOnlyTheTail(search: Option<string>, products: seq<Product>, p: Product)
    requires p in products && Matches(p, search)
    requires p !in LoadProducts(search, products, true)
    ensures |LoadProducts(search, products, true)| == Limit
    ensures forall q :: q in LoadProducts(search, products, true) ==> LexLe(q.nombre, p.nombre)
  {
    ByStringKeyIsTotalPreorder(ByNombre(), (p: Product) => p.nombre);
    var sorted := SortBy(Matching(products, search), ByNombre());
    assert p in multiset(sorted);
    TakeDropsTail(sorted, p);
  }

  lemma TakeDropsTail(sorted: seq<Product>, p: Product)
    requires SortedBy(sorted, ByNombre())
    requires p in sorted && p !in Take(sorted, Limit)
    ensures |Take(sorted, Limit)| == Limit
    ensures forall q :: q in Take(sorted, Limit) ==> LexLe(q.nombre, p.nombre)
  {
    var r := Take(sorted, Limit);
    var k :| 0 <= k < |sorted| && sorted[k] == p;
    assert forall i :: 0 <= i < |r| ==> sorted[i] == r[i] && r[i] in r;
    assert |r| <= k < |sorted|;
    forall q | q in r
      ensures LexLe(q.nombre, p.nombre)
    {
      var i :| 0 <= i < |r| && r[i] == q;
      assert ByNombre()(sorted[i], sorted[k]);
    }
  }

  /** Without search text the search lists the same products as the stock
      screen's active list. */
  lemma {:induction false} EmptySearchIsActiveList(products: seq<Product>, search: Option<string>)
    requires !Truthy(search)
    ensures Matching(products, search) == Stock.ActiveProducts(products)
  {
    if products != [] {
      EmptySearchIsActiveList(products[..|products| - 1], search);
    }
  }

  /** A longer search text never lists a product a shorter prefix of it would
      not: narrowing the search narrows the list. */
  lemma NarrowingSearch(products: seq<Product>, shorter: string, longer: string, p: Product)
    requires shorter != "" && |shorter| <= |longer| && longer[..|shorter|] == shorter
    requires p in Matching(products, Some(longer))
    ensures p in Matching(products, Some(shorter))
  {
    ContainsPrefix(ToLower(p.nombre), ToLower(longer), ToLower(shorter));
  }

  lemma {:induction false} ContainsPrefix(s: string, long: string, short: string)
    requires |short| <= |long| && long[..|short|] == short
    requires Contains(s, long)
    ensures Contains(s, short)
  {
    if |long| <= |s| && s[..|long|] == long {
      assert s[..|short|] == long[..|short|];
    } else {
      ContainsPrefix(s[1..], long, short);
    }
  }
}

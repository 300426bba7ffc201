/** src/hooks/useProductCategories.ts: the category tree of the product form.
    Both tables are read ordered by name, and every category carries the
    subcategories that point at it. */
module ProductCategories {
  import opened Wrappers
  import opened Ordering

  /** A row of `product_categories`. */
  datatype Category = Category(id: string, name: string)

  /** A row of `product_subcategories`. */
  datatype Subcategory = Subcategory(id: string, name: string, categoryId: string)

  /** A category with its subcategories nested under it. */
  datatype NestedCategory = NestedCategory(id: string, name: string, subcategories: seq<Subcategory>)

  /** `.order('name')` on categories. */
  function CategoryByName(): (le: (Category, Category) -> bool)
    ensures forall a, b :: le(a, b) <==> LexLe(a.name, b.name)
  {
    (a: Category, b: Category) => LexLe(a.name, b.name)
  }

  /** `.order('name')` on subcategories. */
  function SubcategoryByName(): (le: (Subcategory, Subcategory) -> bool)
    ensures forall a, b :: le(a, b) <==> LexLe(a.name, b.name)
  {
    (a: Subcategory, b: Subcategory) => LexLe(a.name, b.name)
  }

  /** `subcategories.filter(sub => sub.category_id === cat.id)`, in order. */
  function SubcategoriesOf(subs: seq<Subcategory>, categoryId: string): (r: seq<Subcategory>)
    ensures forall s :: s in r <==> s in subs && s.categoryId == categoryId
    ensures |r| <= |subs|
  {
    if subs == [] then []
    else
      var last := subs[|subs| - 1];
      SubcategoriesOf(subs[..|subs| - 1], categoryId) + (if last.categoryId == categoryId then [last] else [])
  }

  /** The category part of each nested entry. */
  function Heads(nested: seq<NestedCategory>): (r: seq<Category>)
    ensures |r| == |nested|
    ensures forall i :: 0 <= i < |nested| ==> r[i] == Category(nested[i].id, nested[i].name)
  {
    seq(|nested|, i requires 0 <= i < |nested| => Category(nested[i].id, nested[i].name))
  }

  /** The query: a failed read of either table is an error; otherwise one entry
      per category, by name, each with exactly the subcategories whose
      category_id is its id, by name. */
  function LoadCategories(categoriesOk: bool, categories: seq<Category>,
                          subcategoriesOk: bool, subcategories: seq<Subcategory>)
    : (r: Result<seq<NestedCategory>>)
    ensures r.Err? <==> !categoriesOk || !subcategoriesOk
    ensures r.Ok? ==>
      && SortedBy(Heads(r.value), CategoryByName())
      && multiset(Heads(r.value)) == multiset(categories)
      && forall i :: 0 <= i < |r.value| ==>
           && SortedBy(r.value[i].subcategories, SubcategoryByName())
           && forall s :: s in r.value[i].subcategories <==> s in subcategories && s.categoryId == r.value[i].id
  {
    if !categoriesOk then Err("product_categories read failed")
    else if !subcategoriesOk then Err("product_subcategories read failed")
    else
      ByStringKeyIsTotalPreorder(CategoryByName(), (c: Category) => c.name);
      ByStringKeyIsTotalPreorder(SubcategoryByName(), (s: Subcategory) => s.name);
      var cats := SortBy(categories, CategoryByName());
      var subs := SortBy(subcategories, SubcategoryByName());
      var nested := Nest(cats, subs);
      NestKeepsSorted(cats, subs);
      assert forall s :: s in subs <==> s in multiset(subcategories);
      assert Heads(nested) == cats;
      Ok(nested)
  }

  /** `categories.map(cat => ({ ...cat, subcategories: ... }))`. */
  function Nest(cats: seq<Category>, subs: seq<Subcategory>): (r: seq<NestedCategory>)
    ensures |r| == |cats|
    ensures forall i :: 0 <= i < |cats| ==>
      r[i] == NestedCategory(cats[i].id, cats[i].name, SubcategoriesOf(subs, cats[i].id))
  {
    seq(|cats|, i requires 0 <= i < |cats| =>
      NestedCategory(cats[i].id, cats[i].name, SubcategoriesOf(subs, cats[i].id)))
  }

  lemma NestKeepsSorted(cats: seq<Category>, subs: seq<Subcategory>)
    requires SortedBy(subs, SubcategoryByName())
    ensures forall i :: 0 <= i < |cats| ==> SortedBy(Nest(cats, subs)[i].subcategories, SubcategoryByName())
  {
    forall i | 0 <= i < |cats|
      ensures SortedBy(Nest(cats, subs)[i].subcategories, SubcategoryByName())
    {
      FilterKeepsSorted(subs, cats[i].id);
    }
  }

  /** Filtering a name-ordered list keeps it name-ordered. */
  lemma {:induction false} FilterKeepsSorted(subs: seq<Subcategory>, categoryId: string)
    requires SortedBy(subs, SubcategoryByName())
    ensures SortedBy(SubcategoriesOf(subs, categoryId), SubcategoryByName())
  {
    if subs != [] {
      var init := subs[..|subs| - 1];
      var last := subs[|subs| - 1];
      assert SortedBy(init, SubcategoryByName());
      FilterKeepsSorted(init, categoryId);
      var f := SubcategoriesOf(init, categoryId);
      if last.categoryId == categoryId {
        forall i, j | 0 <= i < j < |f| + 1
          ensures LexLe((f + [last])[i].name, (f + [last])[j].name)
        {
          if j == |f| {
            assert f[i] in init;
            var k :| 0 <= k < |init| && init[k] == f[i];
            assert subs[k] == f[i];
          } else {
            assert (f + [last])[i] == f[i] && (f + [last])[j] == f[j];
          }
        }
      }
    }
  }

  /** A subcategory whose category_id names no category appears nowhere. */
  lemma OrphanAppearsNowhere(categories: seq<Category>, subcategories: seq<Subcategory>, s: Subcategory)
    requires LoadCategories(true, categories, true, subcategories).Ok?
    requires forall c :: c in categories ==> c.id != s.categoryId
    ensures forall n :: n in LoadCategories(true, categories, true, subcategories).value ==> s !in n.subcategories
  {
    var r := LoadCategories(true, categories, true, subcategories).value;
    forall n | n in r
      ensures s !in n.subcategories
    {
      var i :| 0 <= i < |r| && r[i] == n;
      assert Heads(r)[i] in multiset(categories);
    }
  }

  /** A subcategory of a listed category is nested under that category's entry. */
  lemma SubcategoryNestedUnderItsCategory(categories: seq<Category>, subcategories: seq<Subcategory>,
                                          s: Subcategory, c: Category)
    requires s in subcategories && c in categories && c.id == s.categoryId
    ensures exists n :: n in LoadCategories(true, categories, true, subcategories).value &&
                        n.id == c.id && n.name == c.name && s in n.subcategories
  {
    var r := LoadCategories(true, categories, true, subcategories).value;
    assert c in multiset(Heads(r));
    var i :| 0 <= i < |r| && Heads(r)[i] == c;
    assert r[i] in r;
  }
}

/** src/features/stock/StockManager.tsx: the branch stock screen. It flags
    each stock entry, offers a save button for an edited quantity, turns the
    product form into a create or update call, keeps the category and
    subcategory selections in step, builds the catalogue rows of the
    downloadable list, and is open to administrators only. */
module StockManager {
  import opened Wrappers
  import opened Schema
  import opened Ordering
  import opened Text
  import Stock
  import ProductCategories
  import CreateProduct
  import UpdateProduct

  // ---- Stock rows -------------------------------------------------------

  /** `isOutOfStock`: the stored quantity is 0 ("AGOTADO"). */
  predicate OutOfStock(quantity: int)
  {
    quantity == 0
  }

  /** `isLowStock`: the stored quantity is 1 to 3 ("BAJO STOCK"). */
  predicate LowStock(quantity: int)
  {
    quantity <= 3 && quantity > 0
  }

  /** No entry carries both flags; negative or large quantities carry none. */
  lemma FlagsAreExclusive(quantity: int)
    ensures !(OutOfStock(quantity) && LowStock(quantity))
    ensures OutOfStock(quantity) || LowStock(quantity) <==> 0 <= quantity <= 3
  {
  }

  /** A product without a stock row at the branch is listed out of stock. */
  lemma VirtualEntryIsOutOfStock(p: Product, rows: seq<StockRow>, branch: string)
    requires Stock.FindStock(rows, p.id).None?
    ensures OutOfStock(Stock.MergeOne(p, rows, branch).quantity)
  {
  }

  /** `hasChanged`: the save button shows exactly when the edited quantity
      differs from the stored one. */
  predicate HasChanged(edited: int, stored: int)
  {
    edited != stored
  }

  /** After a save of the edited quantity, the row the screen reads back holds
      that quantity, so the button disappears. */
  lemma SavedRowHidesButton(stock: seq<StockRow>, id: string, edited: int, now: int, k: int)
    requires 0 <= k < |stock| && stock[k].id == id
    ensures !HasChanged(edited, OrZero(Stock.SetQuantity(stock, id, edited, now)[k].quantity))
  {
    Stock.SavedRowIsFound(stock, id, edited, now, k);
  }

  // ---- Product form -----------------------------------------------------

  /** The dialog's form; every field is the text of its input. */
  datatype ProductForm = ProductForm(
    nombre: string,
    empaque: string,
    precio: string,
    descripcion: string,
    catalogo: string,
    categoria: string,
    subcategoria: string,
    categoryId: string,
    subcategoryId: string,
    tipo: string,
    campaignId: string,
    isActive: bool)

  /** `initialFormState`. */
  const InitialForm: ProductForm :=
    ProductForm("", "Unidad", "", "", "General", "", "", "", "", "-", "", true)

  /** `Number(s)` on the text of the campaign select: the value of a string of
      decimal digits, None (NaN) for anything else. */
  function Number(s: string): (r: Option<int>)
    ensures AllDigits(s) && s != [] <==> r.Some?
  {
    if AllDigits(s) && s != [] then Some(DigitsValue(s)) else None
  }

  /** The options of the campaign select carry the campaign's id as text, and
      Number reads that id back. */
  lemma CampaignOptionReadsBack(id: nat)
    ensures Number(NatToString(id)) == Some(id)
  {
    NatToStringRoundTrip(id);
  }

  /** The payload built by handleSubmit. The category ids become undefined
      (None) when empty; the campaign is Number(text), or null when the text is
      empty (a NaN reaches the backend as null too, since JSON has no NaN). */
  datatype Payload = Payload(
    nombre: string,
    empaque: string,
    precio: real,
    descripcion: string,
    catalogo: string,
    categoria: string,
    subcategoria: string,
    categoryId: Option<string>,
    subcategoryId: Option<string>,
    tipo: string,
    campaignId: Option<int>,
    isActive: bool)

  /** The outcome of a submit: the price alert, or the hook call. */
  datatype Submission =
    | PriceAlert(message: string)
    | CreateCall(create: CreateProduct.CreateProductParams)
    | UpdateCall(update: UpdateProduct.UpdateProductParams)

  /** The payload of a form whose price parsed to `price`. */
  function PayloadOf(form: ProductForm, price: real): (p: Payload)
    ensures p.precio == price && p.nombre == form.nombre && p.empaque == form.empaque
    ensures p.descripcion == form.descripcion && p.catalogo == form.catalogo && p.tipo == form.tipo
    ensures p.categoria == form.categoria && p.subcategoria == form.subcategoria
    ensures p.isActive == form.isActive
    ensures p.categoryId.None? <==> form.categoryId == ""
    ensures p.categoryId.Some? ==> p.categoryId.value == form.categoryId
    ensures p.subcategoryId.None? <==> form.subcategoryId == ""
    ensures p.subcategoryId.Some? ==> p.subcategoryId.value == form.subcategoryId
    ensures form.campaignId == "" ==> p.campaignId.None?
    ensures form.campaignId != "" ==> p.campaignId == Number(form.campaignId)
  {
    Payload(
      form.nombre, form.empaque, price, form.descripcion, form.catalogo, form.categoria,
      form.subcategoria,
      if form.categoryId == "" then None else Some(form.categoryId),
      if form.subcategoryId == "" then None else Some(form.subcategoryId),
      form.tipo,
      if form.campaignId == "" then None else Number(form.campaignId),
      form.isActive)
  }

  /** The campaign as the hooks receive it: always given, null when none. */
  function CampaignField(c: Option<int>): (f: Field<int>)
    ensures f.Null? <==> c.None?
    ensures c.Some? ==> f == Present(c.value)
  {
    if c.Some? then Present(c.value) else Null
  }

  /** handleSubmit. `parsedPrice` is `parseFloat` of the price text (None for
      NaN); `editing` is the product id of the entry being edited. A price that
      does not parse raises the alert and calls nothing; otherwise an edit
      calls updateProduct with that id and a new product calls createProduct.
      Neither call receives the category ids, nor a sales description or an
      image URL. */
  function Submit(form: ProductForm, parsedPrice: Option<real>, editing: Option<int>): (s: Submission)
    ensures parsedPrice.None? <==> s == PriceAlert("Por favor ingrese un precio válido")
    ensures parsedPrice.Some? && editing.None? ==> s.CreateCall?
    ensures parsedPrice.Some? && editing.Some? ==> s.UpdateCall? && s.update.id == editing.value
  {
    if parsedPrice.None? then PriceAlert("Por favor ingrese un precio válido")
    else
      var p := PayloadOf(form, parsedPrice.value);
      if editing.None? then
        CreateCall(CreateProduct.CreateProductParams(
          p.nombre, p.precio, p.empaque, Some(p.descripcion), Some(p.catalogo), Some(p.categoria),
          Some(p.subcategoria), Some(p.tipo), None, None, CampaignField(p.campaignId), Some(p.isActive)))
      else
        UpdateCall(UpdateProduct.UpdateProductParams(
          editing.value, Some(p.nombre), Some(p.precio), Some(p.empaque), Some(p.descripcion),
          Some(p.catalogo), Some(p.categoria), Some(p.subcategoria), Some(p.tipo), None, None,
          CampaignField(p.campaignId), Some(p.isActive)))
  }

  /** A new product saved from the form: its price is the parsed price, an
      empty description becomes the name (and so does the sales description),
      a form without a campaign stores none, and the active box is kept. */
  lemma CreatedFromForm(form: ProductForm, price: real, imageUrl: string, id: int)
    ensures
      var p := CreateProduct.NewRow(Submit(form, Some(price), None).create, imageUrl, id);
      && p.precio == price && p.nombre == form.nombre && p.isActive == form.isActive
      && (form.descripcion == "" ==> p.descripcion == form.nombre && p.descripcionVenta == form.nombre)
      && (form.campaignId == "" ==> p.campaignId.None?)
      && (Number(form.campaignId).Some? ==> p.campaignId == Number(form.campaignId))
  {
  }

  /** Saving an edit from the form writes every form field, keeps the sales
      description, and clears the campaign when the select is empty. */
  lemma UpdatedFromForm(form: ProductForm, price: real, productId: int, stored: Product)
    requires stored.id == productId
    ensures
      var p := UpdateProduct.ApplyPatch(stored, UpdateProduct.PatchOf(Submit(form, Some(price), Some(productId)).update, None));
      && p.id == productId && p.precio == price && p.nombre == form.nombre
      && p.categoria == form.categoria && p.subcategoria == form.subcategoria
      && p.descripcionVenta == stored.descripcionVenta && p.imagenUrl == stored.imagenUrl
      && (form.campaignId == "" ==> p.campaignId.None?)
  {
  }

  /** The category ids of the form never reach the product: two forms that
      differ only in them produce the same call. */
  lemma CategoryIdsAreDropped(form: ProductForm, catId: string, subId: string,
                              parsedPrice: Option<real>, editing: Option<int>)
    ensures Submit(form.(categoryId := catId, subcategoryId := subId), parsedPrice, editing) ==
            Submit(form, parsedPrice, editing)
  {
  }

  // ---- Category and subcategory selects ----------------------------------

  /** `categories.find(c => c.id === id)`. */
  function FindCategory(cats: seq<ProductCategories.NestedCategory>, id: string)
    : (r: Option<ProductCategories.NestedCategory>)
    ensures r.Some? ==> r.value in cats && r.value.id == id
    ensures r.None? <==> forall c :: c in cats ==> c.id != id
  {
    if cats == [] then None
    else if cats[0].id == id then Some(cats[0])
    else FindCategory(cats[1..], id)
  }

  /** `subcategories.find(s => s.id === id)`. */
  function FindSubcategory(subs: seq<ProductCategories.Subcategory>, id: string)
    : (r: Option<ProductCategories.Subcategory>)
    ensures r.Some? ==> r.value in subs && r.value.id == id
    ensures r.None? <==> forall s :: s in subs ==> s.id != id
  {
    if subs == [] then None
    else if subs[0].id == id then Some(subs[0])
    else FindSubcategory(subs[1..], id)
  }

  /** The category select's onChange: the new category's name and id, and its
      first subcategory (or none, as empty texts). */
  function ChangeCategory(form: ProductForm, cats: seq<ProductCategories.NestedCategory>, newCatId: string)
    : (r: ProductForm)
    ensures r.categoryId == newCatId
    ensures r == form.(categoria := r.categoria, categoryId := newCatId,
                       subcategoria := r.subcategoria, subcategoryId := r.subcategoryId)
  {
    var newCat := FindCategory(cats, newCatId);
    var subs := if newCat.Some? then newCat.value.subcategories else [];
    form.(categoria := if newCat.Some? then newCat.value.name else "",
          categoryId := newCatId,
          subcategoria := if subs != [] then subs[0].name else "",
          subcategoryId := if subs != [] then subs[0].id else "")
  }

  /** Choosing a category with subcategories selects its first one; choosing
      one without any (or an unknown id) clears the subcategory. */
  lemma ChangeCategorySelectsFirstSubcategory(form: ProductForm, cats: seq<ProductCategories.NestedCategory>,
                                              newCatId: string)
    ensures
      var r := ChangeCategory(form, cats, newCatId);
      var c := FindCategory(cats, newCatId);
      && (c.Some? ==> r.categoria == c.value.name)
      && (c.Some? && c.value.subcategories != [] ==>
            r.subcategoryId == c.value.subcategories[0].id && r.subcategoria == c.value.subcategories[0].name)
      && (c.None? || c.value.subcategories == [] ==> r.subcategoria == "" && r.subcategoryId == "")
      && (c.None? ==> r.categoria == "")
  {
  }

  /** On the tree the query loads, a category chosen from the select gets a
      subcategory that really belongs to it. */
  lemma ChosenSubcategoryBelongs(categories: seq<ProductCategories.Category>,
                                 subcategories: seq<ProductCategories.Subcategory>,
                                 form: ProductForm, newCatId: string)
    requires ProductCategories.LoadCategories(true, categories, true, subcategories).Ok?
    ensures
      var cats := ProductCategories.LoadCategories(true, categories, true, subcategories).value;
      var r := ChangeCategory(form, cats, newCatId);
      r.subcategoryId != "" ==>
        exists s :: s in subcategories && s.categoryId == newCatId && s.id == r.subcategoryId
  {
    var cats := ProductCategories.LoadCategories(true, categories, true, subcategories).value;
    var c := FindCategory(cats, newCatId);
    if c.Some? && c.value.subcategories != [] {
      var s := c.value.subcategories[0];
      var i :| 0 <= i < |cats| && cats[i] == c.value;
      assert s in cats[i].subcategories;
    }
  }

  /** The subcategory select's onChange: the new id, and its name when the
      current category lists it, otherwise empty. */
  function ChangeSubcategory(form: ProductForm, cats: seq<ProductCategories.NestedCategory>, newSubId: string)
    : (r: ProductForm)
    ensures r == form.(subcategoria := r.subcategoria, subcategoryId := newSubId)
    ensures
      var c := FindCategory(cats, form.categoryId);
      && (c.Some? && FindSubcategory(c.value.subcategories, newSubId).Some? ==>
            r.subcategoria == FindSubcategory(c.value.subcategories, newSubId).value.name)
      && (c.None? || FindSubcategory(c.value.subcategories, newSubId).None? ==> r.subcategoria == "")
  {
    var c := FindCategory(cats, form.categoryId);
    var s := if c.Some? then FindSubcategory(c.value.subcategories, newSubId) else None;
    form.(subcategoria := if s.Some? then s.value.name else "", subcategoryId := newSubId)
  }

  // ---- Catalogue list ---------------------------------------------------

  /** A row of the downloadable list: id, name, price (missing counting as 0,
      which the product type already rules out). */
  datatype CatalogueRow = CatalogueRow(productId: int, nombre: string, precio: real)

  /** Rows by product name (`localeCompare` on nombre). */
  function ByName(): (le: (CatalogueRow, CatalogueRow) -> bool)
    ensures forall a, b :: le(a, b) <==> LexLe(a.nombre, b.nombre)
  {
    (a: CatalogueRow, b: CatalogueRow) => LexLe(a.nombre, b.nombre)
  }

  function RowOf(item: Stock.StockItem): CatalogueRow
  {
    CatalogueRow(item.productId, item.product.nombre, item.product.precio)
  }

  function RowsOf(items: seq<Stock.StockItem>): (r: seq<CatalogueRow>)
    ensures |r| == |items|
    ensures forall i :: 0 <= i < |items| ==> r[i] == RowOf(items[i])
  {
    seq(|items|, i requires 0 <= i < |items| => RowOf(items[i]))
  }

  /** The catalogue: every entry of the merged stock list (each carries its
      product), by name, as [id, name, price]. Sorting the entries and then
      mapping them, as the screen does, or mapping and then sorting by the
      same name gives the same rows up to the order of equal names. */
  function CatalogueRows(stock: seq<Stock.StockItem>): (r: seq<CatalogueRow>)
    ensures |r| == |stock|
    ensures forall i, j :: 0 <= i < j < |r| ==> LexLe(r[i].nombre, r[j].nombre)
    ensures multiset(r) == multiset(RowsOf(stock))
  {
    ByStringKeyIsTotalPreorder(ByName(), (row: CatalogueRow) => row.nombre);
    SortBy(RowsOf(stock), ByName())
  }

  /** Each active product of the branch's list is in the catalogue once per
      entry, with its current price. */
  lemma CatalogueListsEveryProduct(stock: seq<Stock.StockItem>, k: int)
    requires 0 <= k < |stock|
    ensures CatalogueRow(stock[k].productId, stock[k].product.nombre, stock[k].product.precio)
      in CatalogueRows(stock)
  {
    assert RowsOf(stock)[k] in multiset(RowsOf(stock));
  }

  /** The download button is enabled once the list is loaded and not empty. */
  predicate DownloadEnabled(isLoading: bool, stock: Option<seq<Stock.StockItem>>)
  {
    !isLoading && stock.Some? && stock.value != []
  }

  // ---- Access ----------------------------------------------------------

  /** The screen opens for branch and super administrators only. */
  predicate AccessGranted(role: Option<Role>)
  {
    role.Some? && (role.value.role == "branch_admin" || role.value.role == "super_admin")
  }

  /** Operatives, users without a role row and unknown roles are turned away. */
  lemma OthersAreDenied(role: Option<Role>)
    ensures role.None? ==> !AccessGranted(role)
    ensures role.Some? && role.value.role == "operative" ==> !AccessGranted(role)
    ensures AccessGranted(role) ==> role.value.role in {"branch_admin", "super_admin"}
  {
  }
}

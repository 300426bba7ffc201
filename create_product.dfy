/** src/hooks/useCreateProduct.ts: a new catalogue product. An attached image
    is uploaded first and its public URL stored; the optional text fields fall
    back to fixed defaults; the row is inserted into `productos`. */
module CreateProduct {
  import opened Wrappers
  import opened Schema
  import Stock

  /** CreateProductParams. An optional field left undefined is None;
      `campaign_id` tells undefined (Absent) from an explicit null. */
  datatype CreateProductParams = CreateProductParams(
    nombre: string,
    precio: real,
    empaque: string,
    descripcion: Option<string>,
    catalogo: Option<string>,
    categoria: Option<string>,
    subcategoria: Option<string>,
    tipo: Option<string>,
    descripcionVenta: Option<string>,
    imagenUrl: Option<string>,
    campaignId: Field<int>,
    isActive: Option<bool>)

  /** The placeholder stored when there is neither a file nor a URL. */
  const Placeholder: string := "https://placehold.co/400"

  /** The image column: the uploaded file's public URL when a file was given
      (`uploaded` is Some), otherwise the given URL, otherwise the placeholder. */
  function ImageUrl(params: CreateProductParams, uploaded: Option<string>): (r: string)
    ensures uploaded.Some? ==> r == uploaded.value
    ensures uploaded.None? && Truthy(params.imagenUrl) ==> r == params.imagenUrl.value
    ensures uploaded.None? && !Truthy(params.imagenUrl) ==> r == Placeholder
  {
    if uploaded.Some? then uploaded.value else OrElse(params.imagenUrl, Placeholder)
  }

  /** The storage outcome as the image column sees it: None when no file is
      attached (`upload` is None), the public URL after a successful upload. */
  function Uploaded(upload: Option<Result<string>>): (r: Option<string>)
    requires upload.Some? ==> upload.value.Ok?
    ensures r.None? <==> upload.None?
    ensures r.Some? ==> Ok(r.value) == upload.value
  {
    if upload.Some? then Some(upload.value.value) else None
  }

  /** The inserted row. Empty or missing texts take their defaults; the sales
      description falls back to the description and then to the name; a
      missing or null campaign is stored as null; a product is active unless
      it is explicitly created inactive. */
  function NewRow(params: CreateProductParams, imageUrl: string, id: int): (p: Product)
    ensures p.id == id && p.nombre == params.nombre && p.precio == params.precio
    ensures p.empaque == params.empaque && p.imagenUrl == imageUrl
    ensures p.descripcion == (if Truthy(params.descripcion) then params.descripcion.value else params.nombre)
    ensures p.catalogo == (if Truthy(params.catalogo) then params.catalogo.value else "General")
    ensures p.categoria == (if Truthy(params.categoria) then params.categoria.value else "Panadería")
    ensures p.subcategoria == (if Truthy(params.subcategoria) then params.subcategoria.value else "Pan Dulce")
    ensures p.tipo == (if Truthy(params.tipo) then params.tipo.value else "Panadería mexicana")
    ensures Truthy(params.descripcionVenta) ==> p.descripcionVenta == params.descripcionVenta.value
    ensures !Truthy(params.descripcionVenta) ==> p.descripcionVenta == p.descripcion
    ensures p.campaignId.Some? <==> params.campaignId.Present?
    ensures p.campaignId.Some? ==> p.campaignId.value == params.campaignId.value
    ensures p.isActive <==> params.isActive != Some(false)
  {
    Product(
      id, params.nombre, params.precio, params.empaque,
      OrElse(params.descripcion, params.nombre),
      OrElse(params.catalogo, "General"),
      OrElse(params.categoria, "Panadería"),
      OrElse(params.subcategoria, "Pan Dulce"),
      OrElse(params.tipo, "Panadería mexicana"),
      OrElse(params.descripcionVenta, OrElse(params.descripcion, params.nombre)),
      imageUrl,
      if params.campaignId.Present? then Some(params.campaignId.value) else None,
      BoolOr(params.isActive, true))
  }

  /** createProduct: a failed upload aborts before anything is inserted; a
      failed insert leaves the table as it was. */
  method CreateProduct(db: Database, params: CreateProductParams, upload: Option<Result<string>>,
                       newId: int, insertOk: bool)
    returns (r: Result<Product>)
    modifies db`products
    ensures (upload.Some? && upload.value.Err?) || !insertOk ==> r.Err? && db.products == old(db.products)
    ensures (upload.None? || upload.value.Ok?) && insertOk ==>
      && r == Ok(NewRow(params, ImageUrl(params, Uploaded(upload)), newId))
      && db.products == old(db.products) + [r.value]
  {
    if upload.Some? && upload.value.Err? {
      return Err(upload.value.message);
    }
    var image := ImageUrl(params, Uploaded(upload));
    if !insertOk {
      return Err("insert into productos failed");
    }
    var row := NewRow(params, image, newId);
    db.products := db.products + [row];
    r := Ok(row);
  }

  /** A product created without `is_active: false` joins the end of the active
      list that the stock screen and the product search read. */
  lemma {:induction false} CreatedProductIsListed(products: seq<Product>, params: CreateProductParams,
                                                  imageUrl: string, id: int)
    requires params.isActive != Some(false)
    ensures Stock.ActiveProducts(products + [NewRow(params, imageUrl, id)]) ==
      Stock.ActiveProducts(products) + [NewRow(params, imageUrl, id)]
  {
    var all := products + [NewRow(params, imageUrl, id)];
    assert all[..|all| - 1] == products;
  }

  /** On a branch without a stock row for it, the new product appears in the
      merged stock list with a virtual entry holding quantity 0. */
  lemma NewProductStartsAtZero(p: Product, rows: seq<StockRow>, branch: string)
    requires forall s :: s in rows ==> s.productId != p.id
    ensures Stock.MergeOne(p, rows, branch).quantity == 0
    ensures Stock.MergeOne(p, rows, branch).id == Stock.VirtualId(p.id)
  {
    assert Stock.FindStock(rows, p.id).None?;
  }
}

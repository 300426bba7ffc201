/** src/hooks/useUpdateProduct.ts: an edit of a catalogue product. An attached
    image is uploaded first; then a patch holding only the fields the caller
    gave is applied to the one row with the product's id. */
module UpdateProduct {
  import opened Wrappers
  import opened Schema

  /** UpdateProductParams: every field but the id may be left undefined (None);
      `campaign_id` may also be an explicit null, which clears it. */
  datatype UpdateProductParams = UpdateProductParams(
    id: int,
    nombre: Option<string>,
    precio: Option<real>,
    empaque: Option<string>,
    descripcion: Option<string>,
    catalogo: Option<string>,
    categoria: Option<string>,
    subcategoria: Option<string>,
    tipo: Option<string>,
    descripcionVenta: Option<string>,
    imagenUrl: Option<string>,
    campaignId: Field<int>,
    isActive: Option<bool>)

  /** The `updates` object: None is a key that is not present. A present
      campaign holds the new column value, None being null. */
  datatype ProductPatch = ProductPatch(
    nombre: Option<string>,
    precio: Option<real>,
    empaque: Option<string>,
    descripcion: Option<string>,
    catalogo: Option<string>,
    categoria: Option<string>,
    subcategoria: Option<string>,
    tipo: Option<string>,
    descripcionVenta: Option<string>,
    imagenUrl: Option<string>,
    campaignId: Option<Option<int>>,
    isActive: Option<bool>)

  const NoChange: ProductPatch :=
    ProductPatch(None, None, None, None, None, None, None, None, None, None, None, None)

  /** The `updates` object: a key for every field the caller defined. The
      image is the uploaded file's public URL when a file was given (`uploaded`
      is Some), otherwise the caller's URL; with neither the column is not
      touched. An explicit null campaign is a key holding null. */
  function PatchOf(params: UpdateProductParams, uploaded: Option<string>): (patch: ProductPatch)
    ensures patch.nombre == params.nombre && patch.precio == params.precio
    ensures patch.empaque == params.empaque && patch.descripcion == params.descripcion
    ensures patch.catalogo == params.catalogo && patch.categoria == params.categoria
    ensures patch.subcategoria == params.subcategoria && patch.tipo == params.tipo
    ensures patch.descripcionVenta == params.descripcionVenta && patch.isActive == params.isActive
    ensures uploaded.Some? ==> patch.imagenUrl == uploaded
    ensures uploaded.None? ==> patch.imagenUrl == params.imagenUrl
    ensures params.campaignId.Absent? <==> patch.campaignId.None?
    ensures params.campaignId.Null? ==> patch.campaignId == Some(None)
    ensures params.campaignId.Present? ==> patch.campaignId == Some(Some(params.campaignId.value))
  {
    ProductPatch(
      params.nombre, params.precio, params.empaque, params.descripcion, params.catalogo,
      params.categoria, params.subcategoria, params.tipo, params.descripcionVenta,
      if uploaded.Some? then uploaded else params.imagenUrl,
      match params.campaignId
      case Absent => None
      case Null => Some(None)
      case Present(c) => Some(Some(c)),
      params.isActive)
  }

  /** The patch, one guarded assignment per field. */
  method BuildPatch(params: UpdateProductParams, uploaded: Option<string>) returns (patch: ProductPatch)
    ensures patch == PatchOf(params, uploaded)
  {
    var finalImageUrl := params.imagenUrl;
    if uploaded.Some? {
      finalImageUrl := uploaded;
    }
    var nombre := IfDefined(params.nombre);
    var precio := IfDefined(params.precio);
    var empaque := IfDefined(params.empaque);
    var descripcion := IfDefined(params.descripcion);
    var catalogo := IfDefined(params.catalogo);
    var categoria := IfDefined(params.categoria);
    var subcategoria := IfDefined(params.subcategoria);
    var tipo := IfDefined(params.tipo);
    var descripcionVenta := IfDefined(params.descripcionVenta);
    var imagenUrl := IfDefined(finalImageUrl);
    var campaignId := CampaignEntry(params.campaignId);
    var isActive := IfDefined(params.isActive);
    patch := ProductPatch(nombre, precio, empaque, descripcion, catalogo, categoria,
                          subcategoria, tipo, descripcionVenta, imagenUrl, campaignId, isActive);
  }

  /** `if (x !== undefined) updates.key = x`: the key is present exactly when
      the value is defined and then holds it, so the entry is the value. */
  method IfDefined<T>(x: Option<T>) returns (entry: Option<T>)
    ensures entry == x
  {
    entry := None;
    if x.Some? {
      entry := Some(x.value);
    }
  }

  /** `if (campaign_id !== undefined) updates.campaign_id = campaign_id`, where
      the value may be null. */
  method CampaignEntry(c: Field<int>) returns (entry: Option<Option<int>>)
    ensures c.Absent? <==> entry.None?
    ensures c.Null? ==> entry == Some(None)
    ensures c.Present? ==> entry == Some(Some(c.value))
  {
    entry := None;
    match c {
      case Absent =>
      case Null => entry := Some(None);
      case Present(v) => entry := Some(Some(v));
    }
  }

  function Pick<T>(given: Option<T>, current: T): (r: T)
    ensures given.Some? ==> r == given.value
    ensures given.None? ==> r == current
  {
    if given.Some? then given.value else current
  }

  /** The row after `.update(patch)`: a field present in the patch takes its
      value, every other field and the id keep theirs. */
  function ApplyPatch(p: Product, patch: ProductPatch): (r: Product)
    ensures r.id == p.id
    ensures patch == NoChange ==> r == p
    ensures r.nombre == Pick(patch.nombre, p.nombre) && r.precio == Pick(patch.precio, p.precio)
    ensures r.imagenUrl == Pick(patch.imagenUrl, p.imagenUrl)
    ensures r.campaignId == Pick(patch.campaignId, p.campaignId)
    ensures r.isActive == Pick(patch.isActive, p.isActive)
    ensures r.empaque == Pick(patch.empaque, p.empaque) && r.descripcion == Pick(patch.descripcion, p.descripcion)
    ensures r.catalogo == Pick(patch.catalogo, p.catalogo) && r.categoria == Pick(patch.categoria, p.categoria)
    ensures r.subcategoria == Pick(patch.subcategoria, p.subcategoria) && r.tipo == Pick(patch.tipo, p.tipo)
    ensures r.descripcionVenta == Pick(patch.descripcionVenta, p.descripcionVenta)
  {
    Product(
      p.id,
      Pick(patch.nombre, p.nombre),
      Pick(patch.precio, p.precio),
      Pick(patch.empaque, p.empaque),
      Pick(patch.descripcion, p.descripcion),
      Pick(patch.catalogo, p.catalogo),
      Pick(patch.categoria, p.categoria),
      Pick(patch.subcategoria, p.subcategoria),
      Pick(patch.tipo, p.tipo),
      Pick(patch.descripcionVenta, p.descripcionVenta),
      Pick(patch.imagenUrl, p.imagenUrl),
      Pick(patch.campaignId, p.campaignId),
      Pick(patch.isActive, p.isActive))
  }

  /** `.eq('id', id)` over the table. */
  function ProductsWithId(products: seq<Product>, id: int): (r: seq<Product>)
    ensures forall p :: p in r <==> p in products && p.id == id
    ensures |r| <= |products|
  {
    if products == [] then []
    else
      var last := products[|products| - 1];
      ProductsWithId(products[..|products| - 1], id) + (if last.id == id then [last] else [])
  }

  function PatchRows(products: seq<Product>, id: int, patch: ProductPatch): (r: seq<Product>)
    ensures |r| == |products|
    ensures forall i :: 0 <= i < |products| && products[i].id == id ==> r[i] == ApplyPatch(products[i], patch)
    ensures forall i :: 0 <= i < |products| && products[i].id != id ==> r[i] == products[i]
  {
    seq(|products|, i requires 0 <= i < |products| =>
      if products[i].id == id then ApplyPatch(products[i], patch) else products[i])
  }

  /** updateProduct: a failed upload aborts; `.single()` fails unless exactly
      one row has the id, and then nothing is kept. `upload` is None when no
      file is attached and the storage outcome otherwise. */
  method UpdateProduct(db: Database, params: UpdateProductParams, upload: Option<Result<string>>, ok: bool)
    returns (r: Result<Product>)
    modifies db`products
    ensures (upload.Some? && upload.value.Err?) || !ok || |ProductsWithId(old(db.products), params.id)| != 1 ==>
      r.Err? && db.products == old(db.products)
    ensures (upload.None? || upload.value.Ok?) && ok && |ProductsWithId(old(db.products), params.id)| == 1 ==>
      var patch := PatchOf(params, if upload.Some? then Some(upload.value.value) else None);
      && db.products == PatchRows(old(db.products), params.id, patch)
      && r == Ok(ApplyPatch(ProductsWithId(old(db.products), params.id)[0], patch))
  {
    if upload.Some? && upload.value.Err? {
      return Err(upload.value.message);
    }
    var uploaded: Option<string> := if upload.Some? then Some(upload.value.value) else None;
    var patch := BuildPatch(params, uploaded);
    var matches := ProductsWithId(db.products, params.id);
    if !ok || |matches| != 1 {
      return Err("update of productos did not return exactly one row");
    }
    db.products := PatchRows(db.products, params.id, patch);
    r := Ok(ApplyPatch(matches[0], patch));
  }

  /** An explicit null clears the campaign, while leaving it undefined keeps
      whatever campaign the product had. */
  lemma CampaignNullClearsUndefinedKeeps(p: Product, patch: ProductPatch)
    ensures patch.campaignId == Some(None) ==> ApplyPatch(p, patch).campaignId.None?
    ensures patch.campaignId.None? ==> ApplyPatch(p, patch).campaignId == p.campaignId
  {
  }

  /** The parameters of an edit that sends every field back as it is stored,
      the campaign as null when it has none. */
  function Resend(p: Product): (params: UpdateProductParams)
    ensures params.id == p.id
    ensures p.campaignId.None? <==> params.campaignId.Null?
  {
    UpdateProductParams(p.id, Some(p.nombre), Some(p.precio), Some(p.empaque), Some(p.descripcion),
                        Some(p.catalogo), Some(p.categoria), Some(p.subcategoria), Some(p.tipo),
                        Some(p.descripcionVenta), Some(p.imagenUrl),
                        if p.campaignId.Some? then Present(p.campaignId.value) else Null,
                        Some(p.isActive))
  }

  /** Saving an edit without touching a field and without a new image leaves
      the product as it was. */
  lemma ResendingValuesIsIdentity(products: seq<Product>, p: Product)
    requires p in products
    ensures forall i :: 0 <= i < |products| && products[i] == p ==>
      PatchRows(products, p.id, PatchOf(Resend(p), None))[i] == p
  {
    var patch := PatchOf(Resend(p), None);
    assert ApplyPatch(p, patch) == p;
  }

  /** Only the product with the id is rewritten. */
  lemma OtherProductsKept(products: seq<Product>, id: int, patch: ProductPatch)
    ensures forall q :: q in products && q.id != id ==> q in PatchRows(products, id, patch)
    ensures ProductsWithId(PatchRows(products, id, patch), id) == []  <==> ProductsWithId(products, id) == []
  {
    var r := PatchRows(products, id, patch);
    forall q | q in products && q.id != id
      ensures q in r
    {
      var i :| 0 <= i < |products| && products[i] == q;
      assert r[i] == q;
    }
    NoneWithId(products, id);
    NoneWithId(r, id);
    assert forall i :: 0 <= i < |r| ==> r[i].id == products[i].id;
  }

  /** `.eq('id', id)` matches nothing exactly when no row has the id. */
  lemma NoneWithId(products: seq<Product>, id: int)
    ensures ProductsWithId(products, id) == [] <==> forall i :: 0 <= i < |products| ==> products[i].id != id
  {
    var m := ProductsWithId(products, id);
    if m != [] {
      assert m[0] in m;
    } else {
      forall i | 0 <= i < |products|
        ensures products[i].id != id
      {
        assert products[i] in products;
        assert products[i] !in m;
      }
    }
  }
}

/** src/hooks/useStock.ts: the stock screen's list is every active product
    merged with the branch's branch_stock rows; a product without a row gets a
    "virtual" entry with quantity 0. Saving an entry inserts a row for a virtual
    id and updates the existing row otherwise. */
module Stock {
  import opened Wrappers
  import opened Schema
  import opened Text

  /** An entry of the merged list. */
  datatype StockItem = StockItem(
    id: string,
    productId: int,
    sucursal: string,
    quantity: int,
    updatedAt: Option<int>,
    product: Product)

  predicate StartsWith(s: string, prefix: string)
  {
    |prefix| <= |s| && s[..|prefix|] == prefix
  }

  /** `virtual-${p.id}`. */
  function VirtualId(productId: int): (r: string)
    ensures StartsWith(r, "virtual")
  {
    "virtual-" + IntToString(productId)
  }

  /** `.eq('is_active', true)`, in table order. */
  function ActiveProducts(products: seq<Product>): (r: seq<Product>)
    ensures forall p :: p in r <==> p in products && p.isActive
  {
    if products == [] then []
    else
      var last := products[|products| - 1];
      ActiveProducts(products[..|products| - 1]) + (if last.isActive then [last] else [])
  }

  /** `.eq('sucursal', branch)` on branch_stock, in table order. */
  function BranchRows(stock: seq<StockRow>, branch: string): (r: seq<StockRow>)
    ensures forall s :: s in r <==> s in stock && s.sucursal == branch
  {
    if stock == [] then []
    else
      var last := stock[|stock| - 1];
      BranchRows(stock[..|stock| - 1], branch) + (if last.sucursal == branch then [last] else [])
  }

  /** `stock.find((s) => s.product_id === p.id)`: the first matching row. */
  function FindStock(stock: seq<StockRow>, productId: int): (r: Option<StockRow>)
    ensures r.Some? ==> r.value in stock && r.value.productId == productId
    ensures r.None? <==> forall s :: s in stock ==> s.productId != productId
  {
    if stock == [] then None
    else if stock[0].productId == productId then Some(stock[0])
    else FindStock(stock[1..], productId)
  }

  /** One merged entry. */
  function MergeOne(p: Product, stock: seq<StockRow>, branch: string): StockItem
  {
    var entry := FindStock(stock, p.id);
    StockItem(
      if entry.Some? && entry.value.id != "" then entry.value.id else VirtualId(p.id),
      p.id,
      branch,
      if entry.Some? then OrZero(entry.value.quantity) else 0,
      if entry.Some? then entry.value.updatedAt else None,
      p)
  }

  /** The stock query: [] without a branch, an error when either read fails,
      otherwise one entry per active product, in product order. */
  function LoadStock(role: Option<Role>, productsRead: Fetch<seq<Product>>, stockRead: Fetch<seq<StockRow>>)
    : (r: Result<seq<StockItem>>)
    ensures (role.None? || !Truthy(role.value.sucursal)) ==> r == Ok([])
    ensures role.Some? && Truthy(role.value.sucursal) && (!productsRead.Data? || !stockRead.Data?) ==> r.Err?
    ensures role.Some? && Truthy(role.value.sucursal) && productsRead.Data? && stockRead.Data? ==>
      var active := ActiveProducts(productsRead.rows);
      var branch := role.value.sucursal.value;
      var rows := BranchRows(stockRead.rows, branch);
      && r.Ok?
      && |r.value| == |active|
      && forall i :: 0 <= i < |active| ==>
           && r.value[i].productId == active[i].id
           && r.value[i].product == active[i]
           && r.value[i].sucursal == branch
           && (FindStock(rows, active[i].id).None? ==>
                 && r.value[i].quantity == 0
                 && r.value[i].id == VirtualId(active[i].id)
                 && r.value[i].updatedAt == None)
           && (FindStock(rows, active[i].id).Some? ==>
                 var row := FindStock(rows, active[i].id).value;
                 && r.value[i].quantity == OrZero(row.quantity)
                 && r.value[i].id == (if row.id != "" then row.id else VirtualId(active[i].id))
                 && r.value[i].updatedAt == row.updatedAt)
  {
    if role.None? || !Truthy(role.value.sucursal) then Ok([])
    else if !productsRead.Data? then Err("productos read failed")
    else if !stockRead.Data? then Err("branch_stock read failed")
    else
      var branch := role.value.sucursal.value;
      var active := ActiveProducts(productsRead.rows);
      var rows := BranchRows(stockRead.rows, branch);
      Ok(seq(|active|, i requires 0 <= i < |active| => MergeOne(active[i], rows, branch)))
  }

  /** An entry gets a virtual id exactly when the branch has no usable row for
      its product (row ids are never empty and never start with "virtual"), so
      saving it is routed to an insert exactly then. */
  lemma VirtualIffNoRow(p: Product, stock: seq<StockRow>, branch: string)
    requires forall s :: s in stock ==> s.id != "" && !StartsWith(s.id, "virtual")
    ensures StartsWith(MergeOne(p, stock, branch).id, "virtual") <==> FindStock(stock, p.id).None?
  {
  }

  /** `.update({ quantity, updated_at }).eq('id', id)`. */
  function SetQuantity(stock: seq<StockRow>, id: string, quantity: int, now: int): (r: seq<StockRow>)
    ensures |r| == |stock|
    ensures forall i :: 0 <= i < |stock| && stock[i].id == id ==>
      r[i] == stock[i].(quantity := Some(quantity), updatedAt := Some(now))
    ensures forall i :: 0 <= i < |stock| && stock[i].id != id ==> r[i] == stock[i]
  {
    seq(|stock|, i requires 0 <= i < |stock| =>
      if stock[i].id == id then stock[i].(quantity := Some(quantity), updatedAt := Some(now)) else stock[i])
  }

  /** updateStock. */
  method UpdateStock(db: Database, role: Option<Role>, id: string, productId: int, quantity: int,
                     now: int, newId: string, writeOk: bool)
    returns (r: Outcome)
    modifies db`branchStock
    ensures (role.None? || !Truthy(role.value.sucursal)) ==>
      r == Fail("No Branch Selected") && db.branchStock == old(db.branchStock)
    ensures role.Some? && Truthy(role.value.sucursal) && !writeOk ==>
      r.Fail? && db.branchStock == old(db.branchStock)
    ensures role.Some? && Truthy(role.value.sucursal) && writeOk && StartsWith(id, "virtual") ==>
      r.Pass? && db.branchStock ==
        old(db.branchStock) + [StockRow(newId, productId, role.value.sucursal.value, Some(quantity), Some(now))]
    ensures role.Some? && Truthy(role.value.sucursal) && writeOk && !StartsWith(id, "virtual") ==>
      r.Pass? && db.branchStock == SetQuantity(old(db.branchStock), id, quantity, now)
  {
    if role.None? || !Truthy(role.value.sucursal) {
      return Fail("No Branch Selected");
    }
    if StartsWith(id, "virtual") {
      if !writeOk {
        return Fail("insert into branch_stock failed");
      }
      db.branchStock := db.branchStock + [StockRow(newId, productId, role.value.sucursal.value, Some(quantity), Some(now))];
    } else {
      if !writeOk {
        return Fail("update of branch_stock failed");
      }
      db.branchStock := SetQuantity(db.branchStock, id, quantity, now);
    }
    r := Pass;
  }

  /** Saving a virtual entry creates the branch's row for that product, so the
      next load finds it and shows the saved quantity under the new row's id. */
  lemma SavedVirtualEntryIsFound(stock: seq<StockRow>, p: Product, branch: string, newId: string,
                                 quantity: int, now: int)
    requires FindStock(BranchRows(stock, branch), p.id).None?
    requires newId != ""
    ensures MergeOne(p, BranchRows(stock + [StockRow(newId, p.id, branch, Some(quantity), Some(now))], branch), branch)
      == StockItem(newId, p.id, branch, quantity, Some(now), p)
  {
    var row := StockRow(newId, p.id, branch, Some(quantity), Some(now));
    var before := BranchRows(stock, branch);
    assert (stock + [row])[..|stock|] == stock;
    assert BranchRows(stock + [row], branch) == before + [row];
    FindStockSkips(before, [row], p.id);
  }

  lemma {:induction false} FindStockSkips(a: seq<StockRow>, b: seq<StockRow>, productId: int)
    requires FindStock(a, productId).None?
    ensures FindStock(a + b, productId) == FindStock(b, productId)
  {
    if a != [] {
      assert (a + b)[1..] == a[1..] + b;
      assert (a + b)[0] == a[0] && a[0] in a;
      FindStockSkips(a[1..], b, productId);
    } else {
      assert a + b == b;
    }
  }

  /** Saving an existing entry changes that row's quantity and nothing else. */
  lemma SavedRowIsFound(stock: seq<StockRow>, id: string, quantity: int, now: int, k: int)
    requires 0 <= k < |stock| && stock[k].id == id
    ensures SetQuantity(stock, id, quantity, now)[k].quantity == Some(quantity)
    ensures forall i :: 0 <= i < |stock| ==>
      SetQuantity(stock, id, quantity, now)[i].productId == stock[i].productId &&
      SetQuantity(stock, id, quantity, now)[i].sucursal == stock[i].sucursal
  {
  }
}

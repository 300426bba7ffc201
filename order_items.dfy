/** src/hooks/useOrderItems.ts: adding, re-quantifying and deleting line items
    of an existing order. Each mutation writes the detail table and, only when
    that write succeeded, rewrites the order's header total from its items. */
module OrderItems {
  import opened Wrappers
  import opened Schema
  import opened LineItems

  /** The headers after updateOrderTotal: the fetched items' sum, or 0 when the
      item read handed back nothing, written to every row with that id unless
      the (unchecked) header write itself failed. */
  function TotalAfterRefresh(orders: seq<Order>, details: seq<Detail>, orderId: string,
                             itemsFetched: bool, written: bool): (r: seq<Order>)
    ensures |r| == |orders|
    ensures !written ==> r == orders
    ensures written && itemsFetched ==> TotalMatches(r, details, orderId)
    ensures written && !itemsFetched ==>
      forall i :: 0 <= i < |r| && orders[i].id == orderId ==> r[i].total == Some(0.0)
    ensures forall i :: 0 <= i < |orders| && orders[i].id != orderId ==> r[i] == orders[i]
    ensures forall i :: 0 <= i < |orders| ==> r[i] == orders[i].(total := r[i].total)
  {
    if written then SetTotal(orders, orderId, if itemsFetched then ComputedTotal(details, orderId) else 0.0)
    else orders
  }

  /** updateOrderTotal(orderId). */
  method UpdateOrderTotal(db: Database, orderId: string, itemsFetched: bool, written: bool)
    modifies db`orders
    ensures db.orders == TotalAfterRefresh(old(db.orders), db.details, orderId, itemsFetched, written)
  {
    var newTotal := if itemsFetched then ComputedTotal(db.details, orderId) else 0.0;
    if written {
      db.orders := SetTotal(db.orders, orderId, newTotal);
    }
  }

  /** `.update({ cantidad }).eq('id', itemId)`: only the cantidad of the rows
      with that id changes. */
  function SetCantidad(details: seq<Detail>, itemId: int, quantity: int): (r: seq<Detail>)
    ensures |r| == |details|
    ensures forall i :: 0 <= i < |details| && details[i].id == itemId ==>
      r[i] == details[i].(cantidad := Some(quantity))
    ensures forall i :: 0 <= i < |details| && details[i].id != itemId ==> r[i] == details[i]
  {
    seq(|details|, i requires 0 <= i < |details| =>
      if details[i].id == itemId then details[i].(cantidad := Some(quantity)) else details[i])
  }

  /** `.delete().eq('id', itemId)`: exactly the rows with that id disappear and
      the others keep their order. */
  function RemoveDetail(details: seq<Detail>, itemId: int): (r: seq<Detail>)
    ensures forall d :: d in r <==> d in details && d.id != itemId
    ensures |r| <= |details|
  {
    if details == [] then []
    else
      var last := details[|details| - 1];
      RemoveDetail(details[..|details| - 1], itemId) + (if last.id != itemId then [last] else [])
  }

  /** The rows a delete by id removes. */
  function RowsWithId(details: seq<Detail>, itemId: int): (r: seq<Detail>)
    ensures forall d :: d in r <==> d in details && d.id == itemId
  {
    if details == [] then []
    else
      var last := details[|details| - 1];
      RowsWithId(details[..|details| - 1], itemId) + (if last.id == itemId then [last] else [])
  }

  /** addItem: insert one detail row, then recompute the order's total. */
  method AddItem(db: Database, orderId: string, productId: int, quantity: int, price: real,
                 newId: int, insertOk: bool, itemsFetched: bool, written: bool)
    returns (r: Outcome)
    modifies db`details, db`orders
    ensures !insertOk ==> r.Fail? && db.details == old(db.details) && db.orders == old(db.orders)
    ensures insertOk ==> r.Pass?
    ensures insertOk ==>
      db.details == old(db.details) + [Detail(newId, orderId, productId, Some(quantity), Some(price))]
    ensures insertOk ==>
      db.orders == TotalAfterRefresh(old(db.orders), db.details, orderId, itemsFetched, written)
  {
    if !insertOk {
      return Fail("insert into orden_compra_detalles failed");
    }
    db.details := db.details + [Detail(newId, orderId, productId, Some(quantity), Some(price))];
    UpdateOrderTotal(db, orderId, itemsFetched, written);
    r := Pass;
  }

  /** updateItem: change the cantidad of one item, then recompute the total of
      the order the caller names. */
  method UpdateItem(db: Database, itemId: int, quantity: int, orderId: string,
                    updateOk: bool, itemsFetched: bool, written: bool)
    returns (r: Outcome)
    modifies db`details, db`orders
    ensures !updateOk ==> r.Fail? && db.details == old(db.details) && db.orders == old(db.orders)
    ensures updateOk ==> r.Pass? && db.details == SetCantidad(old(db.details), itemId, quantity)
    ensures updateOk ==>
      db.orders == TotalAfterRefresh(old(db.orders), db.details, orderId, itemsFetched, written)
  {
    if !updateOk {
      return Fail("update of orden_compra_detalles failed");
    }
    db.details := SetCantidad(db.details, itemId, quantity);
    UpdateOrderTotal(db, orderId, itemsFetched, written);
    r := Pass;
  }

  /** deleteItem: remove one item, then recompute the order's total. */
  method DeleteItem(db: Database, itemId: int, orderId: string,
                    deleteOk: bool, itemsFetched: bool, written: bool)
    returns (r: Outcome)
    modifies db`details, db`orders
    ensures !deleteOk ==> r.Fail? && db.details == old(db.details) && db.orders == old(db.orders)
    ensures deleteOk ==> r.Pass? && db.details == RemoveDetail(old(db.details), itemId)
    ensures deleteOk ==>
      db.orders == TotalAfterRefresh(old(db.orders), db.details, orderId, itemsFetched, written)
  {
    if !deleteOk {
      return Fail("delete from orden_compra_detalles failed");
    }
    db.details := RemoveDetail(db.details, itemId);
    UpdateOrderTotal(db, orderId, itemsFetched, written);
    r := Pass;
  }

  /** Deleting by id takes exactly the deleted rows' subtotals off the total. */
  lemma {:induction false} DeleteItemLowersTotal(details: seq<Detail>, itemId: int, orderId: string)
    ensures ComputedTotal(RemoveDetail(details, itemId), orderId) ==
      ComputedTotal(details, orderId) - ComputedTotal(RowsWithId(details, itemId), orderId)
  {
    if details != [] {
      var init := details[..|details| - 1];
      var last := details[|details| - 1];
      assert details == init + [last];
      DeleteItemLowersTotal(init, itemId, orderId);
      ComputedTotalAppend(init, [last], orderId);
      var kept := RemoveDetail(init, itemId);
      var gone := RowsWithId(init, itemId);
      if last.id == itemId {
        assert RemoveDetail(details, itemId) == kept;
        assert RowsWithId(details, itemId) == gone + [last];
        ComputedTotalAppend(gone, [last], orderId);
        assert ComputedTotal(RowsWithId(details, itemId), orderId) ==
          ComputedTotal(gone, orderId) + ComputedTotal([last], orderId);
      } else {
        assert RemoveDetail(details, itemId) == kept + [last];
        assert RowsWithId(details, itemId) == gone;
        ComputedTotalAppend(kept, [last], orderId);
        assert ComputedTotal(RemoveDetail(details, itemId), orderId) ==
          ComputedTotal(kept, orderId) + ComputedTotal([last], orderId);
      }
    }
  }

  /** Re-quantifying an item of another order never moves this order's total. */
  lemma {:induction false} UpdateItemLeavesOtherOrders(details: seq<Detail>, itemId: int, quantity: int,
                                                      orderId: string)
    requires forall d :: d in details && d.id == itemId ==> d.orderId != orderId
    ensures ComputedTotal(SetCantidad(details, itemId, quantity), orderId) == ComputedTotal(details, orderId)
  {
    var changed := SetCantidad(details, itemId, quantity);
    assert ItemsOf(changed, orderId) == ItemsOf(details, orderId) by {
      SameItemsWhenOtherOrder(details, changed, orderId);
    }
  }

  lemma {:induction false} SameItemsWhenOtherOrder(a: seq<Detail>, b: seq<Detail>, orderId: string)
    requires |a| == |b|
    requires forall i :: 0 <= i < |a| ==> a[i] == b[i] || (a[i].orderId != orderId && b[i].orderId != orderId)
    ensures ItemsOf(a, orderId) == ItemsOf(b, orderId)
  {
    if a != [] {
      SameItemsWhenOtherOrder(a[..|a| - 1], b[..|b| - 1], orderId);
    }
  }
}

/** src/hooks/useCreateOrder.ts: an order is created by inserting its header
    and then one detail row per cart line. The backend generates the header id,
    its folio, its creation time and the detail ids; they come in as inputs. */
module CreateOrder {
  import opened Wrappers
  import opened Schema
  import opened Cart
  import opened LineItems

  /** CreateOrderParams; an optional field the caller leaves undefined is None
      and is not sent, so the column keeps its default (null). */
  datatype OrderParams = OrderParams(
    customerName: string,
    customerPhone: Option<string>,
    deliveryDate: Option<string>,
    deliveryTime: Option<string>,
    deliveryType: string,
    deliveryAddress: Option<string>,
    paymentMethod: Option<string>,
    paymentStatus: Option<string>,
    total: real,
    sucursal: string,
    createdBy: string,
    notes: Option<string>,
    items: seq<CartLine>)

  /** The header row as inserted: always 'pending', a payment status of
      'pending' unless a non-empty one is given, the caller's total stored as
      given, and no paid amount yet. */
  function HeaderRow(params: OrderParams, id: string, folio: int, now: int): (o: Order)
    ensures o.id == id && o.status == "pending"
    ensures Truthy(params.paymentStatus) ==> o.paymentStatus == params.paymentStatus.value
    ensures !Truthy(params.paymentStatus) ==> o.paymentStatus == "pending"
    ensures o.total == Some(params.total) && o.paidAmount == None
    ensures o.customerName == params.customerName && o.sucursal == params.sucursal
    ensures o.createdBy == params.createdBy && o.notes == params.notes
    ensures o.folio == folio && o.createdAt == now
    ensures o.customerPhone == params.customerPhone
    ensures o.deliveryDate == params.deliveryDate && o.deliveryTime == params.deliveryTime
    ensures o.deliveryType == params.deliveryType && o.deliveryAddress == params.deliveryAddress
    ensures o.paymentMethod == params.paymentMethod
  {
    Order(id, folio, params.customerName, params.customerPhone, params.sucursal,
          params.deliveryDate, params.deliveryTime, params.deliveryType, params.deliveryAddress,
          params.paymentMethod, "pending", OrElse(params.paymentStatus, "pending"),
          None, Some(params.total), now, params.createdBy, params.notes)
  }

  /** `items.map(...)`: one detail per cart line, in cart order, under the new
      header's id, with the line's quantity and the product's price at creation
      time. */
  function DetailRows(items: seq<CartLine>, orderId: string, firstId: int): (r: seq<Detail>)
    ensures |r| == |items|
    ensures forall i :: 0 <= i < |items| ==>
      r[i] == Detail(firstId + i, orderId, items[i].product.id, Some(items[i].quantity), Some(items[i].product.precio))
  {
    seq(|items|, i requires 0 <= i < |items| =>
      Detail(firstId + i, orderId, items[i].product.id, Some(items[i].quantity), Some(items[i].product.precio)))
  }

  /** The new order: header first; its details only when the header insert
      succeeded. A failed detail insert raises after the header exists, and
      nothing removes it. */
  method CreateOrder(db: Database, params: OrderParams, newId: string, folio: int, now: int,
                     firstDetailId: int, headerOk: bool, itemsOk: bool)
    returns (r: Result<Order>)
    modifies db`orders, db`details
    ensures !headerOk ==> r.Err? && db.orders == old(db.orders) && db.details == old(db.details)
    ensures headerOk ==> db.orders == old(db.orders) + [HeaderRow(params, newId, folio, now)]
    ensures headerOk && !itemsOk ==> r.Err? && db.details == old(db.details)
    ensures headerOk && itemsOk ==>
      r == Ok(HeaderRow(params, newId, folio, now)) &&
      db.details == old(db.details) + DetailRows(params.items, newId, firstDetailId)
  {
    if !headerOk {
      return Err("insert into ordenes_compra failed");
    }
    var order := HeaderRow(params, newId, folio, now);
    db.orders := db.orders + [order];
    if !itemsOk {
      return Err("insert into orden_compra_detalles failed");
    }
    db.details := db.details + DetailRows(params.items, newId, firstDetailId);
    r := Ok(order);
  }

  /** The detail rows of a new order add up to the cart's total. */
  lemma {:induction false} DetailRowsTotal(items: seq<CartLine>, orderId: string, firstId: int)
    ensures ComputedTotal(DetailRows(items, orderId, firstId), orderId) == TotalAmount(items)
  {
    if items != [] {
      var n := |items| - 1;
      var rows := DetailRows(items, orderId, firstId);
      var prefix := DetailRows(items[..n], orderId, firstId);
      var line := items[n];
      forall i | 0 <= i < n
        ensures rows[i] == prefix[i]
      {
        assert items[..n][i] == items[i];
      }
      assert rows == prefix + [rows[n]];
      DetailRowsTotal(items[..n], orderId, firstId);
      AppendRowTotal(prefix, rows[n], orderId);
      LineSubtotal(line, rows[n]);
      assert ComputedTotal(rows, orderId) == ComputedTotal(prefix, orderId) + Subtotal(rows[n]);
      TotalAmountLast(items);
    } else {
      assert DetailRows(items, orderId, firstId) == [];
    }
  }

  /** When the caller submits the cart's total (as the new-order screen does)
      and the new id has no detail rows yet, the created order's stored total is
      exactly the sum of its line items. */
  lemma CreatedOrderTotalMatches(details: seq<Detail>, params: OrderParams, newId: string, folio: int,
                                 now: int, firstId: int)
    requires params.total == TotalAmount(params.items)
    requires forall d :: d in details ==> d.orderId != newId
    ensures ComputedTotal(details + DetailRows(params.items, newId, firstId), newId) ==
      OrZeroReal(HeaderRow(params, newId, folio, now).total)
  {
    ComputedTotalAppend(details, DetailRows(params.items, newId, firstId), newId);
    NoRowsComputesZero(details, newId);
    DetailRowsTotal(params.items, newId, firstId);
  }

  /** A detail written from a cart line is worth what the line is worth. */
  lemma LineSubtotal(line: CartLine, d: Detail)
    requires d.cantidad == Some(line.quantity) && d.precioUnitario == Some(line.product.precio)
    ensures Subtotal(d) == LineAmount(line)
  {
  }
}

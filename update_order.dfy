/** src/hooks/useUpdateOrder.ts: the order screen changes an order's delivery
    status, payment status, paid amount or notes by building a patch field by
    field and applying it to the one header row with the order's id. */
module UpdateOrder {
  import opened Wrappers
  import opened Schema
  import Payments

  /** UpdateOrderParams; a field the caller leaves undefined is None. */
  datatype UpdateOrderParams = UpdateOrderParams(
    id: string,
    status: Option<string>,
    paymentStatus: Option<string>,
    paidAmount: Option<real>,
    notes: Option<string>)

  /** The `updates` object: a field is present iff it is Some. It has no slot
      for the id, so the id can never be rewritten. */
  datatype OrderPatch = OrderPatch(
    status: Option<string>,
    paymentStatus: Option<string>,
    paidAmount: Option<real>,
    notes: Option<string>)

  /** The `updates` object the source builds: the two status fields enter only
      when truthy (an empty string is skipped), the paid amount and the notes
      whenever they are given (0 and '' included). */
  function PatchOf(params: UpdateOrderParams): (patch: OrderPatch)
    ensures patch.status.Some? <==> Truthy(params.status)
    ensures patch.status.Some? ==> patch.status == params.status
    ensures patch.paymentStatus.Some? <==> Truthy(params.paymentStatus)
    ensures patch.paymentStatus.Some? ==> patch.paymentStatus == params.paymentStatus
    ensures patch.paidAmount == params.paidAmount
    ensures patch.notes == params.notes
  {
    OrderPatch(
      if Truthy(params.status) then params.status else None,
      if Truthy(params.paymentStatus) then params.paymentStatus else None,
      params.paidAmount,
      params.notes)
  }

  /** `const updates: any = {}` followed by the four guarded assignments. */
  method BuildPatch(params: UpdateOrderParams) returns (patch: OrderPatch)
    ensures patch == PatchOf(params)
  {
    patch := OrderPatch(None, None, None, None);
    if Truthy(params.status) {
      patch := patch.(status := params.status);
    }
    if Truthy(params.paymentStatus) {
      patch := patch.(paymentStatus := params.paymentStatus);
    }
    if params.paidAmount.Some? {
      patch := patch.(paidAmount := params.paidAmount);
    }
    if params.notes.Some? {
      patch := patch.(notes := params.notes);
    }
  }

  /** The row after `.update(patch)`: exactly the fields present in the patch
      take its values. */
  function ApplyPatch(o: Order, patch: OrderPatch): (r: Order)
    ensures patch == OrderPatch(None, None, None, None) ==> r == o
    ensures r.status == (if patch.status.Some? then patch.status.value else o.status)
    ensures r.paymentStatus == (if patch.paymentStatus.Some? then patch.paymentStatus.value else o.paymentStatus)
    ensures r.paidAmount == (if patch.paidAmount.Some? then patch.paidAmount else o.paidAmount)
    ensures r.notes == (if patch.notes.Some? then patch.notes else o.notes)
    ensures r.(status := o.status, paymentStatus := o.paymentStatus, paidAmount := o.paidAmount, notes := o.notes) == o
  {
    var s := if patch.status.Some? then o.(status := patch.status.value) else o;
    var ps := if patch.paymentStatus.Some? then s.(paymentStatus := patch.paymentStatus.value) else s;
    var pa := if patch.paidAmount.Some? then ps.(paidAmount := patch.paidAmount) else ps;
    if patch.notes.Some? then pa.(notes := patch.notes) else pa
  }

  /** `.update(patch).eq('id', id)` over the table. */
  function PatchRows(orders: seq<Order>, id: string, patch: OrderPatch): (r: seq<Order>)
    ensures |r| == |orders|
    ensures forall i :: 0 <= i < |orders| && orders[i].id == id ==> r[i] == ApplyPatch(orders[i], patch)
    ensures forall i :: 0 <= i < |orders| && orders[i].id != id ==> r[i] == orders[i]
  {
    seq(|orders|, i requires 0 <= i < |orders| => if orders[i].id == id then ApplyPatch(orders[i], patch) else orders[i])
  }

  /** updateOrder: patch the one row with the id and return it; `.single()`
      raises unless exactly one row matches, and then the update is not kept. */
  method UpdateOrder(db: Database, params: UpdateOrderParams, ok: bool) returns (r: Result<Order>)
    modifies db`orders
    ensures !ok || |Payments.OrdersWithId(old(db.orders), params.id)| != 1 ==>
      r.Err? && db.orders == old(db.orders)
    ensures ok && |Payments.OrdersWithId(old(db.orders), params.id)| == 1 ==>
      && db.orders == PatchRows(old(db.orders), params.id, PatchOf(params))
      && r == Ok(ApplyPatch(Payments.OrdersWithId(old(db.orders), params.id)[0], PatchOf(params)))
  {
    var patch := BuildPatch(params);
    var matches := Payments.OrdersWithId(db.orders, params.id);
    if !ok || |matches| != 1 {
      return Err("update of ordenes_compra did not return exactly one row");
    }
    db.orders := PatchRows(db.orders, params.id, patch);
    r := Ok(ApplyPatch(matches[0], patch));
  }

  /** Applying the same patch twice changes nothing more than applying it once. */
  lemma PatchIsIdempotent(orders: seq<Order>, id: string, patch: OrderPatch)
    ensures PatchRows(PatchRows(orders, id, patch), id, patch) == PatchRows(orders, id, patch)
  {
    var once := PatchRows(orders, id, patch);
    forall i | 0 <= i < |orders|
      ensures PatchRows(once, id, patch)[i] == once[i]
    {
      if orders[i].id == id {
        var o := orders[i];
        var a := ApplyPatch(o, patch);
        assert ApplyPatch(a, patch) == a;
      }
    }
  }

  /** The status buttons of the order screen send only a status (or only a
      payment status); the row then changes in that column alone. */
  lemma StatusButtonSetsOnlyStatus(o: Order, id: string, status: string)
    requires status in ["pending", "delivered", "cancelled"]
    ensures ApplyPatch(o, PatchOf(UpdateOrderParams(id, Some(status), None, None, None))) == o.(status := status)
  {
  }

  lemma PaymentButtonSetsOnlyPaymentStatus(o: Order, id: string, status: string)
    requires status in ["pending", "abono", "paid"]
    ensures ApplyPatch(o, PatchOf(UpdateOrderParams(id, None, Some(status), None, None))) ==
      o.(paymentStatus := status)
  {
  }

  /** Only the order with the id changes; every other order is left as it was,
      and the patched one keeps its id. */
  lemma PatchTouchesOnlyThatOrder(orders: seq<Order>, id: string, patch: OrderPatch)
    ensures forall o :: o in orders && o.id != id ==> o in PatchRows(orders, id, patch)
    ensures forall i :: 0 <= i < |orders| ==> PatchRows(orders, id, patch)[i].id == orders[i].id
    ensures forall i :: 0 <= i < |orders| ==>
      PatchRows(orders, id, patch)[i].total == orders[i].total &&
      PatchRows(orders, id, patch)[i].createdBy == orders[i].createdBy
  {
    var r := PatchRows(orders, id, patch);
    forall o | o in orders && o.id != id
      ensures o in r
    {
      var i :| 0 <= i < |orders| && orders[i] == o;
      assert r[i] == o;
    }
  }
}

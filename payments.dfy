/** src/hooks/useOrderPayments.ts: the append-only payment ledger of an order
    and the running `paid_amount` on its header, kept by read-modify-write. */
module Payments {
  import opened Wrappers
  import opened Schema
  import opened Ordering

  /** A listed payment: the row itself plus the `creator_name` annotation. */
  datatype ListedPayment = ListedPayment(payment: Payment, creatorName: string)

  /** `.eq('order_id', orderId)` on the ledger, in table order. */
  function PaymentsOf(payments: seq<Payment>, orderId: string): (r: seq<Payment>)
    ensures forall p :: p in r <==> p in payments && p.orderId == orderId
  {
    if payments == [] then []
    else
      var last := payments[|payments| - 1];
      PaymentsOf(payments[..|payments| - 1], orderId) + (if last.orderId == orderId then [last] else [])
  }

  /** `.order('created_at', { ascending: false })`. */
  predicate NewerOrSame(a: Payment, b: Payment)
  {
    a.createdAt >= b.createdAt
  }

  lemma NewestFirstIsTotalPreorder()
    ensures TotalPreorder(NewerOrSame)
  {
  }

  /** The first profile with the given id (the `profiles:created_by` join). */
  function FindProfile(profiles: seq<Profile>, id: string): (r: Option<Profile>)
    ensures r.Some? ==> r.value in profiles && r.value.id == id
    ensures r.None? ==> forall p :: p in profiles ==> p.id != id
  {
    if profiles == [] then None
    else if profiles[0].id == id then Some(profiles[0])
    else FindProfile(profiles[1..], id)
  }

  /** `Payment.profiles?.full_name || 'Desconocido'`. */
  function CreatorName(profiles: seq<Profile>, createdBy: Option<string>): (r: string)
    ensures r != ""
    ensures createdBy.None? ==> r == "Desconocido"
    ensures createdBy.Some? && (forall p :: p in profiles ==> p.id != createdBy.value) ==> r == "Desconocido"
    ensures r != "Desconocido" ==>
      exists p :: p in profiles && Some(p.id) == createdBy && p.fullName == Some(r)
    ensures createdBy.Some? && FindProfile(profiles, createdBy.value).Some? ==>
      r == OrElse(FindProfile(profiles, createdBy.value).value.fullName, "Desconocido")
  {
    match createdBy
    case None => "Desconocido"
    case Some(id) =>
      match FindProfile(profiles, id)
      case None => "Desconocido"
      case Some(p) => OrElse(p.fullName, "Desconocido")
  }

  /** The `data.map(...)` annotation: every field kept, creator_name added. */
  function Annotate(ps: seq<Payment>, profiles: seq<Profile>): (r: seq<ListedPayment>)
    ensures |r| == |ps|
    ensures forall i :: 0 <= i < |ps| ==> r[i].payment == ps[i]
    ensures forall i :: 0 <= i < |ps| ==> r[i].creatorName == CreatorName(profiles, ps[i].createdBy)
  {
    seq(|ps|, i requires 0 <= i < |ps| => ListedPayment(ps[i], CreatorName(profiles, ps[i].createdBy)))
  }

  function Rows(listed: seq<ListedPayment>): (r: seq<Payment>)
    ensures |r| == |listed|
    ensures forall i :: 0 <= i < |listed| ==> r[i] == listed[i].payment
  {
    seq(|listed|, i requires 0 <= i < |listed| => listed[i].payment)
  }

  /** The payments query: disabled for an empty order id, an error when the read
      fails, otherwise the order's payments newest-first, each annotated. */
  function ListPayments(payments: seq<Payment>, profiles: seq<Profile>, orderId: string, fetchOk: bool)
    : (r: Fetch<seq<ListedPayment>>)
    ensures orderId == "" ==> r.NoData?
    ensures orderId != "" && !fetchOk ==> r.FetchError?
    ensures orderId != "" && fetchOk ==> r.Data?
    ensures r.Data? ==> multiset(Rows(r.rows)) == multiset(PaymentsOf(payments, orderId))
    ensures r.Data? ==> forall i, j :: 0 <= i < j < |r.rows| ==> r.rows[i].payment.createdAt >= r.rows[j].payment.createdAt
    ensures r.Data? ==> forall i :: 0 <= i < |r.rows| ==>
      r.rows[i].creatorName == CreatorName(profiles, r.rows[i].payment.createdBy)
  {
    if orderId == "" then NoData
    else if !fetchOk then FetchError
    else
      NewestFirstIsTotalPreorder();
      var sorted := SortBy(PaymentsOf(payments, orderId), NewerOrSame);
      var listed := Annotate(sorted, profiles);
      assert Rows(listed) == sorted;
      Data(listed)
  }

  /** The header rows carrying an id. */
  function OrdersWithId(orders: seq<Order>, orderId: string): (r: seq<Order>)
    ensures forall o :: o in r <==> o in orders && o.id == orderId
  {
    if orders == [] then []
    else
      var last := orders[|orders| - 1];
      OrdersWithId(orders[..|orders| - 1], orderId) + (if last.id == orderId then [last] else [])
  }

  /** `.eq('id', orderId).single()`: the row when exactly one matches, else null. */
  function SingleRow(orders: seq<Order>, orderId: string): (r: Option<Order>)
    ensures r.Some? ==> r.value in orders && r.value.id == orderId
  {
    var matches := OrdersWithId(orders, orderId);
    if |matches| == 1 then
      assert matches[0] in matches;
      Some(matches[0])
    else None
  }

  /** `.update({ paid_amount }).eq('id', orderId)`. */
  function SetPaid(orders: seq<Order>, orderId: string, paid: real): (r: seq<Order>)
    ensures |r| == |orders|
    ensures forall i :: 0 <= i < |orders| && orders[i].id == orderId ==>
      r[i] == orders[i].(paidAmount := Some(paid))
    ensures forall i :: 0 <= i < |orders| && orders[i].id != orderId ==> r[i] == orders[i]
  {
    seq(|orders|, i requires 0 <= i < |orders| =>
      if orders[i].id == orderId then orders[i].(paidAmount := Some(paid)) else orders[i])
  }

  /** The headers after the read-modify-write of step 2: the value read (null,
      when the read fails or does not find exactly one row, counts as 0) plus the
      amount, written unless the unchecked write fails. */
  function PaidAfter(orders: seq<Order>, orderId: string, amount: real, readOk: bool, written: bool)
    : seq<Order>
  {
    var current := if readOk then SingleRow(orders, orderId) else None;
    var newTotal := (if current.Some? then OrZeroReal(current.value.paidAmount) else 0.0) + amount;
    if written then SetPaid(orders, orderId, newTotal) else orders
  }

  /** addPayment: append the payment, then bump the header's paid_amount. */
  method AddPayment(db: Database, orderId: string, amount: real, notes: Option<string>,
                    newId: string, now: int, userId: Option<string>,
                    insertOk: bool, readOk: bool, written: bool)
    returns (r: Outcome)
    modifies db`payments, db`orders
    ensures !insertOk ==> r.Fail? && db.payments == old(db.payments) && db.orders == old(db.orders)
    ensures insertOk ==> r.Pass?
    ensures insertOk ==> db.payments == old(db.payments) + [Payment(newId, orderId, amount, notes, now, userId)]
    ensures insertOk ==> db.orders == PaidAfter(old(db.orders), orderId, amount, readOk, written)
  {
    if !insertOk {
      return Fail("insert into orden_pagos failed");
    }
    db.payments := db.payments + [Payment(newId, orderId, amount, notes, now, userId)];
    var order := if readOk then SingleRow(db.orders, orderId) else None;
    var newTotal := (if order.Some? then OrZeroReal(order.value.paidAmount) else 0.0) + amount;
    if written {
      db.orders := SetPaid(db.orders, orderId, newTotal);
    }
    r := Pass;
  }

  /** The order has exactly one header row, at index k. */
  predicate UniqueRow(orders: seq<Order>, orderId: string, k: int)
  {
    && 0 <= k < |orders|
    && orders[k].id == orderId
    && forall i :: 0 <= i < |orders| && i != k ==> orders[i].id != orderId
  }

  lemma {:induction false} NoMatchNoRows(orders: seq<Order>, orderId: string)
    requires forall i :: 0 <= i < |orders| ==> orders[i].id != orderId
    ensures OrdersWithId(orders, orderId) == []
  {
    if orders != [] {
      NoMatchNoRows(orders[..|orders| - 1], orderId);
    }
  }

  lemma {:induction false} UniqueRowIsSingle(orders: seq<Order>, orderId: string, k: int)
    requires UniqueRow(orders, orderId, k)
    ensures OrdersWithId(orders, orderId) == [orders[k]]
  {
    var init := orders[..|orders| - 1];
    if k == |orders| - 1 {
      NoMatchNoRows(init, orderId);
    } else {
      UniqueRowIsSingle(init, orderId, k);
    }
  }

  /** With one header row and a successful read and write, paid_amount grows by
      exactly the amount (a null paid_amount counting as 0) and no other row or
      column changes. */
  lemma PaidIncrements(orders: seq<Order>, orderId: string, amount: real, k: int)
    requires UniqueRow(orders, orderId, k)
    ensures |PaidAfter(orders, orderId, amount, true, true)| == |orders|
    ensures PaidAfter(orders, orderId, amount, true, true)[k] ==
      orders[k].(paidAmount := Some(OrZeroReal(orders[k].paidAmount) + amount))
    ensures forall i :: 0 <= i < |orders| && i != k ==> PaidAfter(orders, orderId, amount, true, true)[i] == orders[i]
  {
    UniqueRowIsSingle(orders, orderId, k);
  }

  /** As written, a failed read counts as paid_amount 0: the header then holds
      only the new amount and earlier payments drop out of paid_amount. */
  lemma FailedReadForgetsEarlierPayments(orders: seq<Order>, orderId: string, amount: real, k: int)
    requires UniqueRow(orders, orderId, k)
    ensures PaidAfter(orders, orderId, amount, false, true)[k].paidAmount == Some(amount)
  {
  }

  function Sum(amounts: seq<real>): real
  {
    if amounts == [] then 0.0 else Sum(amounts[..|amounts| - 1]) + amounts[|amounts| - 1]
  }

  /** Successive successful addPayment calls, one per amount. */
  function PaidAfterAll(orders: seq<Order>, orderId: string, amounts: seq<real>): seq<Order>
  {
    if amounts == [] then orders
    else PaidAfter(PaidAfterAll(orders, orderId, amounts[..|amounts| - 1]), orderId, amounts[|amounts| - 1], true, true)
  }

  /** Starting from paid_amount 0 (or null), sequential payments leave
      paid_amount equal to the sum of the amounts paid, and the row keeps every
      other column. */
  lemma {:induction false} PaidIsSumOfPayments(orders: seq<Order>, orderId: string, amounts: seq<real>, k: int)
    requires UniqueRow(orders, orderId, k)
    requires OrZeroReal(orders[k].paidAmount) == 0.0
    ensures UniqueRow(PaidAfterAll(orders, orderId, amounts), orderId, k)
    ensures OrZeroReal(PaidAfterAll(orders, orderId, amounts)[k].paidAmount) == Sum(amounts)
    ensures PaidAfterAll(orders, orderId, amounts)[k] ==
      orders[k].(paidAmount := PaidAfterAll(orders, orderId, amounts)[k].paidAmount)
  {
    if amounts != [] {
      var before := PaidAfterAll(orders, orderId, amounts[..|amounts| - 1]);
      PaidIsSumOfPayments(orders, orderId, amounts[..|amounts| - 1], k);
      PaidIncrements(before, orderId, amounts[|amounts| - 1], k);
    }
  }

  /** The ledger only grows: every earlier payment is still listed after a
      successful addPayment, and the new one is listed under its order. */
  lemma LedgerIsAppendOnly(payments: seq<Payment>, p: Payment)
    ensures PaymentsOf(payments + [p], p.orderId) == PaymentsOf(payments, p.orderId) + [p]
    ensures forall id :: id != p.orderId ==> PaymentsOf(payments + [p], id) == PaymentsOf(payments, id)
  {
    assert (payments + [p])[..|payments|] == payments;
  }
}

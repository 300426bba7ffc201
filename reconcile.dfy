/** src/hooks/useRecalculateTotals.ts: the self-healing pass over a batch of
    loaded orders. It sums the detail rows of the batch into a map keyed by order
    id, then writes a correction for every order whose stored total differs from
    that sum by more than 0.01. */
module Reconcile {
  import opened Wrappers
  import opened Schema
  import opened LineItems

  /** One queued `.update({ total }).eq('id', orderId)`. */
  datatype Correction = Correction(orderId: string, total: real)

  function Abs(x: real): real
  {
    if x < 0.0 then -x else x
  }

  /** The 0.01 tolerance test; a null stored total subtracts as 0. */
  predicate Drifts(o: Order, computed: real)
  {
    Abs(OrZeroReal(o.total) - computed) > 0.01
  }

  /** `.in('order_id', orderIds)`: the detail rows of the batch's orders. */
  function FetchedDetails(details: seq<Detail>, orderIds: seq<string>): (r: seq<Detail>)
    ensures forall d :: d in r <==> d in details && d.orderId in orderIds
  {
    if details == [] then []
    else
      var last := details[|details| - 1];
      FetchedDetails(details[..|details| - 1], orderIds) + (if last.orderId in orderIds then [last] else [])
  }

  function Ids(orders: seq<Order>): (r: seq<string>)
    ensures |r| == |orders|
    ensures forall i :: 0 <= i < |orders| ==> r[i] == orders[i].id
  {
    seq(|orders|, i requires 0 <= i < |orders| => orders[i].id)
  }

  /** The corrections the pass queues, in batch order: one per drifting order,
      carrying the order's computed total. */
  function Corrections(orders: seq<Order>, details: seq<Detail>): seq<Correction>
  {
    if orders == [] then []
    else
      var o := orders[|orders| - 1];
      var computed := ComputedTotal(details, o.id);
      Corrections(orders[..|orders| - 1], details) + (if Drifts(o, computed) then [Correction(o.id, computed)] else [])
  }

  /** The total the last queued correction for an id writes, if any. */
  function LastFor(cs: seq<Correction>, orderId: string): Option<real>
  {
    if cs == [] then None
    else if cs[|cs| - 1].orderId == orderId then Some(cs[|cs| - 1].total)
    else LastFor(cs[..|cs| - 1], orderId)
  }

  /** The order table once every queued update has landed. */
  function ApplyCorrections(orders: seq<Order>, cs: seq<Correction>): (r: seq<Order>)
    ensures |r| == |orders|
    ensures forall i :: 0 <= i < |orders| && LastFor(cs, orders[i].id).None? ==> r[i] == orders[i]
    ensures forall i :: 0 <= i < |orders| && LastFor(cs, orders[i].id).Some? ==>
      r[i] == orders[i].(total := Some(LastFor(cs, orders[i].id).value))
  {
    seq(|orders|, i requires 0 <= i < |orders| =>
      match LastFor(cs, orders[i].id)
      case None => orders[i]
      case Some(t) => orders[i].(total := Some(t)))
  }

  /** Steps 1-3: `realTotals`, every batch id seeded with 0 and then credited
      with the subtotal of each fetched row whose order is in the batch. */
  method RealTotals(orderIds: seq<string>, fetched: seq<Detail>) returns (totals: map<string, real>)
    ensures totals.Keys == set id | id in orderIds
    ensures forall id :: id in totals ==> totals[id] == ComputedTotal(fetched, id)
  {
    totals := ZeroTotals(orderIds);
    totals := CreditRows(totals, fetched);
  }

  /** Every batch id starts at 0. */
  method ZeroTotals(orderIds: seq<string>) returns (totals: map<string, real>)
    ensures totals.Keys == set id | id in orderIds
    ensures forall id :: id in totals ==> totals[id] == 0.0
  {
    totals := map[];
    for i := 0 to |orderIds|
      invariant totals.Keys == set id | id in orderIds[..i]
      invariant forall id :: id in totals ==> totals[id] == 0.0
    {
      assert orderIds[..i + 1] == orderIds[..i] + [orderIds[i]];
      totals := totals[orderIds[i] := 0.0];
    }
    assert orderIds[..|orderIds|] == orderIds;
  }

  /** Each fetched row adds its subtotal to its order's entry, when the map
      has one; no entry is added. */
  method CreditRows(zeroed: map<string, real>, fetched: seq<Detail>) returns (totals: map<string, real>)
    requires forall id :: id in zeroed ==> zeroed[id] == 0.0
    ensures totals.Keys == zeroed.Keys
    ensures forall id :: id in totals ==> totals[id] == ComputedTotal(fetched, id)
  {
    totals := zeroed;
    assert fetched[..0] == [];
    for j := 0 to |fetched|
      invariant totals.Keys == zeroed.Keys
      invariant forall id :: id in totals ==> totals[id] == ComputedTotal(fetched[..j], id)
    {
      var d := fetched[j];
      assert fetched[..j + 1] == fetched[..j] + [d];
      ghost var before := totals;
      if d.orderId in totals {
        totals := totals[d.orderId := totals[d.orderId] + Subtotal(d)];
      }
      CreditRow(before, totals, fetched[..j], d);
    }
    assert fetched[..|fetched|] == fetched;
  }

  /** Crediting one more fetched row to its order, when the order is in the
      map, keeps every entry equal to the total over the rows seen so far. */
  lemma CreditRow(before: map<string, real>, after: map<string, real>, seen: seq<Detail>, d: Detail)
    requires forall id :: id in before ==> before[id] == ComputedTotal(seen, id)
    requires after == if d.orderId in before then before[d.orderId := before[d.orderId] + Subtotal(d)] else before
    ensures after.Keys == before.Keys
    ensures forall id :: id in after ==> after[id] == ComputedTotal(seen + [d], id)
  {
    forall id | id in after
      ensures after[id] == ComputedTotal(seen + [d], id)
    {
      AppendRowTotal(seen, d, id);
    }
  }

  /** Step 4: compare each order of the batch with its real total and queue a
      correction when it drifts. */
  method PlanCorrections(orders: seq<Order>, details: seq<Detail>, totals: map<string, real>)
    returns (updates: seq<Correction>, updateCount: nat)
    requires forall o :: o in orders ==> o.id in totals && totals[o.id] == ComputedTotal(details, o.id)
    ensures updates == Corrections(orders, details)
    ensures updateCount == |updates|
  {
    updates := [];
    updateCount := 0;
    for i := 0 to |orders|
      invariant updates == Corrections(orders[..i], details)
      invariant updateCount == |updates|
    {
      assert orders[..i + 1][..i] == orders[..i];
      var calculatedTotal := totals[orders[i].id];
      if Drifts(orders[i], calculatedTotal) {
        updates := updates + [Correction(orders[i].id, calculatedTotal)];
        updateCount := updateCount + 1;
      }
    }
    assert orders[..|orders|] == orders;
  }

  /** Steps 1-3 for a batch: the ids, the fetched rows and the `realTotals`
      map, which holds every batch order's total over the whole detail table. */
  method BatchTotals(orders: seq<Order>, details: seq<Detail>) returns (totals: map<string, real>)
    ensures forall o :: o in orders ==> o.id in totals && totals[o.id] == ComputedTotal(details, o.id)
  {
    var orderIds := Ids(orders);
    var fetched := FetchedDetails(details, orderIds);
    totals := RealTotals(orderIds, fetched);
    forall o | o in orders
      ensures o.id in totals && totals[o.id] == ComputedTotal(details, o.id)
    {
      var i :| 0 <= i < |orders| && orders[i] == o;
      assert orderIds[i] == o.id;
      FetchedTotalIsComplete(details, orderIds, o.id);
    }
  }

  /** The queued updates whose request succeeds, in queue order. `failed`
      holds the queue positions whose request comes back with an error; the
      pass never looks at those errors. */
  function Landed(cs: seq<Correction>, failed: set<nat>): (r: seq<Correction>)
    ensures forall c :: c in r ==> c in cs
    ensures |r| <= |cs|
  {
    if cs == [] then []
    else
      var n := |cs| - 1;
      Landed(cs[..n], failed) + (if n in failed then [] else [cs[n]])
  }

  /** Step 5: the queued updates are sent one after another; a failed one
      leaves its row as it was. */
  method ApplyAll(db: Database, updates: seq<Correction>, failed: set<nat>)
    modifies db`orders
    ensures db.orders == ApplyCorrections(old(db.orders), Landed(updates, failed))
  {
    for k := 0 to |updates|
      invariant db.orders == ApplyCorrections(old(db.orders), Landed(updates[..k], failed))
    {
      assert updates[..k + 1][..k] == updates[..k];
      if k !in failed {
        assert Landed(updates[..k + 1], failed) == Landed(updates[..k], failed) + [updates[k]];
        ApplyOneMore(old(db.orders), Landed(updates[..k], failed), updates[k]);
        db.orders := SetTotal(db.orders, updates[k].orderId, updates[k].total);
      } else {
        assert Landed(updates[..k + 1], failed) == Landed(updates[..k], failed) + [];
        assert Landed(updates[..k], failed) + [] == Landed(updates[..k], failed);
      }
    }
    assert updates[..|updates|] == updates;
  }

  /** The whole pass over a loaded batch (`orders` may be undefined). The batch
      is the snapshot the list screen holds; the writes go to the table. The
      count and the invalidation cover every queued update, including those
      whose request failed. */
  method Recalculate(db: Database, batch: Option<seq<Order>>, fetchOk: bool, failed: set<nat>)
    returns (updateCount: nat, invalidated: bool)
    modifies db`orders
    ensures batch.None? || batch.value == [] || !fetchOk ==>
      db.orders == old(db.orders) && updateCount == 0 && !invalidated
    ensures batch.Some? && batch.value != [] && fetchOk ==>
      && db.orders == ApplyCorrections(old(db.orders), Landed(Corrections(batch.value, db.details), failed))
      && updateCount == |Corrections(batch.value, db.details)|
      && (invalidated <==> updateCount > 0)
  {
    updateCount, invalidated := 0, false;
    if batch.None? || |batch.value| == 0 || !fetchOk {
      return;
    }
    var totals := BatchTotals(batch.value, db.details);
    var updates;
    updates, updateCount := PlanCorrections(batch.value, db.details, totals);
    ApplyAll(db, updates, failed);
    invalidated := updateCount > 0;
  }

  /** With no failed request every queued update lands. */
  lemma {:induction false} AllLandWithoutFailures(cs: seq<Correction>)
    ensures Landed(cs, {}) == cs
  {
    if cs != [] {
      AllLandWithoutFailures(cs[..|cs| - 1]);
      assert cs == cs[..|cs| - 1] + [cs[|cs| - 1]];
    }
  }

  /** An update lands unless its own request failed. */
  lemma {:induction false} LandsUnlessFailed(cs: seq<Correction>, failed: set<nat>, j: nat)
    requires j < |cs| && j !in failed
    ensures cs[j] in Landed(cs, failed)
  {
    var n := |cs| - 1;
    if j < n {
      LandsUnlessFailed(cs[..n], failed, j);
    }
  }

  /** An order none of whose queued updates succeeded keeps its stored row,
      total included, although the pass counted it as corrected. */
  lemma FailedWriteKeepsRow(orders: seq<Order>, cs: seq<Correction>, failed: set<nat>, i: int)
    requires 0 <= i < |orders|
    requires forall j :: 0 <= j < |cs| && cs[j].orderId == orders[i].id ==> j in failed
    ensures ApplyCorrections(orders, Landed(cs, failed))[i] == orders[i]
  {
    var landed := Landed(cs, failed);
    NoneLandFor(cs, failed, orders[i].id);
    if LastFor(landed, orders[i].id).Some? {
      LastForIsQueued(landed, orders[i].id);
    }
  }

  /** Since the pass ignores failed writes, a drifting order whose writes all
      failed is queued again, with the same total, by the next pass. */
  lemma FailedOrderIsRequeued(orders: seq<Order>, details: seq<Detail>, failed: set<nat>, i: int)
    requires 0 <= i < |orders|
    requires Drifts(orders[i], ComputedTotal(details, orders[i].id))
    requires forall j ::
      (0 <= j < |Corrections(orders, details)| && Corrections(orders, details)[j].orderId == orders[i].id) ==> j in failed
    ensures Correction(orders[i].id, ComputedTotal(details, orders[i].id)) in
      Corrections(ApplyCorrections(orders, Landed(Corrections(orders, details), failed)), details)
  {
    var after := ApplyCorrections(orders, Landed(Corrections(orders, details), failed));
    FailedWriteKeepsRow(orders, Corrections(orders, details), failed, i);
    DriftingOrdersCorrected(after, details);
    LastForIsQueued(Corrections(after, details), orders[i].id);
  }

  lemma {:induction false} NoneLandFor(cs: seq<Correction>, failed: set<nat>, orderId: string)
    requires forall j :: 0 <= j < |cs| && cs[j].orderId == orderId ==> j in failed
    ensures forall c :: c in Landed(cs, failed) ==> c.orderId != orderId
  {
    if cs != [] {
      NoneLandFor(cs[..|cs| - 1], failed, orderId);
    }
  }

  /** Landing one more update is one more `.update().eq('id', …)`. */
  lemma ApplyOneMore(orders: seq<Order>, cs: seq<Correction>, c: Correction)
    ensures ApplyCorrections(orders, cs + [c]) == SetTotal(ApplyCorrections(orders, cs), c.orderId, c.total)
  {
    assert (cs + [c])[..|cs|] == cs;
  }

  /** Restricting the fetch to the batch's ids loses no row of a batch order. */
  lemma {:induction false} FetchedTotalIsComplete(details: seq<Detail>, orderIds: seq<string>, orderId: string)
    requires orderId in orderIds
    ensures ComputedTotal(FetchedDetails(details, orderIds), orderId) == ComputedTotal(details, orderId)
  {
    FetchedItemsAreComplete(details, orderIds, orderId);
  }

  lemma {:induction false} FetchedItemsAreComplete(details: seq<Detail>, orderIds: seq<string>, orderId: string)
    requires orderId in orderIds
    ensures ItemsOf(FetchedDetails(details, orderIds), orderId) == ItemsOf(details, orderId)
  {
    if details != [] {
      var init := details[..|details| - 1];
      var last := details[|details| - 1];
      FetchedItemsAreComplete(init, orderIds, orderId);
      var kept: seq<Detail> := if last.orderId in orderIds then [last] else [];
      ItemsOfAppend(FetchedDetails(init, orderIds), kept, orderId);
      assert [last][..0] == [];
      assert kept == [] ==> ItemsOf(kept, orderId) == [];
    }
  }

  /** A correction is queued for an order exactly when it drifts, each queued
      correction carries its order's computed total, and an id with no drifting
      order gets no write. */
  lemma CorrectionsExact(orders: seq<Order>, details: seq<Detail>)
    ensures forall c :: c in Corrections(orders, details) ==> c.total == ComputedTotal(details, c.orderId)
    ensures forall i :: 0 <= i < |orders| && Drifts(orders[i], ComputedTotal(details, orders[i].id)) ==>
      LastFor(Corrections(orders, details), orders[i].id) == Some(ComputedTotal(details, orders[i].id))
    ensures forall id :: LastFor(Corrections(orders, details), id).Some? ==>
      exists i :: 0 <= i < |orders| && orders[i].id == id && Drifts(orders[i], ComputedTotal(details, id))
    ensures |Corrections(orders, details)| <= |orders|
  {
    CorrectionsCarryComputed(orders, details);
    DriftingOrdersCorrected(orders, details);
    CorrectedOrdersDrift(orders, details);
  }

  lemma LastForSnoc(cs: seq<Correction>, c: Correction, orderId: string)
    ensures LastFor(cs + [c], orderId) == if c.orderId == orderId then Some(c.total) else LastFor(cs, orderId)
  {
    assert (cs + [c])[..|cs|] == cs;
  }

  lemma {:induction false} CorrectionsCarryComputed(orders: seq<Order>, details: seq<Detail>)
    ensures forall c :: c in Corrections(orders, details) ==> c.total == ComputedTotal(details, c.orderId)
    ensures |Corrections(orders, details)| <= |orders|
  {
    if orders != [] {
      CorrectionsCarryComputed(orders[..|orders| - 1], details);
    }
  }

  lemma {:induction false} DriftingOrdersCorrected(orders: seq<Order>, details: seq<Detail>)
    ensures forall i :: 0 <= i < |orders| && Drifts(orders[i], ComputedTotal(details, orders[i].id)) ==>
      LastFor(Corrections(orders, details), orders[i].id) == Some(ComputedTotal(details, orders[i].id))
  {
    if orders != [] {
      var init := orders[..|orders| - 1];
      var o := orders[|orders| - 1];
      DriftingOrdersCorrected(init, details);
      var cs := Corrections(init, details);
      var computed := ComputedTotal(details, o.id);
      var tail: seq<Correction> := if Drifts(o, computed) then [Correction(o.id, computed)] else [];
      assert Corrections(orders, details) == cs + tail;
      forall i | 0 <= i < |orders| && Drifts(orders[i], ComputedTotal(details, orders[i].id))
        ensures LastFor(Corrections(orders, details), orders[i].id) == Some(ComputedTotal(details, orders[i].id))
      {
        if Drifts(o, computed) {
          LastForSnoc(cs, Correction(o.id, computed), orders[i].id);
        } else {
          assert cs + tail == cs;
        }
        if i < |init| {
          assert orders[i] == init[i];
        }
      }
    }
  }

  lemma {:induction false} CorrectedOrdersDrift(orders: seq<Order>, details: seq<Detail>)
    ensures forall id :: LastFor(Corrections(orders, details), id).Some? ==>
      exists i :: 0 <= i < |orders| && orders[i].id == id && Drifts(orders[i], ComputedTotal(details, id))
  {
    if orders != [] {
      var init := orders[..|orders| - 1];
      var o := orders[|orders| - 1];
      CorrectedOrdersDrift(init, details);
      var cs := Corrections(init, details);
      var computed := ComputedTotal(details, o.id);
      var tail: seq<Correction> := if Drifts(o, computed) then [Correction(o.id, computed)] else [];
      assert Corrections(orders, details) == cs + tail;
      forall id | LastFor(Corrections(orders, details), id).Some?
        ensures exists i :: 0 <= i < |orders| && orders[i].id == id && Drifts(orders[i], ComputedTotal(details, id))
      {
        if Drifts(o, computed) {
          LastForSnoc(cs, Correction(o.id, computed), id);
        } else {
          assert cs + tail == cs;
        }
        if Drifts(o, computed) && id == o.id {
          assert orders[|orders| - 1] == o;
        } else {
          var i :| 0 <= i < |init| && init[i].id == id && Drifts(init[i], ComputedTotal(details, id));
          assert orders[i] == init[i];
        }
      }
    }
  }

  /** Idempotence, first half: landing the same queued writes a second time (the
      list screen runs the pass twice over one snapshot) leaves the table as the
      first landing left it. */
  lemma ApplyTwice(orders: seq<Order>, cs: seq<Correction>)
    ensures ApplyCorrections(ApplyCorrections(orders, cs), cs) == ApplyCorrections(orders, cs)
  {
    var once := ApplyCorrections(orders, cs);
    forall i | 0 <= i < |orders|
      ensures ApplyCorrections(once, cs)[i] == once[i]
    {
      assert once[i].id == orders[i].id;
    }
  }

  /** Idempotence, second half: once the corrections of a pass over the current
      table have landed, a pass over the refreshed table queues nothing. */
  lemma SecondPassIsQuiet(orders: seq<Order>, details: seq<Detail>)
    ensures Corrections(ApplyCorrections(orders, Corrections(orders, details)), details) == []
  {
    var cs := Corrections(orders, details);
    var after := ApplyCorrections(orders, cs);
    CorrectionsExact(orders, details);
    forall i | 0 <= i < |after|
      ensures !Drifts(after[i], ComputedTotal(details, after[i].id))
    {
      var id := orders[i].id;
      assert after[i].id == id;
      match LastFor(cs, id)
      case None =>
      case Some(t) =>
        LastForIsQueued(cs, id);
        assert Correction(id, t) in cs;
    }
    NoDriftNoCorrections(after, details);
  }

  lemma {:induction false} LastForIsQueued(cs: seq<Correction>, orderId: string)
    requires LastFor(cs, orderId).Some?
    ensures Correction(orderId, LastFor(cs, orderId).value) in cs
  {
    if cs[|cs| - 1].orderId != orderId {
      LastForIsQueued(cs[..|cs| - 1], orderId);
    }
  }

  lemma {:induction false} NoDriftNoCorrections(orders: seq<Order>, details: seq<Detail>)
    requires forall i :: 0 <= i < |orders| ==> !Drifts(orders[i], ComputedTotal(details, orders[i].id))
    ensures Corrections(orders, details) == []
  {
    if orders != [] {
      NoDriftNoCorrections(orders[..|orders| - 1], details);
    }
  }

  /** A correction changes only the total of the rows it names. */
  lemma CorrectionsTouchOnlyTotals(orders: seq<Order>, cs: seq<Correction>)
    ensures forall i :: 0 <= i < |orders| ==>
      ApplyCorrections(orders, cs)[i] == orders[i].(total := ApplyCorrections(orders, cs)[i].total)
    ensures forall i :: 0 <= i < |orders| && (forall c :: c in cs ==> c.orderId != orders[i].id) ==>
      ApplyCorrections(orders, cs)[i] == orders[i]
  {
    forall i | 0 <= i < |orders| && (forall c :: c in cs ==> c.orderId != orders[i].id)
      ensures LastFor(cs, orders[i].id).None?
    {
      if LastFor(cs, orders[i].id).Some? {
        LastForIsQueued(cs, orders[i].id);
      }
    }
  }
}

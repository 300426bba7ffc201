/** src/hooks/useCreateRequisition.ts: a supply requisition is created by
    inserting its header and then one detail row per requested product. The
    backend generates the header id and its creation time; they come in as
    inputs. */
module CreateRequisition {
  import opened Wrappers
  import opened Schema

  /** One requested product; the name travels with it but is not stored. */
  datatype RequisitionItem = RequisitionItem(productId: int, productName: string, quantity: int)

  datatype RequisitionParams = RequisitionParams(
    sucursal: string,
    solicitante: Option<string>,
    puesto: string,
    items: seq<RequisitionItem>,
    userId: string)

  /** The header as inserted: always 'pending' and created by the caller. */
  function HeaderRow(params: RequisitionParams, id: int, now: int): (h: Requisition)
    ensures h.id == id && h.status == "pending" && h.createdBy == params.userId
    ensures h.sucursal == params.sucursal && h.solicitante == params.solicitante && h.puesto == params.puesto
  {
    Requisition(id, params.sucursal, params.solicitante, params.puesto, params.userId, "pending", now)
  }

  /** `items.map(...)`: one detail per item, in item order, under the new
      header's id. */
  function DetailRows(items: seq<RequisitionItem>, requisitionId: int): (r: seq<RequisitionDetail>)
    ensures |r| == |items|
    ensures forall i :: 0 <= i < |items| ==>
      r[i] == RequisitionDetail(requisitionId, items[i].productId, items[i].quantity)
  {
    seq(|items|, i requires 0 <= i < |items| =>
      RequisitionDetail(requisitionId, items[i].productId, items[i].quantity))
  }

  /** The new requisition: the header first; its details only when the header
      insert succeeded. A failed detail insert raises after the header exists. */
  method CreateRequisition(db: Database, params: RequisitionParams, newId: int, now: int,
                           headerOk: bool, itemsOk: bool)
    returns (r: Result<Requisition>)
    modifies db`requisitions, db`requisitionDetails
    ensures !headerOk ==> r.Err? && db.requisitions == old(db.requisitions)
    ensures !headerOk ==> db.requisitionDetails == old(db.requisitionDetails)
    ensures headerOk ==> db.requisitions == old(db.requisitions) + [HeaderRow(params, newId, now)]
    ensures headerOk && !itemsOk ==> r.Err? && db.requisitionDetails == old(db.requisitionDetails)
    ensures headerOk && itemsOk ==>
      r == Ok(HeaderRow(params, newId, now)) &&
      db.requisitionDetails == old(db.requisitionDetails) + DetailRows(params.items, newId)
  {
    if !headerOk {
      return Err("insert into requisiciones failed");
    }
    var header := HeaderRow(params, newId, now);
    db.requisitions := db.requisitions + [header];
    if !itemsOk {
      return Err("insert into requisicion_detalles failed");
    }
    db.requisitionDetails := db.requisitionDetails + DetailRows(params.items, newId);
    r := Ok(header);
  }

  /** The detail rows of one requisition, in table order. */
  function DetailsOf(rows: seq<RequisitionDetail>, requisitionId: int): (r: seq<RequisitionDetail>)
    ensures forall d :: d in r <==> d in rows && d.requisicionId == requisitionId
  {
    if rows == [] then []
    else
      var last := rows[|rows| - 1];
      DetailsOf(rows[..|rows| - 1], requisitionId) + (if last.requisicionId == requisitionId then [last] else [])
  }

  /** The product and quantity of each item, the part of an item that is stored. */
  function Requested(items: seq<RequisitionItem>): (r: seq<(int, int)>)
    ensures |r| == |items|
    ensures forall i :: 0 <= i < |items| ==> r[i] == (items[i].productId, items[i].quantity)
  {
    seq(|items|, i requires 0 <= i < |items| => (items[i].productId, items[i].quantity))
  }

  function Stored(rows: seq<RequisitionDetail>): (r: seq<(int, int)>)
    ensures |r| == |rows|
    ensures forall i :: 0 <= i < |rows| ==> r[i] == (rows[i].productoId, rows[i].cantidad)
  {
    seq(|rows|, i requires 0 <= i < |rows| => (rows[i].productoId, rows[i].cantidad))
  }

  lemma {:induction false} AllOwnRows(rows: seq<RequisitionDetail>, requisitionId: int)
    requires forall i :: 0 <= i < |rows| ==> rows[i].requisicionId == requisitionId
    ensures DetailsOf(rows, requisitionId) == rows
  {
    if rows != [] {
      var n := |rows| - 1;
      AllOwnRows(rows[..n], requisitionId);
      assert rows == rows[..n] + [rows[n]];
    }
  }

  lemma {:induction false} NoOwnRows(rows: seq<RequisitionDetail>, requisitionId: int)
    requires forall i :: 0 <= i < |rows| ==> rows[i].requisicionId != requisitionId
    ensures DetailsOf(rows, requisitionId) == []
  {
    if rows != [] {
      NoOwnRows(rows[..|rows| - 1], requisitionId);
    }
  }

  lemma {:induction false} DetailsOfAppend(a: seq<RequisitionDetail>, b: seq<RequisitionDetail>, requisitionId: int)
    ensures DetailsOf(a + b, requisitionId) == DetailsOf(a, requisitionId) + DetailsOf(b, requisitionId)
  {
    if b != [] {
      assert (a + b)[..|a + b| - 1] == a + b[..|b| - 1];
      DetailsOfAppend(a, b[..|b| - 1], requisitionId);
    } else {
      assert a + b == a;
    }
  }

  /** Reading back the details of a freshly created requisition gives exactly
      the requested (product, quantity) pairs, in the order they were asked for. */
  lemma CreatedRequisitionReadsBack(existing: seq<RequisitionDetail>, items: seq<RequisitionItem>,
                                    newId: int)
    requires forall i :: 0 <= i < |existing| ==> existing[i].requisicionId != newId
    ensures Stored(DetailsOf(existing + DetailRows(items, newId), newId)) == Requested(items)
  {
    var rows := DetailRows(items, newId);
    DetailsOfAppend(existing, rows, newId);
    NoOwnRows(existing, newId);
    AllOwnRows(rows, newId);
    assert [] + rows == rows;
  }

  /** Product names are not stored: two requests that differ only in names
      insert the same rows. */
  lemma NamesAreDropped(a: seq<RequisitionItem>, b: seq<RequisitionItem>, requisitionId: int)
    requires Requested(a) == Requested(b)
    ensures DetailRows(a, requisitionId) == DetailRows(b, requisitionId)
  {
    assert |a| == |Requested(a)|;
    forall i | 0 <= i < |a|
      ensures DetailRows(a, requisitionId)[i] == DetailRows(b, requisitionId)[i]
    {
      assert Requested(a)[i] == Requested(b)[i];
    }
  }
}

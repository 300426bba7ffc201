/** src/features/orders/OrderDetail.tsx: the order screen. It loads one order
    with its items and its creator's name, shows the total recomputed from the
    items, guards the quantity buttons and the payment input, and adds products
    from a search at their current price. */
module OrderDetail {
  import opened Wrappers
  import opened Schema
  import opened Ordering
  import opened LineItems
  import OrderItems
  import Payments

  /** What useOrderDetail hands the screen: the header, its items and the
      creator's name (null when the creator's profile has a null full_name). */
  datatype OrderView = OrderView(order: Order, items: seq<Detail>, creatorName: Option<string>)

  /** `.order('id', { ascending: true })` on the detail rows. */
  function ByIdAscending(): (le: (Detail, Detail) -> bool)
    ensures forall a, b :: le(a, b) <==> a.id <= b.id
  {
    (a: Detail, b: Detail) => a.id <= b.id
  }

  lemma ByIdAscendingIsTotalPreorder()
    ensures TotalPreorder(ByIdAscending())
  {
  }

  /** `creatorName`: 'Desconocido' unless the header names a creator whose
      profile is read, in which case it is that profile's full_name, null
      included. A failed profile read is not an error. */
  function CreatorOf(order: Order, profiles: seq<Profile>, profileReadOk: bool): (r: Option<string>)
    ensures order.createdBy == "" || !profileReadOk ==> r == Some("Desconocido")
    ensures r != Some("Desconocido") ==>
      exists p :: p in profiles && p.id == order.createdBy && p.fullName == r
    ensures order.createdBy != "" && profileReadOk && Payments.FindProfile(profiles, order.createdBy).Some? ==>
      r == Payments.FindProfile(profiles, order.createdBy).value.fullName
  {
    if order.createdBy != "" && profileReadOk then
      match Payments.FindProfile(profiles, order.createdBy)
      case None => Some("Desconocido")
      case Some(p) => p.fullName
    else Some("Desconocido")
  }

  /** The query: null without an id; an error when the header read fails or
      does not find exactly one row (`.single()`), or when the item read fails;
      otherwise the header, its items by ascending id and the creator's name. */
  function LoadOrderDetail(id: Option<string>, orders: seq<Order>, orderReadOk: bool,
                           profiles: seq<Profile>, profileReadOk: bool,
                           details: seq<Detail>, itemsReadOk: bool)
    : (r: Result<Option<OrderView>>)
    ensures !Truthy(id) <==> r == Ok(None)
    ensures Truthy(id) && (!orderReadOk || Payments.SingleRow(orders, id.value).None? || !itemsReadOk) <==> r.Err?
    ensures r.Ok? && r.value.Some? ==>
      var v := r.value.value;
      && Payments.SingleRow(orders, id.value) == Some(v.order)
      && v.order in orders && v.order.id == id.value
      && SortedBy(v.items, ByIdAscending())
      && multiset(v.items) == multiset(ItemsOf(details, id.value))
      && v.creatorName == CreatorOf(v.order, profiles, profileReadOk)
  {
    if !Truthy(id) then Ok(None)
    else if !orderReadOk then Err("ordenes_compra read failed")
    else match Payments.SingleRow(orders, id.value)
      case None => Err("ordenes_compra read did not return exactly one row")
      case Some(order) =>
        if !itemsReadOk then Err("orden_compra_detalles read failed")
        else
          ByIdAscendingIsTotalPreorder();
          var items := SortBy(ItemsOf(details, id.value), ByIdAscending());
          Ok(Some(OrderView(order, items, CreatorOf(order, profiles, profileReadOk))))
  }

  /** "Creado Por": `order.creator_name || 'Desconocido'`. */
  function CreatorDisplay(v: OrderView): (r: string)
    ensures r != ""
  {
    OrElse(v.creatorName, "Desconocido")
  }

  /** The order screen names a creator exactly as the payment list names the
      creator of a payment (useOrderPayments.ts): the profile's full_name, or
      'Desconocido' when there is no such profile or its name is empty. */
  lemma CreatorDisplayAgreesWithPaymentList(order: Order, items: seq<Detail>, profiles: seq<Profile>)
    requires order.createdBy != ""
    ensures CreatorDisplay(OrderView(order, items, CreatorOf(order, profiles, true))) ==
      Payments.CreatorName(profiles, Some(order.createdBy))
  {
  }

  /** `calculatedTotal`: the sum over the loaded items, 0 when there are none. */
  function CalculatedTotal(items: Option<seq<Detail>>): (r: real)
    ensures items.None? || items == Some([]) ==> r == 0.0
  {
    if items.Some? then LineTotal(items.value) else 0.0
  }

  /** The total the screen shows is the order's computed total, whatever order
      the items were sorted into. */
  lemma ShownTotalIsComputedTotal(id: Option<string>, orders: seq<Order>, profiles: seq<Profile>,
                                  profileReadOk: bool, details: seq<Detail>)
    requires LoadOrderDetail(id, orders, true, profiles, profileReadOk, details, true).Ok?
    requires LoadOrderDetail(id, orders, true, profiles, profileReadOk, details, true).value.Some?
    ensures
      var v := LoadOrderDetail(id, orders, true, profiles, profileReadOk, details, true).value.value;
      CalculatedTotal(Some(v.items)) == ComputedTotal(details, id.value)
  {
    var v := LoadOrderDetail(id, orders, true, profiles, profileReadOk, details, true).value.value;
    LineTotalPermutation(v.items, ItemsOf(details, id.value));
  }

  /** handleUpdateQty: the quantity sent to updateItem, or None when the
      requested quantity is below 1 and nothing is sent. The buttons request
      the current cantidad (null counting as 0) plus or minus one. */
  function QuantityRequest(newQty: int): (r: Option<int>)
    ensures r.None? <==> newQty < 1
    ensures r.Some? ==> r.value == newQty && r.value >= 1
  {
    if newQty < 1 then None else Some(newQty)
  }

  /** The minus button on an item with cantidad 1 (or null) sends nothing, and
      whatever the buttons send leaves the item with a cantidad of at least 1. */
  lemma ButtonsNeverGoBelowOne(details: seq<Detail>, k: int, delta: int)
    requires 0 <= k < |details| && (delta == 1 || delta == -1)
    requires QuantityRequest(OrZero(details[k].cantidad) + delta).Some?
    ensures
      var q := QuantityRequest(OrZero(details[k].cantidad) + delta).value;
      OrderItems.SetCantidad(details, details[k].id, q)[k].cantidad == Some(q) && q >= 1
    ensures OrZero(details[k].cantidad) <= 1 ==> delta == 1
  {
  }

  /** PaymentSection.handleAdd: the amount submitted, when the parsed input
      (None when `parseFloat` gives NaN) is a number above 0; the input is
      cleared exactly then. */
  function HandleAdd(parsed: Option<real>): (r: Option<real>)
    ensures r.Some? <==> parsed.Some? && parsed.value > 0.0
    ensures r.Some? ==> r.value == parsed.value
  {
    if parsed.Some? && parsed.value > 0.0 then parsed else None
  }

  function InputAfterAdd(input: string, parsed: Option<real>): (r: string)
    ensures HandleAdd(parsed).Some? ==> r == ""
    ensures HandleAdd(parsed).None? ==> r == input
  {
    if HandleAdd(parsed).Some? then "" else input
  }

  /** "Restante": the shown total minus paid_amount (null counting as 0), not
      clamped at 0, so an overpaid order shows a negative remainder. */
  function Remaining(total: real, paidAmount: Option<real>): (r: real)
    ensures r < 0.0 <==> OrZeroReal(paidAmount) > total
    ensures r + OrZeroReal(paidAmount) == total
  {
    total - OrZeroReal(paidAmount)
  }

  /** A payment submitted from the screen (and so positive) lowers the
      remainder by exactly its amount when the header is found and written. */
  lemma PaymentLowersRemaining(orders: seq<Order>, orderId: string, parsed: Option<real>,
                               total: real, k: int)
    requires Payments.UniqueRow(orders, orderId, k)
    requires HandleAdd(parsed).Some?
    ensures
      var amount := HandleAdd(parsed).value;
      var after := Payments.PaidAfter(orders, orderId, amount, true, true);
      Remaining(total, after[k].paidAmount) == Remaining(total, orders[k].paidAmount) - amount &&
      Remaining(total, after[k].paidAmount) < Remaining(total, orders[k].paidAmount)
  {
    Payments.PaidIncrements(orders, orderId, HandleAdd(parsed).value, k);
  }

  /** The payment section and the remainder line appear only for 'abono'. */
  predicate PaymentSectionShown(o: Order)
  {
    o.paymentStatus == "abono"
  }

  /** The addItem call of AddItemSection.handleSelect: quantity 1 at the
      product's current price. */
  datatype AddItemCall = AddItemCall(orderId: string, productId: int, quantity: int, price: real)

  function SelectProduct(orderId: string, p: Product): (c: AddItemCall)
    ensures c.orderId == orderId && c.productId == p.id
    ensures c.quantity == 1 && c.price == p.precio
  {
    AddItemCall(orderId, p.id, 1, p.precio)
  }

  /** Selecting a product raises the order's computed total by its price at the
      time of selection; later price changes do not reach the stored line. */
  lemma SelectingRaisesTotalByPrice(details: seq<Detail>, orderId: string, p: Product, newId: int)
    ensures
      var c := SelectProduct(orderId, p);
      var row := Detail(newId, c.orderId, c.productId, Some(c.quantity), Some(c.price));
      ComputedTotal(details + [row], orderId) == ComputedTotal(details, orderId) + p.precio &&
      row.precioUnitario == Some(p.precio)
  {
    var c := SelectProduct(orderId, p);
    var row := Detail(newId, c.orderId, c.productId, Some(c.quantity), Some(c.price));
    assert Subtotal(row) == p.precio by {
      assert OrZero(row.cantidad) as real == 1.0;
    }
    AppendRowTotal(details, row, orderId);
  }

  /** The two-line example carried on through payments: lines 2 × 10.00 and
      1 × 5.00 show a total of 25.00; after a payment of 10.00 the screen shows
      15.00 remaining, and after a further 15.00 nothing remains. */
  lemma PaymentScenario(orders: seq<Order>, orderId: string, k: int)
    requires Payments.UniqueRow(orders, orderId, k)
    requires OrZeroReal(orders[k].paidAmount) == 0.0
    ensures
      var total := ComputedTotal([Detail(1, orderId, 7, Some(2), Some(10.0)),
                                  Detail(2, orderId, 8, Some(1), Some(5.0))], orderId);
      && total == 25.0
      && Payments.UniqueRow(Payments.PaidAfterAll(orders, orderId, [10.0]), orderId, k)
      && Payments.UniqueRow(Payments.PaidAfterAll(orders, orderId, [10.0, 15.0]), orderId, k)
      && Remaining(total, Payments.PaidAfterAll(orders, orderId, [10.0])[k].paidAmount) == 15.0
      && Remaining(total, Payments.PaidAfterAll(orders, orderId, [10.0, 15.0])[k].paidAmount) == 0.0
  {
    TwoLineScenario(orderId);
    Payments.PaidIsSumOfPayments(orders, orderId, [10.0], k);
    Payments.PaidIsSumOfPayments(orders, orderId, [10.0, 15.0], k);
    assert [10.0, 15.0][..1] == [10.0];
    assert [10.0][..0] == [];
  }
}

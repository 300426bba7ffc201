/** src/features/orders/NewOrder.tsx: the point-of-sale screen. It filters the
    product list by name, keeps a cart, and on submit validates the form and
    hands an order to useCreateOrder, clearing the customer fields afterwards. */
module NewOrder {
  import opened Wrappers
  import opened Schema
  import opened Ordering
  import opened Cart
  import opened CreateOrder

  /** `products?.filter(p => p.nombre.toLowerCase().includes(search.toLowerCase()))`;
      no list yet gives no list. */
  function FilterProducts(products: Option<seq<Product>>, search: string): (r: Option<seq<Product>>)
    ensures products.None? <==> r.None?
    ensures r.Some? ==> forall p :: p in r.value <==> p in products.value && ContainsIgnoringCase(p.nombre, search)
    ensures r.Some? ==> |r.value| <= |products.value|
  {
    match products
    case None => None
    case Some(ps) => Some(MatchingNames(ps, search))
  }

  function MatchingNames(ps: seq<Product>, search: string): (r: seq<Product>)
    ensures forall p :: p in r <==> p in ps && ContainsIgnoringCase(p.nombre, search)
    ensures |r| <= |ps|
  {
    if ps == [] then []
    else
      var last := ps[|ps| - 1];
      MatchingNames(ps[..|ps| - 1], search) + (if ContainsIgnoringCase(last.nombre, search) then [last] else [])
  }

  /** An empty search box shows the whole list, in its order. */
  lemma {:induction false} EmptySearchShowsAll(ps: seq<Product>)
    ensures MatchingNames(ps, "") == ps
  {
    if ps != [] {
      EmptySearchShowsAll(ps[..|ps| - 1]);
      EmptySearchMatchesAll(ps[|ps| - 1].nombre);
    }
  }

  /** The customer fields of the form; the inputs hold strings, '' when blank. */
  datatype OrderForm = OrderForm(
    customerName: string,
    customerPhone: string,
    deliveryDate: string,
    deliveryTime: string,
    deliveryType: string,
    deliveryAddress: string,
    paymentMethod: string,
    notes: string)

  /** What handleSubmit does with the form: an alert and no order, silently
      nothing, or an order handed to useCreateOrder. */
  datatype Submission = Rejected(message: string) | Ignored | Submitted(params: OrderParams)

  /** `userRole?.sucursal || 'Sin Sucursal'`. */
  function BranchOf(role: Option<Role>): (r: string)
    ensures role.Some? && Truthy(role.value.sucursal) ==> r == role.value.sucursal.value
    ensures !(role.Some? && Truthy(role.value.sucursal)) ==> r == "Sin Sucursal"
  {
    if role.Some? then OrElse(role.value.sucursal, "Sin Sucursal") else "Sin Sucursal"
  }

  /** `s ? s : undefined`. */
  function Blank(s: string): (r: Option<string>)
    ensures s == "" <==> r.None?
    ensures r.Some? ==> r.value == s
  {
    if s == "" then None else Some(s)
  }

  /** handleSubmit's checks, in order, and the order it builds. */
  function Submit(form: OrderForm, cart: seq<CartLine>, profile: Option<Profile>, role: Option<Role>)
    : (r: Submission)
    ensures form.customerName == "" <==> r == Rejected("Por favor ingrese el nombre del cliente")
    ensures form.customerName != "" && cart == [] <==> r == Rejected("El carrito está vacío")
    ensures r == Ignored <==> form.customerName != "" && cart != [] && (profile.None? || profile.value.id == "")
    ensures r.Submitted? ==> form.customerName != "" && cart != [] && profile.Some? && profile.value.id != ""
    ensures r.Submitted? ==>
      && r.params.total == TotalAmount(cart)
      && r.params.items == cart
      && r.params.sucursal == BranchOf(role)
      && r.params.createdBy == profile.value.id
      && r.params.customerName == form.customerName
      && r.params.customerPhone == Some(form.customerPhone)
      && r.params.deliveryDate == Blank(form.deliveryDate)
      && r.params.deliveryTime == Blank(form.deliveryTime)
      && r.params.deliveryType == form.deliveryType
      && r.params.deliveryAddress == Some(form.deliveryAddress)
      && r.params.paymentMethod == Some(form.paymentMethod)
      && r.params.paymentStatus == None
      && r.params.notes == Some(form.notes)
  {
    if form.customerName == "" then Rejected("Por favor ingrese el nombre del cliente")
    else if cart == [] then Rejected("El carrito está vacío")
    else if profile.None? || profile.value.id == "" then Ignored
    else
      Submitted(OrderParams(
        form.customerName, Some(form.customerPhone), Blank(form.deliveryDate), Blank(form.deliveryTime),
        form.deliveryType, Some(form.deliveryAddress), Some(form.paymentMethod), None,
        TotalAmount(cart), BranchOf(role), profile.value.id, Some(form.notes), cart))
  }

  /** After a successful submit the cart and the customer fields are cleared;
      the delivery type and the payment method keep their last choice. A failed
      submit keeps everything. */
  function AfterSubmit(form: OrderForm, cart: seq<CartLine>, created: bool): (r: (OrderForm, seq<CartLine>))
    ensures !created ==> r == (form, cart)
    ensures created ==> r.1 == [] && r.0.customerName == "" && r.0.customerPhone == ""
    ensures created ==> r.0.deliveryDate == "" && r.0.deliveryTime == "" && r.0.deliveryAddress == ""
    ensures created ==> r.0.notes == ""
    ensures created ==> r.0.deliveryType == form.deliveryType && r.0.paymentMethod == form.paymentMethod
  {
    if created then (OrderForm("", "", "", "", form.deliveryType, "", form.paymentMethod, ""), [])
    else (form, cart)
  }

  /** An order submitted from this screen and created in full stores a total
      equal to the sum of its line items, so the reconciler finds nothing to
      correct on it. */
  lemma SubmittedOrderIsConsistent(form: OrderForm, cart: seq<CartLine>, profile: Option<Profile>,
                                   role: Option<Role>, details: seq<Detail>, newId: string,
                                   folio: int, now: int, firstId: int)
    requires Submit(form, cart, profile, role).Submitted?
    requires forall d :: d in details ==> d.orderId != newId
    ensures
      var params := Submit(form, cart, profile, role).params;
      LineItems.ComputedTotal(details + DetailRows(params.items, newId, firstId), newId) ==
        OrZeroReal(HeaderRow(params, newId, folio, now).total)
  {
    var params := Submit(form, cart, profile, role).params;
    CreatedOrderTotalMatches(details, params, newId, folio, now, firstId);
  }
}

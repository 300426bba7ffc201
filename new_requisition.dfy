/** src/features/requisitions/NewRequisition.tsx: the requisition screen shares
    the cart of the order screen and, on submit, turns it into the payload of
    useCreateRequisition. */
module NewRequisition {
  import opened Wrappers
  import opened Schema
  import opened Cart
  import opened CreateRequisition

  /** `cart.map(item => ({ productId, productName, quantity }))`. */
  function PayloadItems(cart: seq<CartLine>): (r: seq<RequisitionItem>)
    ensures |r| == |cart|
    ensures forall i :: 0 <= i < |cart| ==>
      r[i] == RequisitionItem(cart[i].product.id, cart[i].product.nombre, cart[i].quantity)
  {
    seq(|cart|, i requires 0 <= i < |cart| =>
      RequisitionItem(cart[i].product.id, cart[i].product.nombre, cart[i].quantity))
  }

  /** handleSubmit: nothing without items, a profile and a role; otherwise the
      payload, with the branch falling back to 'Sin Sucursal' and the role name
      as puesto. */
  function Submit(cart: seq<CartLine>, profile: Option<Profile>, role: Option<Role>)
    : (r: Option<RequisitionParams>)
    ensures r.None? <==> cart == [] || profile.None? || role.None?
    ensures r.Some? ==>
      && r.value.sucursal == OrElse(role.value.sucursal, "Sin Sucursal")
      && r.value.solicitante == profile.value.fullName
      && r.value.puesto == role.value.role
      && r.value.userId == profile.value.id
      && r.value.items == PayloadItems(cart)
  {
    if cart == [] || profile.None? || role.None? then None
    else
      Some(RequisitionParams(OrElse(role.value.sucursal, "Sin Sucursal"), profile.value.fullName,
                             role.value.role, PayloadItems(cart), profile.value.id))
  }

  /** The cart after the request: emptied on success, kept on error. */
  function CartAfter(cart: seq<CartLine>, created: bool): (r: seq<CartLine>)
    ensures created ==> r == []
    ensures !created ==> r == cart
  {
    if created then [] else cart
  }

  /** What a successful submit stores: one detail per cart line, in cart order,
      each with the line's product and quantity; the cart's one-line-per-product
      invariant carries over, so no product is requested twice. */
  lemma SubmittedCartIsStored(cart: seq<CartLine>, profile: Option<Profile>, role: Option<Role>, newId: int)
    requires WellFormed(cart)
    requires Submit(cart, profile, role).Some?
    ensures
      var rows := DetailRows(Submit(cart, profile, role).value.items, newId);
      && |rows| == |cart|
      && (forall i :: 0 <= i < |cart| ==>
            rows[i].productoId == cart[i].product.id && rows[i].cantidad == cart[i].quantity)
      && (forall i, j :: 0 <= i < j < |rows| ==> rows[i].productoId != rows[j].productoId)
      && (forall i :: 0 <= i < |rows| ==> rows[i].cantidad >= 1)
  {
    var rows := DetailRows(Submit(cart, profile, role).value.items, newId);
    assert forall i :: 0 <= i < |cart| ==> rows[i].productoId == cart[i].product.id;
  }
}

/** The cart of the new-order and new-requisition screens
    (src/features/orders/NewOrder.tsx:36-64, src/features/requisitions/NewRequisition.tsx:26-48).
    Both screens keep a list of (product, quantity) lines and rebuild it with the
    same immutable updaters; the invariant they maintain is one line per product
    and every quantity at least 1. */
module Cart {
  import opened Wrappers
  import opened Schema

  /** A cart line: the product as it was when first added, and a quantity. */
  datatype CartLine = CartLine(product: Product, quantity: int)

  /** One line per product id, and every quantity at least 1. */
  predicate WellFormed(cart: seq<CartLine>)
  {
    && (forall i, j :: 0 <= i < j < |cart| ==> cart[i].product.id != cart[j].product.id)
    && (forall i :: 0 <= i < |cart| ==> cart[i].quantity >= 1)
  }

  predicate InCart(cart: seq<CartLine>, productId: int)
  {
    exists i :: 0 <= i < |cart| && cart[i].product.id == productId
  }

  /** `prev.find(item => item.product.id === id)`: the first line for the product. */
  function FindLine(cart: seq<CartLine>, productId: int): (r: Option<CartLine>)
    ensures r.None? <==> !InCart(cart, productId)
    ensures r.Some? ==> r.value in cart && r.value.product.id == productId
  {
    if cart == [] then None
    else if cart[0].product.id == productId then Some(cart[0])
    else
      var rest := FindLine(cart[1..], productId);
      assert forall i :: 1 <= i < |cart| ==> cart[i] == cart[1..][i - 1];
      rest
  }

  /** The quantity the cart holds of a product, over all its lines. */
  function QuantityOf(cart: seq<CartLine>, productId: int): int
  {
    if cart == [] then 0
    else
      var last := cart[|cart| - 1];
      QuantityOf(cart[..|cart| - 1], productId) + (if last.product.id == productId then last.quantity else 0)
  }

  /** What one line costs: the product's price times the quantity. */
  function LineAmount(l: CartLine): real
  {
    l.product.precio * l.quantity as real
  }

  /** Σ precio × quantity, the order total the screen shows and submits. */
  function TotalAmount(cart: seq<CartLine>): real
  {
    if cart == [] then 0.0 else TotalAmount(cart[..|cart| - 1]) + LineAmount(cart[|cart| - 1])
  }

  lemma TotalAmountLast(cart: seq<CartLine>)
    requires cart != []
    ensures TotalAmount(cart) == TotalAmount(cart[..|cart| - 1]) + LineAmount(cart[|cart| - 1])
  {
  }

  /** Σ quantity, the item count on the cart badge. */
  function ItemCount(cart: seq<CartLine>): int
  {
    if cart == [] then 0 else ItemCount(cart[..|cart| - 1]) + cart[|cart| - 1].quantity
  }

  /** Σ precio × quantity over the lines of one product. */
  function AmountOf(cart: seq<CartLine>, productId: int): real
  {
    if cart == [] then 0.0
    else
      var last := cart[|cart| - 1];
      AmountOf(cart[..|cart| - 1], productId) + (if last.product.id == productId then LineAmount(last) else 0.0)
  }

  /** addToCart: a product already in the cart gets one more unit on its line
      (which keeps the product as first added); a new product is appended with
      quantity 1. */
  function AddToCart(cart: seq<CartLine>, p: Product): (r: seq<CartLine>)
    ensures InCart(cart, p.id) ==> |r| == |cart|
    ensures InCart(cart, p.id) ==> forall i :: 0 <= i < |cart| && cart[i].product.id == p.id ==>
      r[i] == cart[i].(quantity := cart[i].quantity + 1)
    ensures !InCart(cart, p.id) ==> r == cart + [CartLine(p, 1)]
    ensures forall i :: 0 <= i < |cart| && cart[i].product.id != p.id ==> r[i] == cart[i]
  {
    if FindLine(cart, p.id).Some? then
      seq(|cart|, i requires 0 <= i < |cart| =>
        if cart[i].product.id == p.id then cart[i].(quantity := cart[i].quantity + 1) else cart[i])
    else cart + [CartLine(p, 1)]
  }

  /** removeFromCart: drop the product's lines, keep the others in order. */
  function RemoveFromCart(cart: seq<CartLine>, productId: int): (r: seq<CartLine>)
    ensures forall l :: l in r <==> l in cart && l.product.id != productId
    ensures |r| <= |cart|
  {
    if cart == [] then []
    else
      var last := cart[|cart| - 1];
      RemoveFromCart(cart[..|cart| - 1], productId) + (if last.product.id != productId then [last] else [])
  }

  /** updateQuantity: the product's line moves by delta but never below 1; no
      other line changes. */
  function UpdateQuantity(cart: seq<CartLine>, productId: int, delta: int): (r: seq<CartLine>)
    ensures |r| == |cart|
    ensures forall i :: 0 <= i < |cart| && cart[i].product.id == productId ==>
      r[i] == cart[i].(quantity := Max1(cart[i].quantity + delta))
    ensures forall i :: 0 <= i < |cart| && cart[i].product.id != productId ==> r[i] == cart[i]
  {
    seq(|cart|, i requires 0 <= i < |cart| =>
      if cart[i].product.id == productId then cart[i].(quantity := Max1(cart[i].quantity + delta)) else cart[i])
  }

  /** `Math.max(1, q)`. */
  function Max1(q: int): (r: int)
    ensures r >= 1 && r >= q
    ensures r == q || r == 1
  {
    if q >= 1 then q else 1
  }

  /** With one line per product, the line found for a product is the one at its index. */
  lemma FoundLineIsUnique(cart: seq<CartLine>, k: int)
    requires WellFormed(cart)
    requires 0 <= k < |cart|
    ensures FindLine(cart, cart[k].product.id) == Some(cart[k])
  {
    var r := FindLine(cart, cart[k].product.id);
    var j :| 0 <= j < |cart| && cart[j] == r.value;
    assert forall i :: 0 <= i < |cart| && i != k ==> cart[i].product.id != cart[k].product.id;
  }

  /** Changing the quantity of one line by d moves the count of its product and
      the badge count by d, and the total by the change in that line's amount. */
  lemma {:induction false} BumpLine(a: seq<CartLine>, b: seq<CartLine>, k: int, d: int)
    requires |a| == |b| && 0 <= k < |a|
    requires forall i :: 0 <= i < |a| && i != k ==> b[i] == a[i]
    requires b[k] == a[k].(quantity := a[k].quantity + d)
    ensures ItemCount(b) == ItemCount(a) + d
    ensures TotalAmount(b) == TotalAmount(a) - LineAmount(a[k]) + LineAmount(b[k])
    ensures forall pid :: QuantityOf(b, pid) == QuantityOf(a, pid) + (if pid == a[k].product.id then d else 0)
  {
    var n := |a| - 1;
    if k == n {
      assert a[..n] == b[..n];
    } else {
      BumpLine(a[..n], b[..n], k, d);
    }
  }

  /** addToCart keeps one line per product with quantities ≥ 1, adds one unit of
      that product and nothing else, and raises the total by the price of the
      line that receives it: the product's snapshot already in the cart, or the
      product itself when it is new. */
  lemma AddToCartEffect(cart: seq<CartLine>, p: Product)
    requires WellFormed(cart)
    ensures WellFormed(AddToCart(cart, p))
    ensures |AddToCart(cart, p)| == |cart| + (if InCart(cart, p.id) then 0 else 1)
    ensures forall pid ::
      QuantityOf(AddToCart(cart, p), pid) == QuantityOf(cart, pid) + (if pid == p.id then 1 else 0)
    ensures ItemCount(AddToCart(cart, p)) == ItemCount(cart) + 1
    ensures TotalAmount(AddToCart(cart, p)) ==
      TotalAmount(cart) + (if InCart(cart, p.id) then FindLine(cart, p.id).value.product.precio else p.precio)
  {
    var r := AddToCart(cart, p);
    if InCart(cart, p.id) {
      var k :| 0 <= k < |cart| && cart[k].product.id == p.id;
      FoundLineIsUnique(cart, k);
      AddToExistingLine(cart, p, k);
      AddToExistingLineTotal(cart, p, k);
    } else {
      AppendNewLine(cart, p);
    }
  }

  /** One more unit of a line costs one more unit price. */
  lemma OneMoreUnit(l: CartLine)
    ensures LineAmount(l.(quantity := l.quantity + 1)) == LineAmount(l) + l.product.precio
  {
  }

  lemma AddToExistingLine(cart: seq<CartLine>, p: Product, k: int)
    requires WellFormed(cart)
    requires 0 <= k < |cart| && cart[k].product.id == p.id
    ensures WellFormed(AddToCart(cart, p))
    ensures forall pid ::
      QuantityOf(AddToCart(cart, p), pid) == QuantityOf(cart, pid) + (if pid == p.id then 1 else 0)
    ensures ItemCount(AddToCart(cart, p)) == ItemCount(cart) + 1
  {
    BumpLine(cart, AddToCart(cart, p), k, 1);
  }

  lemma AddToExistingLineTotal(cart: seq<CartLine>, p: Product, k: int)
    requires WellFormed(cart)
    requires 0 <= k < |cart| && cart[k].product.id == p.id
    ensures TotalAmount(AddToCart(cart, p)) == TotalAmount(cart) + cart[k].product.precio
  {
    OneMoreUnitTotal(cart, AddToCart(cart, p), k);
  }

  /** One more unit on one line raises the total by that line's unit price. */
  lemma OneMoreUnitTotal(a: seq<CartLine>, b: seq<CartLine>, k: int)
    requires |a| == |b| && 0 <= k < |a|
    requires forall i :: 0 <= i < |a| && i != k ==> b[i] == a[i]
    requires b[k] == a[k].(quantity := a[k].quantity + 1)
    ensures TotalAmount(b) == TotalAmount(a) + a[k].product.precio
  {
    BumpLine(a, b, k, 1);
    OneMoreUnit(a[k]);
  }

  lemma AppendNewLine(cart: seq<CartLine>, p: Product)
    requires WellFormed(cart) && !InCart(cart, p.id)
    ensures WellFormed(cart + [CartLine(p, 1)])
    ensures forall pid ::
      QuantityOf(cart + [CartLine(p, 1)], pid) == QuantityOf(cart, pid) + (if pid == p.id then 1 else 0)
    ensures ItemCount(cart + [CartLine(p, 1)]) == ItemCount(cart) + 1
    ensures TotalAmount(cart + [CartLine(p, 1)]) == TotalAmount(cart) + p.precio
  {
    var r := cart + [CartLine(p, 1)];
    assert r[..|cart|] == cart;
    assert LineAmount(CartLine(p, 1)) == p.precio;
  }

  /** updateQuantity keeps the invariant, and under it moves the product's line
      to max(1, quantity + delta) and the badge count by the actual change,
      replacing that line's amount in the total by its new amount. */
  lemma UpdateQuantityEffect(cart: seq<CartLine>, productId: int, delta: int, k: int)
    requires WellFormed(cart)
    requires 0 <= k < |cart| && cart[k].product.id == productId
    ensures WellFormed(UpdateQuantity(cart, productId, delta))
    ensures QuantityOf(UpdateQuantity(cart, productId, delta), productId) == Max1(cart[k].quantity + delta)
    ensures forall pid :: pid != productId ==>
      QuantityOf(UpdateQuantity(cart, productId, delta), pid) == QuantityOf(cart, pid)
    ensures ItemCount(UpdateQuantity(cart, productId, delta)) ==
      ItemCount(cart) + Max1(cart[k].quantity + delta) - cart[k].quantity
    ensures TotalAmount(UpdateQuantity(cart, productId, delta)) ==
      TotalAmount(cart) - LineAmount(cart[k]) + LineAmount(cart[k].(quantity := Max1(cart[k].quantity + delta)))
  {
    var r := UpdateQuantity(cart, productId, delta);
    UpdateQuantityShape(cart, productId, delta, k);
    BumpLine(cart, r, k, Max1(cart[k].quantity + delta) - cart[k].quantity);
    QuantityOfUniqueLine(cart, k);
    UpdateQuantityKeepsWellFormed(cart, productId, delta);
  }

  lemma UpdateQuantityKeepsWellFormed(cart: seq<CartLine>, productId: int, delta: int)
    requires WellFormed(cart)
    ensures WellFormed(UpdateQuantity(cart, productId, delta))
  {
    var r := UpdateQuantity(cart, productId, delta);
    assert forall i :: 0 <= i < |r| ==> r[i].product == cart[i].product && r[i].quantity >= 1;
  }

  /** Under the invariant only the product's own line changes. */
  lemma UpdateQuantityShape(cart: seq<CartLine>, productId: int, delta: int, k: int)
    requires WellFormed(cart)
    requires 0 <= k < |cart| && cart[k].product.id == productId
    ensures forall i :: 0 <= i < |cart| && i != k ==> UpdateQuantity(cart, productId, delta)[i] == cart[i]
  {
    forall i | 0 <= i < |cart| && i != k
      ensures UpdateQuantity(cart, productId, delta)[i] == cart[i]
    {
      if i < k {
        assert cart[i].product.id != cart[k].product.id;
      } else {
        assert cart[k].product.id != cart[i].product.id;
      }
    }
  }

  /** Under the invariant a product's count is the quantity of its one line. */
  lemma {:induction false} QuantityOfUniqueLine(cart: seq<CartLine>, k: int)
    requires WellFormed(cart)
    requires 0 <= k < |cart|
    ensures QuantityOf(cart, cart[k].product.id) == cart[k].quantity
  {
    var n := |cart| - 1;
    if k == n {
      NotInCartCountsZero(cart[..n], cart[k].product.id);
    } else {
      assert WellFormed(cart[..n]);
      QuantityOfUniqueLine(cart[..n], k);
      assert cart[k].product.id != cart[n].product.id;
    }
  }

  lemma {:induction false} NotInCartCountsZero(cart: seq<CartLine>, productId: int)
    requires forall i :: 0 <= i < |cart| ==> cart[i].product.id != productId
    ensures QuantityOf(cart, productId) == 0
    ensures AmountOf(cart, productId) == 0.0
  {
    if cart != [] {
      NotInCartCountsZero(cart[..|cart| - 1], productId);
    }
  }

  /** The filter distributes over concatenation: together with the one-line
      case this fixes the order and the multiplicity of the kept lines. */
  lemma {:induction false} RemoveFromCartAppend(a: seq<CartLine>, b: seq<CartLine>, productId: int)
    ensures RemoveFromCart(a + b, productId) == RemoveFromCart(a, productId) + RemoveFromCart(b, productId)
  {
    if b != [] {
      assert (a + b)[..|a + b| - 1] == a + b[..|b| - 1];
      RemoveFromCartAppend(a, b[..|b| - 1], productId);
    } else {
      assert a + b == a;
    }
  }

  /** One line is kept exactly when it is another product's. */
  lemma RemoveFromCartSingle(l: CartLine, productId: int)
    ensures RemoveFromCart([l], productId) == if l.product.id != productId then [l] else []
  {
    assert [l][..0] == [];
  }

  /** Dropping lines keeps one line per product. */
  lemma {:induction false} RemoveFromCartKeepsWellFormed(cart: seq<CartLine>, productId: int)
    requires WellFormed(cart)
    ensures WellFormed(RemoveFromCart(cart, productId))
  {
    if cart != [] {
      var n := |cart| - 1;
      var init := cart[..n];
      var last := cart[n];
      assert WellFormed(init);
      RemoveFromCartKeepsWellFormed(init, productId);
      var kept := RemoveFromCart(init, productId);
      if last.product.id != productId {
        assert RemoveFromCart(cart, productId) == kept + [last];
        forall i | 0 <= i < |kept|
          ensures kept[i].product.id != last.product.id
        {
          assert kept[i] in init;
          var j :| 0 <= j < n && init[j] == kept[i];
        }
      }
    }
  }

  /** Dropping a product's lines takes exactly its quantity off the badge and its
      amount off the total, and leaves every other product's count alone. */
  lemma {:induction false} RemoveFromCartSums(cart: seq<CartLine>, productId: int)
    ensures forall pid :: pid != productId ==>
      QuantityOf(RemoveFromCart(cart, productId), pid) == QuantityOf(cart, pid)
    ensures ItemCount(RemoveFromCart(cart, productId)) == ItemCount(cart) - QuantityOf(cart, productId)
    ensures TotalAmount(RemoveFromCart(cart, productId)) == TotalAmount(cart) - AmountOf(cart, productId)
  {
    if cart != [] {
      var n := |cart| - 1;
      var init := cart[..n];
      var last := cart[n];
      RemoveFromCartSums(init, productId);
      var kept := RemoveFromCart(init, productId);
      if last.product.id != productId {
        var r := kept + [last];
        assert RemoveFromCart(cart, productId) == r;
        assert r[..|kept|] == kept;
      } else {
        assert RemoveFromCart(cart, productId) == kept;
      }
    }
  }

  /** removeFromCart keeps the invariant, leaves none of the product, and takes
      exactly that product's quantity off the badge and its amount off the total. */
  lemma RemoveFromCartEffect(cart: seq<CartLine>, productId: int)
    requires WellFormed(cart)
    ensures WellFormed(RemoveFromCart(cart, productId))
    ensures !InCart(RemoveFromCart(cart, productId), productId)
    ensures forall pid :: pid != productId ==>
      QuantityOf(RemoveFromCart(cart, productId), pid) == QuantityOf(cart, pid)
    ensures ItemCount(RemoveFromCart(cart, productId)) == ItemCount(cart) - QuantityOf(cart, productId)
    ensures TotalAmount(RemoveFromCart(cart, productId)) == TotalAmount(cart) - AmountOf(cart, productId)
  {
    var r := RemoveFromCart(cart, productId);
    RemoveFromCartKeepsWellFormed(cart, productId);
    RemoveFromCartSums(cart, productId);
    forall i | 0 <= i < |r|
      ensures r[i].product.id != productId
    {
      assert r[i] in r;
    }
  }
}

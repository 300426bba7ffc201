/** The line-item aggregator: the authoritative total of an order is the sum of
    cantidad × precio_unitario over its detail rows. The same reduction appears in
    src/hooks/useOrderItems.ts (updateOrderTotal), src/hooks/useRecalculateTotals.ts
    and src/features/orders/OrderDetail.tsx (calculatedTotal); a missing cantidad
    or precio_unitario counts as 0. */
module LineItems {
  import opened Wrappers
  import opened Schema

  function Subtotal(d: Detail): real
  {
    OrZero(d.cantidad) as real * OrZeroReal(d.precioUnitario)
  }

  /** Σ cantidad × precio_unitario, accumulated left to right as `reduce` does. */
  function LineTotal(items: seq<Detail>): real
  {
    if items == [] then 0.0 else LineTotal(items[..|items| - 1]) + Subtotal(items[|items| - 1])
  }

  /** The detail rows of one order, in table order (`.eq('order_id', id)`). */
  function ItemsOf(details: seq<Detail>, orderId: string): (r: seq<Detail>)
    ensures forall d :: d in r <==> d in details && d.orderId == orderId
    ensures |r| <= |details|
  {
    if details == [] then []
    else
      var last := details[|details| - 1];
      ItemsOf(details[..|details| - 1], orderId) + (if last.orderId == orderId then [last] else [])
  }

  /** The total the line items of an order add up to. */
  function ComputedTotal(details: seq<Detail>, orderId: string): real
  {
    LineTotal(ItemsOf(details, orderId))
  }

  lemma {:induction false} LineTotalAppend(a: seq<Detail>, b: seq<Detail>)
    ensures LineTotal(a + b) == LineTotal(a) + LineTotal(b)
  {
    if b != [] {
      assert (a + b)[..|a + b| - 1] == a + b[..|b| - 1];
      LineTotalAppend(a, b[..|b| - 1]);
    } else {
      assert a + b == a;
    }
  }

  lemma {:induction false} ItemsOfAppend(a: seq<Detail>, b: seq<Detail>, orderId: string)
    ensures ItemsOf(a + b, orderId) == ItemsOf(a, orderId) + ItemsOf(b, orderId)
  {
    if b != [] {
      assert (a + b)[..|a + b| - 1] == a + b[..|b| - 1];
      ItemsOfAppend(a, b[..|b| - 1], orderId);
    } else {
      assert a + b == a;
    }
  }

  /** Splitting the detail table splits every order's computed total. */
  lemma ComputedTotalAppend(a: seq<Detail>, b: seq<Detail>, orderId: string)
    ensures ComputedTotal(a + b, orderId) == ComputedTotal(a, orderId) + ComputedTotal(b, orderId)
  {
    ItemsOfAppend(a, b, orderId);
    LineTotalAppend(ItemsOf(a, orderId), ItemsOf(b, orderId));
  }

  /** A single row contributes its subtotal to its own order and nothing to others. */
  lemma SingleRowTotal(d: Detail, orderId: string)
    ensures ComputedTotal([d], orderId) == if d.orderId == orderId then Subtotal(d) else 0.0
  {
    assert [d][..0] == [];
    assert ItemsOf([d], orderId) == if d.orderId == orderId then [d] else [];
    assert LineTotal([d]) == Subtotal(d);
  }

  /** Appending a row (an inserted item, or one more fetched row) raises its
      order's computed total by exactly cantidad × precio and leaves every other
      order's total alone. */
  lemma AppendRowTotal(details: seq<Detail>, d: Detail, orderId: string)
    ensures ComputedTotal(details + [d], orderId) ==
      ComputedTotal(details, orderId) + (if d.orderId == orderId then Subtotal(d) else 0.0)
  {
    ComputedTotalAppend(details, [d], orderId);
    SingleRowTotal(d, orderId);
  }

  /** An order with no detail rows computes to 0. */
  lemma {:induction false} NoRowsComputesZero(details: seq<Detail>, orderId: string)
    requires forall d :: d in details ==> d.orderId != orderId
    ensures ComputedTotal(details, orderId) == 0.0
  {
    if details != [] {
      NoRowsComputesZero(details[..|details| - 1], orderId);
      assert details[|details| - 1] in details;
    }
  }

  /** The total does not depend on the order the rows come back in: the
      reconciler and updateOrderTotal read them without an ORDER BY. */
  lemma {:induction false} LineTotalPermutation(a: seq<Detail>, b: seq<Detail>)
    requires multiset(a) == multiset(b)
    ensures LineTotal(a) == LineTotal(b)
  {
    if a != [] {
      var x := a[|a| - 1];
      var a' := a[..|a| - 1];
      assert a == a' + [x];
      assert x in multiset(b);
      var k :| 0 <= k < |b| && b[k] == x;
      var b' := b[..k] + b[k + 1..];
      assert b == b[..k] + [x] + b[k + 1..];
      assert multiset(b') == multiset(b) - multiset{x};
      LineTotalPermutation(a', b');
      LineTotalAppend(a', [x]);
      LineTotalSplice(b[..k], x, b[k + 1..]);
    }
  }

  /** Putting one row between two lists adds its subtotal to their total. */
  lemma LineTotalSplice(p: seq<Detail>, x: Detail, q: seq<Detail>)
    ensures LineTotal(p + [x] + q) == LineTotal(p + q) + Subtotal(x)
  {
    LineTotalAppend(p + [x], q);
    LineTotalAppend(p, [x]);
    LineTotalAppend(p, q);
    assert [x][..0] == [];
  }

  /** `.update({ total }).eq('id', orderId)`: every row with that id gets the new
      total and nothing else changes. */
  function SetTotal(orders: seq<Order>, orderId: string, total: real): (r: seq<Order>)
    ensures |r| == |orders|
    ensures forall i :: 0 <= i < |orders| && orders[i].id == orderId ==>
      r[i] == orders[i].(total := Some(total))
    ensures forall i :: 0 <= i < |orders| && orders[i].id != orderId ==> r[i] == orders[i]
  {
    seq(|orders|, i requires 0 <= i < |orders| =>
      if orders[i].id == orderId then orders[i].(total := Some(total)) else orders[i])
  }

  /** Every header row of the order stores exactly the sum of its line items. */
  ghost predicate TotalMatches(orders: seq<Order>, details: seq<Detail>, orderId: string)
  {
    forall i :: 0 <= i < |orders| && orders[i].id == orderId ==>
      orders[i].total == Some(ComputedTotal(details, orderId))
  }

  /** Scenario: lines (2 × 10.00) and (1 × 5.00) add up to 25.00. */
  lemma {:induction false} TwoLineScenario(orderId: string)
    ensures ComputedTotal([Detail(1, orderId, 7, Some(2), Some(10.0)),
                           Detail(2, orderId, 8, Some(1), Some(5.0))], orderId) == 25.0
  {
    var d1 := Detail(1, orderId, 7, Some(2), Some(10.0));
    var d2 := Detail(2, orderId, 8, Some(1), Some(5.0));
    assert [d1, d2][..1] == [d1];
    assert [d1][..0] == [];
    assert ItemsOf([d1, d2], orderId) == [d1, d2];
    assert LineTotal([d1]) == 20.0;
  }
}

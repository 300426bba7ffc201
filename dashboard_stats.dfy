/** src/hooks/useDashboardStats.ts: the branch dashboard. Sales are summed over
    the branch's non-cancelled orders, quantities sold are accumulated per
    product into a map, and every branch_stock row becomes an overview row with
    remaining = stock − sold (which may go negative: overselling is allowed). */
module DashboardStats {
  import opened Wrappers
  import opened Schema
  import opened LineItems
  import Stock

  datatype OverviewRow = OverviewRow(
    productName: Option<string>,
    unit: Option<string>,
    initialStock: Option<int>,
    sold: int,
    remaining: int)

  datatype Stats = Stats(totalSales: real, stockOverview: seq<OverviewRow>)

  /** null (no branch), a thrown error, or the stats. */
  datatype StatsResult = NoBranch | Failed | Ready(stats: Stats)

  /** `.eq('sucursal', branch).neq('status', 'cancelled')`. */
  function Qualifying(orders: seq<Order>, branch: string): (r: seq<Order>)
    ensures forall o :: o in r <==> o in orders && o.sucursal == branch && o.status != "cancelled"
  {
    if orders == [] then []
    else
      var last := orders[|orders| - 1];
      Qualifying(orders[..|orders| - 1], branch) +
        (if last.sucursal == branch && last.status != "cancelled" then [last] else [])
  }

  /** `orders.reduce((sum, order) => sum + (order.total || 0), 0)`. */
  function SalesTotal(orders: seq<Order>): real
  {
    if orders == [] then 0.0 else SalesTotal(orders[..|orders| - 1]) + OrZeroReal(orders[|orders| - 1].total)
  }

  /** The embedded `items` of every order, order after order. */
  function AllLines(orders: seq<Order>, details: seq<Detail>): seq<Detail>
  {
    if orders == [] then []
    else AllLines(orders[..|orders| - 1], details) + ItemsOf(details, orders[|orders| - 1].id)
  }

  /** Σ (cantidad || 0) over the lines of one product. */
  function SoldQty(lines: seq<Detail>, productId: int): int
  {
    if lines == [] then 0
    else
      var last := lines[|lines| - 1];
      SoldQty(lines[..|lines| - 1], productId) + (if last.productId == productId then OrZero(last.cantidad) else 0)
  }

  /** `soldMap.get(pid) || 0`. */
  function Get(sold: map<int, int>, productId: int): int
  {
    if productId in sold then sold[productId] else 0
  }

  lemma {:induction false} SoldQtyAppend(a: seq<Detail>, b: seq<Detail>, productId: int)
    ensures SoldQty(a + b, productId) == SoldQty(a, productId) + SoldQty(b, productId)
  {
    if b == [] {
      assert a + b == a;
    } else {
      assert (a + b)[..|a + b| - 1] == a + b[..|b| - 1];
      SoldQtyAppend(a, b[..|b| - 1], productId);
    }
  }

  /** One more line credits its product only. */
  lemma SoldQtySnoc(lines: seq<Detail>, item: Detail, productId: int)
    ensures SoldQty(lines + [item], productId) ==
      SoldQty(lines, productId) + (if item.productId == productId then OrZero(item.cantidad) else 0)
  {
    assert (lines + [item])[..|lines|] == lines;
  }

  /** The inner `forEach` over one order's items. */
  method CreditItems(sold0: map<int, int>, items: seq<Detail>) returns (sold: map<int, int>)
    ensures forall pid :: Get(sold, pid) == Get(sold0, pid) + SoldQty(items, pid)
  {
    sold := sold0;
    for j := 0 to |items|
      invariant forall pid :: Get(sold, pid) == Get(sold0, pid) + SoldQty(items[..j], pid)
    {
      var item := items[j];
      assert items[..j + 1] == items[..j] + [item];
      var qty := OrZero(item.cantidad);
      sold := sold[item.productId := Get(sold, item.productId) + qty];
      forall pid
        ensures Get(sold, pid) == Get(sold0, pid) + SoldQty(items[..j + 1], pid)
      {
        SoldQtySnoc(items[..j], item, pid);
      }
    }
    assert items[..|items|] == items;
  }

  /** The nested `forEach` that fills `soldMap`. */
  method SoldPerProduct(orders: seq<Order>, details: seq<Detail>) returns (sold: map<int, int>)
    ensures forall pid :: Get(sold, pid) == SoldQty(AllLines(orders, details), pid)
  {
    sold := map[];
    for i := 0 to |orders|
      invariant forall pid :: Get(sold, pid) == SoldQty(AllLines(orders[..i], details), pid)
    {
      assert orders[..i + 1][..i] == orders[..i];
      var items := ItemsOf(details, orders[i].id);
      ghost var done := AllLines(orders[..i], details);
      sold := CreditItems(sold, items);
      forall pid
        ensures Get(sold, pid) == SoldQty(AllLines(orders[..i + 1], details), pid)
      {
        SoldQtyAppend(done, items, pid);
      }
    }
    assert orders[..|orders|] == orders;
  }

  /** The first product with the given id (the `productos` join). */
  function FindProduct(products: seq<Product>, id: int): (r: Option<Product>)
    ensures r.Some? ==> r.value in products && r.value.id == id
    ensures r.None? ==> forall p :: p in products ==> p.id != id
  {
    if products == [] then None
    else if products[0].id == id then Some(products[0])
    else FindProduct(products[1..], id)
  }

  /** One overview row per stock row, in the same order: the joined
      product's name and packaging (absent when no product matches), the
      stock quantity, what was sold and what remains. */
  function Overview(stock: seq<StockRow>, products: seq<Product>, sold: map<int, int>): (r: seq<OverviewRow>)
    ensures |r| == |stock|
    ensures forall i :: 0 <= i < |r| ==>
      && (r[i].productName.Some? <==> exists p :: p in products && p.id == stock[i].productId)
      && r[i].unit.Some? == r[i].productName.Some?
      && (r[i].productName.Some? ==>
            exists p :: p in products && p.id == stock[i].productId &&
              r[i].productName == Some(p.nombre) && r[i].unit == Some(p.empaque))
      && r[i].initialStock == stock[i].quantity
      && r[i].sold == Get(sold, stock[i].productId)
      && r[i].remaining == OrZero(stock[i].quantity) - r[i].sold
  {
    seq(|stock|, i requires 0 <= i < |stock| =>
      var p := FindProduct(products, stock[i].productId);
      var s := Get(sold, stock[i].productId);
      OverviewRow(
        if p.Some? then Some(p.value.nombre) else None,
        if p.Some? then Some(p.value.empaque) else None,
        stock[i].quantity,
        s,
        OrZero(stock[i].quantity) - s))
  }

  /** The dashboard query. */
  method LoadStats(role: Option<Role>, ordersRead: Fetch<seq<Order>>, details: seq<Detail>,
                   stockRead: Fetch<seq<StockRow>>, products: seq<Product>)
    returns (r: StatsResult)
    ensures (role.None? || !Truthy(role.value.sucursal)) <==> r.NoBranch?
    ensures r.Failed? <==> !r.NoBranch? && (ordersRead.FetchError? || stockRead.FetchError?)
    ensures r.Ready? && (ordersRead.NoData? || stockRead.NoData?) ==> r.stats == Stats(0.0, [])
    ensures r.Ready? && ordersRead.Data? && stockRead.Data? ==>
      var branch := role.value.sucursal.value;
      var qualifying := Qualifying(ordersRead.rows, branch);
      var rows := Stock.BranchRows(stockRead.rows, branch);
      && r.stats.totalSales == SalesTotal(qualifying)
      && |r.stats.stockOverview| == |rows|
      && forall i :: 0 <= i < |rows| ==>
           && r.stats.stockOverview[i].initialStock == rows[i].quantity
           && r.stats.stockOverview[i].sold == SoldQty(AllLines(qualifying, details), rows[i].productId)
           && r.stats.stockOverview[i].remaining ==
                OrZero(rows[i].quantity) - SoldQty(AllLines(qualifying, details), rows[i].productId)
           && (r.stats.stockOverview[i].productName.Some? <==>
                 exists p :: p in products && p.id == rows[i].productId)
           && (r.stats.stockOverview[i].productName.Some? ==>
                 exists p :: p in products && p.id == rows[i].productId &&
                   r.stats.stockOverview[i].productName == Some(p.nombre) &&
                   r.stats.stockOverview[i].unit == Some(p.empaque))
           && r.stats.stockOverview[i].unit.Some? == r.stats.stockOverview[i].productName.Some?
  {
    if role.None? || !Truthy(role.value.sucursal) {
      return NoBranch;
    }
    var branch := role.value.sucursal.value;
    if ordersRead.FetchError? || stockRead.FetchError? {
      return Failed;
    }
    if ordersRead.NoData? || stockRead.NoData? {
      return Ready(Stats(0.0, []));
    }
    var orders := Qualifying(ordersRead.rows, branch);
    var stock := Stock.BranchRows(stockRead.rows, branch);
    var totalSales := SalesTotal(orders);
    var sold := SoldPerProduct(orders, details);
    r := Ready(Stats(totalSales, Overview(stock, products, sold)));
  }

  lemma {:induction false} SalesTotalAppend(a: seq<Order>, b: seq<Order>)
    ensures SalesTotal(a + b) == SalesTotal(a) + SalesTotal(b)
  {
    if b == [] {
      assert a + b == a;
    } else {
      assert (a + b)[..|a + b| - 1] == a + b[..|b| - 1];
      SalesTotalAppend(a, b[..|b| - 1]);
    }
  }

  /** A new order of the branch adds its total (null as 0) to the sales and its
      lines to the quantities sold; a cancelled order or one of another branch
      changes neither. */
  lemma NewOrderEffect(orders: seq<Order>, details: seq<Detail>, branch: string, o: Order, productId: int)
    ensures o.sucursal == branch && o.status != "cancelled" ==>
      && SalesTotal(Qualifying(orders + [o], branch)) == SalesTotal(Qualifying(orders, branch)) + OrZeroReal(o.total)
      && SoldQty(AllLines(Qualifying(orders + [o], branch), details), productId) ==
           SoldQty(AllLines(Qualifying(orders, branch), details), productId) + SoldQty(ItemsOf(details, o.id), productId)
    ensures !(o.sucursal == branch && o.status != "cancelled") ==>
      Qualifying(orders + [o], branch) == Qualifying(orders, branch)
  {
    assert (orders + [o])[..|orders|] == orders;
    var q := Qualifying(orders, branch);
    if o.sucursal == branch && o.status != "cancelled" {
      assert Qualifying(orders + [o], branch) == q + [o];
      SalesTotalAppend(q, [o]);
      assert [o][..0] == [];
      assert (q + [o])[..|q|] == q;
      SoldQtyAppend(AllLines(q, details), ItemsOf(details, o.id), productId);
    }
  }

  /** Sales do not depend on the order the rows come back in. */
  lemma {:induction false} SalesTotalPermutation(a: seq<Order>, b: seq<Order>)
    requires multiset(a) == multiset(b)
    ensures SalesTotal(a) == SalesTotal(b)
  {
    if a != [] {
      var x := a[|a| - 1];
      var a' := a[..|a| - 1];
      assert a == a' + [x];
      assert x in multiset(b);
      var k :| 0 <= k < |b| && b[k] == x;
      var b' := b[..k] + b[k + 1..];
      assert b == b[..k] + [x] + b[k + 1..];
      assert multiset(b') == multiset(b) - multiset{x};
      SalesTotalPermutation(a', b');
      SalesTotalAppend(a', [x]);
      SalesTotalSplice(b[..k], x, b[k + 1..]);
    }
  }

  /** Putting one order between two lists adds its sale to their sales. */
  lemma SalesTotalSplice(p: seq<Order>, x: Order, q: seq<Order>)
    ensures SalesTotal(p + [x] + q) == SalesTotal(p + q) + SalesTotal([x])
  {
    SalesTotalAppend(p + [x], q);
    SalesTotalAppend(p, [x]);
    SalesTotalAppend(p, q);
  }
}

/** src/hooks/useOrders.ts: the order list query. Operatives and branch
    administrators with a branch see that branch's orders; every other role,
    and a role without a branch, sees all of them; newest first. */
module OrdersQuery {
  import opened Wrappers
  import opened Schema
  import opened Ordering

  /** `.order('created_at', { ascending: false })`. */
  function NewestFirst(): (le: (Order, Order) -> bool)
    ensures forall a, b :: le(a, b) <==> a.createdAt >= b.createdAt
  {
    (a: Order, b: Order) => a.createdAt >= b.createdAt
  }

  lemma NewestFirstIsTotalPreorder()
    ensures TotalPreorder(NewestFirst())
  {
  }

  /** The `.eq('sucursal', ...)` filter is added for operatives and branch
      administrators whose role has a (non-empty) branch. */
  predicate BranchScoped(role: Role)
  {
    (role.role == "operative" || role.role == "branch_admin") && Truthy(role.sucursal)
  }

  /** `.eq('sucursal', branch)`, in table order. */
  function OrdersOfBranch(orders: seq<Order>, branch: string): (r: seq<Order>)
    ensures forall o :: o in r <==> o in orders && o.sucursal == branch
  {
    if orders == [] then []
    else
      var last := orders[|orders| - 1];
      OrdersOfBranch(orders[..|orders| - 1], branch) + (if last.sucursal == branch then [last] else [])
  }

  /** The rows the role may read, before ordering. */
  function Scope(orders: seq<Order>, role: Role): (r: seq<Order>)
  {
    if BranchScoped(role) then OrdersOfBranch(orders, role.sucursal.value) else orders
  }

  /** The query: [] without a signed-in user or a role row, [] when the read
      fails, otherwise the role's orders newest first. */
  function LoadOrders(userId: Option<string>, role: Option<Role>, orders: seq<Order>, readOk: bool)
    : (r: seq<Order>)
    ensures !Truthy(userId) || role.None? || !readOk ==> r == []
    ensures Truthy(userId) && role.Some? && readOk ==>
      SortedBy(r, NewestFirst()) && multiset(r) == multiset(Scope(orders, role.value))
  {
    if !Truthy(userId) || role.None? || !readOk then []
    else
      NewestFirstIsTotalPreorder();
      SortBy(Scope(orders, role.value), NewestFirst())
  }

  /** What a signed-in user sees: an order is listed exactly when it is in the
      table and, for a branch-scoped role, belongs to the role's branch. */
  lemma VisibleIffInScope(userId: string, role: Role, orders: seq<Order>, o: Order)
    requires userId != ""
    ensures o in LoadOrders(Some(userId), Some(role), orders, true) <==>
      o in orders && (BranchScoped(role) ==> o.sucursal == role.sucursal.value)
  {
    var r := LoadOrders(Some(userId), Some(role), orders, true);
    assert o in r <==> o in multiset(Scope(orders, role));
  }

  /** A super administrator, and an operative or branch administrator whose
      role has no branch, sees every order of the table. */
  lemma UnscopedRolesSeeAll(userId: string, role: Role, orders: seq<Order>)
    requires userId != ""
    requires role.role == "super_admin" || !Truthy(role.sucursal)
    ensures multiset(LoadOrders(Some(userId), Some(role), orders, true)) == multiset(orders)
  {
  }

  /** The newest order of the role's scope comes first. */
  lemma NewestComesFirst(userId: string, role: Role, orders: seq<Order>, o: Order)
    requires userId != ""
    requires o in orders && (BranchScoped(role) ==> o.sucursal == role.sucursal.value)
    ensures LoadOrders(Some(userId), Some(role), orders, true) != []
    ensures LoadOrders(Some(userId), Some(role), orders, true)[0].createdAt >= o.createdAt
  {
    var r := LoadOrders(Some(userId), Some(role), orders, true);
    VisibleIffInScope(userId, role, orders, o);
    var k :| 0 <= k < |r| && r[k] == o;
    if k != 0 {
      assert NewestFirst()(r[0], r[k]);
    }
  }
}

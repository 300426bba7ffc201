/** src/hooks/useRequisitions.ts: the requisition list query, with the same
    role-based branch visibility as the order list; newest first. */
module RequisitionsQuery {
  import opened Wrappers
  import opened Schema
  import opened Ordering
  import OrdersQuery

  /** `.order('created_at', { ascending: false })`. */
  function NewestFirst(): (le: (Requisition, Requisition) -> bool)
    ensures forall a, b :: le(a, b) <==> a.createdAt >= b.createdAt
  {
    (a: Requisition, b: Requisition) => a.createdAt >= b.createdAt
  }

  lemma NewestFirstIsTotalPreorder()
    ensures TotalPreorder(NewestFirst())
  {
  }

  /** `.eq('sucursal', branch)`, in table order. */
  function RequisitionsOfBranch(reqs: seq<Requisition>, branch: string): (r: seq<Requisition>)
    ensures forall q :: q in r <==> q in reqs && q.sucursal == branch
  {
    if reqs == [] then []
    else
      var last := reqs[|reqs| - 1];
      RequisitionsOfBranch(reqs[..|reqs| - 1], branch) + (if last.sucursal == branch then [last] else [])
  }

  /** The filter as the hook builds it: one branch for operatives, one for
      branch administrators, each adding the branch filter when the role has
      a branch; super administrators and other roles see everything. */
  function Scope(reqs: seq<Requisition>, role: Role): (r: seq<Requisition>)
  {
    if role.role == "operative" then
      (if Truthy(role.sucursal) then RequisitionsOfBranch(reqs, role.sucursal.value) else reqs)
    else if role.role == "branch_admin" then
      (if Truthy(role.sucursal) then RequisitionsOfBranch(reqs, role.sucursal.value) else reqs)
    else reqs
  }

  /** The two role branches filter exactly when the order list does. */
  lemma SameVisibilityAsOrders(reqs: seq<Requisition>, role: Role)
    ensures OrdersQuery.BranchScoped(role) ==> Scope(reqs, role) == RequisitionsOfBranch(reqs, role.sucursal.value)
    ensures !OrdersQuery.BranchScoped(role) ==> Scope(reqs, role) == reqs
  {
  }

  /** The query: [] without a signed-in user or a role row, [] when the read
      fails, otherwise the role's requisitions newest first. */
  function LoadRequisitions(userId: Option<string>, role: Option<Role>, reqs: seq<Requisition>, readOk: bool)
    : (r: seq<Requisition>)
    ensures !Truthy(userId) || role.None? || !readOk ==> r == []
    ensures Truthy(userId) && role.Some? && readOk ==>
      SortedBy(r, NewestFirst()) && multiset(r) == multiset(Scope(reqs, role.value))
  {
    if !Truthy(userId) || role.None? || !readOk then []
    else
      NewestFirstIsTotalPreorder();
      SortBy(Scope(reqs, role.value), NewestFirst())
  }

  /** A requisition is listed exactly when it is in the table and, for an
      operative or branch administrator with a branch, belongs to that branch. */
  lemma VisibleIffInScope(userId: string, role: Role, reqs: seq<Requisition>, q: Requisition)
    requires userId != ""
    ensures q in LoadRequisitions(Some(userId), Some(role), reqs, true) <==>
      q in reqs && (OrdersQuery.BranchScoped(role) ==> q.sucursal == role.sucursal.value)
  {
    var r := LoadRequisitions(Some(userId), Some(role), reqs, true);
    SameVisibilityAsOrders(reqs, role);
    assert q in r <==> q in multiset(Scope(reqs, role));
  }

  /** A super administrator sees every requisition, whatever its branch. */
  lemma SuperAdminSeesAll(userId: string, branch: Option<string>, reqs: seq<Requisition>)
    requires userId != ""
    ensures multiset(LoadRequisitions(Some(userId), Some(Role("super_admin", branch)), reqs, true)) == multiset(reqs)
  {
  }
}

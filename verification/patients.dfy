/**
 * The Patients page: the user list filtered by a search box and by role and
 * status drop-downs, the role options derived from the data, and the detail
 * modal.
 */
module Patients {

  import opened Maybe
  import opened Text
  import opened Seqs

  datatype User = User(
    id: int,
    sn: int,
    name: string,
    email: string,
    userId: string,
    role: string,
    date: string,
    phone: string,
    address: string,
    department: string,
    status: string,
    lastLogin: string,
    employeeId: string,
    joinDate: string,
    avatar: Option<string>)

  /** The status drop-down options. */
  const Statuses: seq<string> := ["All", "Active", "Inactive"]

  datatype Page = Page(
    users: seq<User>,
    selected: Option<User>,
    modalOpen: bool,
    query: string,
    roleFilter: string,
    statusFilter: string)

  /** The page on first render: no modal, no filter. */
  function InitialPage(seed: seq<User>): (p: Page)
    ensures p.users == seed && p.selected.None? && !p.modalOpen
    ensures p.query == "" && p.roleFilter == "All" && p.statusFilter == "All"
    ensures FilteredUsers(p.users, p.query, p.roleFilter, p.statusFilter) == seed
  {
    Page(seed, None, false, "", "All", "All")
  }

  /** Name, email or user id contain the query, ignoring case. */
  predicate MatchesSearch(u: User, query: string)
  {
    MatchesIgnoringCase(u.name, query)
    || MatchesIgnoringCase(u.email, query)
    || MatchesIgnoringCase(u.userId, query)
  }

  /** A row is shown when the search matches and each drop-down is "All" or equal to the field. */
  predicate Visible(u: User, query: string, roleFilter: string, statusFilter: string)
  {
    && MatchesSearch(u, query)
    && (roleFilter == "All" || u.role == roleFilter)
    && (statusFilter == "All" || u.status == statusFilter)
  }

  /** The filter callback of `filteredUsers`. */
  function VisibleUnder(query: string, roleFilter: string, statusFilter: string): User -> bool
  {
    (u: User) => Visible(u, query, roleFilter, statusFilter)
  }

  lemma EmptySearchMatchesAll()
    ensures forall u: User :: MatchesSearch(u, "")
  {
    forall u: User ensures MatchesSearch(u, "") {
      EmptyQueryMatches(u.name);
    }
  }

  /**
   * `filteredUsers`: a user is listed exactly when the search matches the
   * name, email or user id and both drop-downs admit the user; the list keeps
   * the original order and with every control at its sentinel it is `users`.
   */
  function FilteredUsers(users: seq<User>, query: string, roleFilter: string, statusFilter: string): (r: seq<User>)
    ensures IsSubseq(r, users)
    ensures forall i :: 0 <= i < |r| ==>
      && MatchesSearch(r[i], query)
      && (roleFilter == "All" || r[i].role == roleFilter)
      && (statusFilter == "All" || r[i].status == statusFilter)
    ensures forall i :: 0 <= i < |users| ==>
      (Visible(users[i], query, roleFilter, statusFilter) ==> users[i] in r)
    ensures |r| == CountWhere(users, VisibleUnder(query, roleFilter, statusFilter))
    ensures query == "" && roleFilter == "All" && statusFilter == "All" ==> r == users
  {
    EmptySearchMatchesAll();
    Filter(users, VisibleUnder(query, roleFilter, statusFilter))
  }

  /** The role of every user, in list order. */
  function RolesOf(users: seq<User>): (r: seq<string>)
    ensures |r| == |users| && forall i :: 0 <= i < |users| ==> r[i] == users[i].role
  {
    seq(|users|, i requires 0 <= i < |users| => users[i].role)
  }

  /**
   * `roles`: "All" followed by each distinct role of the users exactly once,
   * in the order the roles first appear in the list.
   */
  function Roles(users: seq<User>): (r: seq<string>)
    ensures |r| >= 1 && r[0] == "All"
    ensures forall i :: 0 <= i < |users| ==> users[i].role in r[1..]
    ensures forall k :: 1 <= k < |r| ==> r[k] in RolesOf(users)
    ensures forall k, l :: 1 <= k < l < |r| ==> r[k] != r[l]
    ensures forall k, l :: 1 <= k < l < |r| ==> FirstIndex(RolesOf(users), r[k]) < FirstIndex(RolesOf(users), r[l])
  {
    var d := Dedup(RolesOf(users));
    assert (["All"] + d)[1..] == d;
    ["All"] + d
  }

  /** Choosing a specific role instead of "All" only narrows the list: the result is a subsequence. */
  lemma {:induction false} RoleFilterNarrows(users: seq<User>, query: string, role: string, statusFilter: string)
    ensures IsSubseq(FilteredUsers(users, query, role, statusFilter), FilteredUsers(users, query, "All", statusFilter))
  {
    FilterMonotone(users,
      VisibleUnder(query, role, statusFilter),
      VisibleUnder(query, "All", statusFilter));
  }

  /** `handleViewUser`: opens the modal on the clicked user. */
  function ViewUser(p: Page, u: User): (r: Page)
    ensures r.modalOpen && r.selected == Some(u)
    ensures r.users == p.users && r.query == p.query && r.roleFilter == p.roleFilter && r.statusFilter == p.statusFilter
  {
    p.(selected := Some(u), modalOpen := true)
  }

  /** `handleCloseModal`: closes the modal and forgets the user. */
  function CloseModal(p: Page): (r: Page)
    ensures !r.modalOpen && r.selected.None?
    ensures r.users == p.users && r.query == p.query && r.roleFilter == p.roleFilter && r.statusFilter == p.statusFilter
  {
    p.(modalOpen := false, selected := None)
  }

  /** Viewing a user and closing the modal returns to the closed page with the same list and filters. */
  lemma ViewThenCloseRestores(p: Page, u: User)
    requires !p.modalOpen && p.selected.None?
    ensures CloseModal(ViewUser(p, u)) == p
  {
  }

}

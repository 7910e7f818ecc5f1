/** The admin "Users" screen (src/pages/admin/AdminUsers.tsx): the fixture of twenty users,
    the search over name and email with a role drop-down, ten users per page, the role badge
    and the per-role row action. */
module AdminUsers {
  import opened Common
  import opened Listing

  const PageSize: int := 10

  /** A user as the fixture builds it; phone, address and dates are left out. */
  datatype User = User(id: string, name: string, email: string, role: UserRole)

  const FixtureNames: seq<string> :=
    ["Abdul Rahman", "Fatima Begum", "Mohammad Karim", "Nusrat Jahan", "Rafiq Islam"]

  /** The role cycle of the fixture: client, client, client, provider, admin. */
  function RoleAt(k: int): UserRole
    requires 0 <= k < 5
  {
    [Client, Client, Client, Provider, Admin][k]
  }

  function FixtureUser(i: nat): (u: User)
    ensures u.role == RoleAt(i % 5)
  {
    User("user-" + NatToString(i + 1), FixtureNames[i % 5],
         "user" + NatToString(i + 1) + "@example.com", RoleAt(i % 5))
  }

  /** The mock data: twenty users. */
  const Users: seq<User> := seq(20, i requires 0 <= i < 20 => FixtureUser(i))

  /** The role drop-down: 'all' or one role. */
  datatype RoleFilter = AllRoles | OnlyRole(role: UserRole)

  /** The filter callback: the term is found, ignoring case, in the name or the email, and
      the drop-down is 'all' or the user's role. */
  predicate Matches(u: User, term: string, f: RoleFilter) {
    var matchesSearch := Includes(u.name, term) || Includes(u.email, term);
    var matchesRole := f == AllRoles || u.role == f.role;
    matchesSearch && matchesRole
  }

  function Keep(term: string, f: RoleFilter): User -> bool {
    u => Matches(u, term, f)
  }

  /** `filteredUsers`: exactly the matching users, in their original order. */
  function FilterUsers(users: seq<User>, term: string, f: RoleFilter): (r: seq<User>)
    ensures forall k :: 0 <= k < |r| ==> r[k] in users && Matches(r[k], term, f)
    ensures forall k :: 0 <= k < |users| && Matches(users[k], term, f) ==> users[k] in r
    ensures exists idx :: AtPositions(r, users, idx) &&
                          forall j :: 0 <= j < |users| ==> (Matches(users[j], term, f) <==> j in idx)
  {
    FilterKeepsOrder(users, Keep(term, f));
    Filter(users, Keep(term, f))
  }

  /** `currentUsers`: at most ten matching users, the page `page` of the filtered list, and
      none past the last page. */
  function CurrentUsers(users: seq<User>, term: string, f: RoleFilter, page: int): (r: seq<User>)
    ensures |r| <= PageSize
    ensures forall k :: 0 <= k < |r| ==> r[k] in users && Matches(r[k], term, f)
    ensures var filtered := FilterUsers(users, term, f);
            1 <= page && (page - 1) * PageSize <= |filtered| ==>
              r == filtered[(page - 1) * PageSize..Min(page * PageSize, |filtered|)]
    ensures var filtered := FilterUsers(users, term, f);
            TotalPages(|filtered|, PageSize) < page ==> r == []
  {
    var filtered := FilterUsers(users, term, f);
    if TotalPages(|filtered|, PageSize) < page then
      PageBeyondEndIsEmpty(filtered, page, PageSize);
      PageItems(filtered, page, PageSize)
    else
      PageItems(filtered, page, PageSize)
  }

  /** With an empty term only the role drop-down decides. */
  lemma EmptyTermMatchesByRole(u: User, f: RoleFilter)
    ensures Matches(u, "", f) <==> f == AllRoles || u.role == f.role
  {
    EmptyTermIncluded(u.name);
  }

  /** How many of the first k positions of the role cycle hold each role. */
  function CycleCount(r: UserRole, k: nat): nat {
    match r
    case Provider => (k + 1) / 5
    case Admin => k / 5
    case Client => k - (k + 1) / 5 - k / 5
  }

  lemma CycleCountStep(r: UserRole, k: nat)
    requires 0 < k
    ensures CycleCount(r, k) == CycleCount(r, k - 1) + (if RoleAt((k - 1) % 5) == r then 1 else 0)
  {
  }

  /** In a list whose roles follow the cycle, the empty search with drop-down r keeps
      CycleCount(r, k) of the first k users. */
  lemma {:induction false} CyclicRoleCount(users: seq<User>, r: UserRole, k: nat)
    requires k <= |users|
    requires forall i :: 0 <= i < |users| ==> users[i].role == RoleAt(i % 5)
    ensures |Filter(users[..k], Keep("", OnlyRole(r)))| == CycleCount(r, k)
  {
    if k > 0 {
      var keep := Keep("", OnlyRole(r));
      var u := users[k - 1];
      CyclicRoleCount(users, r, k - 1);
      assert users[..k] == users[..k - 1] + [u];
      FilterSnoc(users[..k - 1], u, keep);
      assert |Filter(users[..k], keep)| == |Filter(users[..k - 1], keep)| + (if keep(u) then 1 else 0);
      EmptyTermMatchesByRole(u, OnlyRole(r));
      assert keep(u) <==> RoleAt((k - 1) % 5) == r;
      CycleCountStep(r, k);
    }
  }

  /** The fixture's roles follow the cycle. */
  lemma FixtureRoles()
    ensures |Users| == 20
    ensures forall i :: 0 <= i < |Users| ==> Users[i].role == RoleAt(i % 5)
  {
    forall i | 0 <= i < |Users|
      ensures Users[i].role == RoleAt(i % 5)
    {
      assert Users[i] == FixtureUser(i);
    }
  }

  /** Twenty users whose roles follow the cycle are twelve clients, four providers and four
      admins. */
  lemma TwentyCyclicUsers(users: seq<User>)
    requires |users| == 20
    requires forall i :: 0 <= i < |users| ==> users[i].role == RoleAt(i % 5)
    ensures |FilterUsers(users, "", OnlyRole(Client))| == 12
    ensures |FilterUsers(users, "", OnlyRole(Provider))| == 4
    ensures |FilterUsers(users, "", OnlyRole(Admin))| == 4
  {
    TwentyCyclicUsersOfRole(users, Client);
    TwentyCyclicUsersOfRole(users, Provider);
    TwentyCyclicUsersOfRole(users, Admin);
  }

  /** One role's count among twenty users in the cycle. */
  lemma TwentyCyclicUsersOfRole(users: seq<User>, r: UserRole)
    requires |users| == 20
    requires forall i :: 0 <= i < |users| ==> users[i].role == RoleAt(i % 5)
    ensures |FilterUsers(users, "", OnlyRole(r))| == CycleCount(r, 20)
  {
    assert users[..20] == users;
    CyclicRoleCount(users, r, 20);
    assert FilterUsers(users, "", OnlyRole(r)) == Filter(users[..20], Keep("", OnlyRole(r)));
  }

  /** The twenty fixture users are twelve clients, four providers and four admins. */
  lemma FixtureRoleCounts()
    ensures |FilterUsers(Users, "", OnlyRole(Client))| == 12
    ensures |FilterUsers(Users, "", OnlyRole(Provider))| == 4
    ensures |FilterUsers(Users, "", OnlyRole(Admin))| == 4
  {
    FixtureRoles();
    TwentyCyclicUsers(Users);
  }

  /** The badge colour classes of `getRoleColor`. */
  function RoleColor(r: UserRole): string {
    match r
    case Admin => "bg-purple-100 text-purple-800"
    case Provider => "bg-blue-100 text-blue-800"
    case Client => "bg-green-100 text-green-800"
  }

  /** The three roles have three different colours. */
  lemma RoleColorsDistinct(a: UserRole, b: UserRole)
    requires a != b
    ensures RoleColor(a) != RoleColor(b)
  {
  }

  datatype UserAction = ViewUser | EditUser | VerifyProvider | DeactivateUser | MoreActions

  /** The row buttons: View and Edit, then Verify for a provider and Deactivate for anyone
      else, then the "more" menu. */
  function RowActions(r: UserRole): (actions: seq<UserAction>)
    ensures |actions| == 4 && actions[0] == ViewUser && actions[1] == EditUser
    ensures actions[3] == MoreActions
    ensures VerifyProvider in actions <==> r == Provider
    ensures DeactivateUser in actions <==> r != Provider
  {
    [ViewUser, EditUser, if r == Provider then VerifyProvider else DeactivateUser, MoreActions]
  }
}

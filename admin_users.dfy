/** The admin's user list: activating and deactivating a user, the search,
    and the user and wallet totals. */
module AdminUsers {
  import opened Wrappers
  import opened Seqs
  import opened Text

  /** A user as the page lists it. */
  datatype AdminUser = AdminUser(
    id: string,
    name: string,
    username: string,
    mobileNumber: string,
    walletBalance: int,
    auctions: seq<string>,
    status: string)

  /** `users.find(u => u.id === userId)`: the first user with that id. */
  function FindUser(users: seq<AdminUser>, id: string): (r: Option<AdminUser>)
    ensures r.Some? ==> r.value in users && r.value.id == id
    ensures r.Some? ==> exists i :: 0 <= i < |users| && users[i] == r.value && forall j :: 0 <= j < i ==> users[j].id != id
    ensures r.None? <==> forall i :: 0 <= i < |users| ==> users[i].id != id
    decreases |users|
  {
    if users == [] then None
    else if users[0].id == id then Some(users[0])
    else
      var r := FindUser(users[1..], id);
      if r.Some? then
        var i :| 0 <= i < |users[1..]| && users[1..][i] == r.value && forall j :: 0 <= j < i ==> users[1..][j].id != id;
        assert users[i + 1] == r.value && forall j :: 0 <= j < i + 1 ==> users[j].id != id;
        r
      else r
  }

  /** `users.map(u => u.id === userId ? { ...u, status } : u)`: every user
      with that id gets the new status, nobody else changes. */
  function SetStatus(users: seq<AdminUser>, id: string, status: string): (r: seq<AdminUser>)
    ensures |r| == |users|
    ensures forall i :: 0 <= i < |users| && users[i].id == id ==> r[i] == users[i].(status := status)
    ensures forall i :: 0 <= i < |users| && users[i].id != id ==> r[i] == users[i]
  {
    Map((u: AdminUser) => if u.id == id then u.(status := status) else u, users)
  }

  /** Setting the same status twice is setting it once, and a later status
      replaces an earlier one. */
  lemma SetStatusOverwrites(users: seq<AdminUser>, id: string, s1: string, s2: string)
    ensures SetStatus(SetStatus(users, id, s1), id, s2) == SetStatus(users, id, s2)
  {
    var a := SetStatus(SetStatus(users, id, s1), id, s2);
    var b := SetStatus(users, id, s2);
    assert forall i :: 0 <= i < |users| ==> a[i] == b[i];
  }

  /** `handleUserAction`: the new list and the success message. An unknown
      id, or an action other than 'activate' and 'deactivate', changes nothing
      and says nothing. */
  function UserAction(users: seq<AdminUser>, id: string, action: string): (r: (seq<AdminUser>, Option<string>))
    ensures FindUser(users, id).None? || (action != "activate" && action != "deactivate") ==> r == (users, None)
    ensures FindUser(users, id).Some? && action == "activate" ==>
      r == (SetStatus(users, id, "active"), Some("User " + FindUser(users, id).value.name + " activated successfully"))
    ensures FindUser(users, id).Some? && action == "deactivate" ==>
      r == (SetStatus(users, id, "inactive"), Some("User " + FindUser(users, id).value.name + " deactivated successfully"))
  {
    match FindUser(users, id)
    case None => (users, None)
    case Some(user) =>
      if action == "activate" then
        (SetStatus(users, id, "active"), Some("User " + user.name + " activated successfully"))
      else if action == "deactivate" then
        (SetStatus(users, id, "inactive"), Some("User " + user.name + " deactivated successfully"))
      else (users, None)
  }

  /** The search: name or username contain the term ignoring case, or the
      mobile number contains it as typed. */
  predicate MatchesSearch(u: AdminUser, term: string)
    ensures term == "" ==> MatchesSearch(u, term)
  {
    IncludesEmpty(Lower(u.name));
    Includes(Lower(u.name), Lower(term)) || Includes(Lower(u.username), Lower(term)) || Includes(u.mobileNumber, term)
  }

  /** `filteredUsers`. */
  function FilteredUsers(users: seq<AdminUser>, term: string): (r: seq<AdminUser>)
    ensures IsSubseq(r, users)
    ensures forall i :: 0 <= i < |r| ==> MatchesSearch(r[i], term)
    ensures forall i :: 0 <= i < |users| && MatchesSearch(users[i], term) ==> users[i] in r
    ensures forall x :: multiset(r)[x] == if MatchesSearch(x, term) then multiset(users)[x] else 0
  {
    FilterCounts((u: AdminUser) => MatchesSearch(u, term), users);
    Filter((u: AdminUser) => MatchesSearch(u, term), users)
  }

  /** An empty search lists every user, in order. */
  lemma EmptySearchListsAll(users: seq<AdminUser>)
    ensures FilteredUsers(users, "") == users
  {
    forall u | u in users
      ensures MatchesSearch(u, "")
    {
      IncludesEmpty(Lower(u.name));
    }
    FilterAll((u: AdminUser) => MatchesSearch(u, ""), users);
  }

  /** Changing a status does not change who the search finds except through
      the status itself, which the search does not read. */
  lemma SearchIgnoresStatus(users: seq<AdminUser>, id: string, status: string, term: string)
    ensures |FilteredUsers(SetStatus(users, id, status), term)| == |FilteredUsers(users, term)|
  {
    SearchIgnoresStatusFrom(users, id, status, term);
  }

  lemma {:induction false} SearchIgnoresStatusFrom(users: seq<AdminUser>, id: string, status: string, term: string)
    ensures |Filter((u: AdminUser) => MatchesSearch(u, term), SetStatus(users, id, status))|
            == |Filter((u: AdminUser) => MatchesSearch(u, term), users)|
    decreases |users|
  {
    if users != [] {
      assert SetStatus(users, id, status)[1..] == SetStatus(users[1..], id, status);
      SearchIgnoresStatusFrom(users[1..], id, status, term);
    }
  }

  predicate IsActiveUser(u: AdminUser)
  {
    u.status == "active"
  }

  predicate IsNotActiveUser(u: AdminUser)
  {
    !IsActiveUser(u)
  }

  /** The "Active Users" figure. */
  function ActiveUsers(users: seq<AdminUser>): (r: nat)
    ensures r <= |users|
  {
    |Filter(IsActiveUser, users)|
  }

  /** The "Inactive Users" figure: everyone not active. */
  function InactiveUsers(users: seq<AdminUser>): (r: nat)
    ensures r + ActiveUsers(users) == |users|
  {
    |users| - ActiveUsers(users)
  }

  /** The inactive figure counts exactly the users whose status is not
      'active', whatever else it is. */
  lemma InactiveCountsTheRest(users: seq<AdminUser>)
    ensures InactiveUsers(users) == |Filter(IsNotActiveUser, users)|
  {
    FilterPartition(IsActiveUser, IsNotActiveUser, users);
  }

  /** Activating a listed user makes them count as active. */
  lemma {:induction false} ActivateCounts(users: seq<AdminUser>, id: string)
    requires exists i :: 0 <= i < |users| && users[i].id == id && !IsActiveUser(users[i])
    ensures ActiveUsers(SetStatus(users, id, "active")) > ActiveUsers(users)
    decreases |users|
  {
    var after := SetStatus(users, id, "active");
    var tail := users[1..];
    assert after[1..] == SetStatus(tail, id, "active");
    assert IsActiveUser(users[0]) ==> IsActiveUser(after[0]);
    if users[0].id == id && !IsActiveUser(users[0]) {
      assert IsActiveUser(after[0]);
      ActivateNeverLowers(tail, id);
    } else {
      assert exists j :: 0 <= j < |tail| && tail[j].id == id && !IsActiveUser(tail[j]) by {
        var i :| 0 <= i < |users| && users[i].id == id && !IsActiveUser(users[i]);
        assert tail[i - 1] == users[i];
      }
      ActivateCounts(tail, id);
    }
    ActiveCons(users);
    ActiveCons(after);
  }

  /** The active count of a non-empty list: its head, then the rest. */
  lemma ActiveCons(users: seq<AdminUser>)
    requires users != []
    ensures ActiveUsers(users) == (if IsActiveUser(users[0]) then 1 else 0) + ActiveUsers(users[1..])
  {
  }

  lemma {:induction false} ActivateNeverLowers(users: seq<AdminUser>, id: string)
    ensures ActiveUsers(SetStatus(users, id, "active")) >= ActiveUsers(users)
    decreases |users|
  {
    if users != [] {
      assert SetStatus(users, id, "active")[1..] == SetStatus(users[1..], id, "active");
      ActivateNeverLowers(users[1..], id);
    }
  }

  /** The "Total Wallet Balance" figure. */
  function TotalWalletBalance(users: seq<AdminUser>): (r: int)
    ensures (forall i :: 0 <= i < |users| ==> users[i].walletBalance >= 0) ==>
      r >= 0 && forall i :: 0 <= i < |users| ==> users[i].walletBalance <= r
  {
    SumBoundsEach((u: AdminUser) => u.walletBalance, users);
    Sum((u: AdminUser) => u.walletBalance, users)
  }

  /** A status change leaves the wallet total as it was. */
  lemma {:induction false} WalletTotalIgnoresStatus(users: seq<AdminUser>, id: string, status: string)
    ensures TotalWalletBalance(SetStatus(users, id, status)) == TotalWalletBalance(users)
    decreases |users|
  {
    if users != [] {
      assert SetStatus(users, id, status)[1..] == SetStatus(users[1..], id, status);
      WalletTotalIgnoresStatus(users[1..], id, status);
    }
  }

  /** The page's state. */
  class UsersPage {
    var users: seq<AdminUser>
    var searchTerm: string

    /** The page starts from a fixed list of users. */
    constructor (initial: seq<AdminUser>)
      ensures users == initial && searchTerm == ""
    {
      users, searchTerm := initial, "";
    }

    /** `handleUserAction`; the success message, if any, is returned. */
    method HandleUserAction(id: string, action: string) returns (message: Option<string>)
      modifies this
      ensures (users, message) == UserAction(old(users), id, action)
      ensures searchTerm == old(searchTerm)
    {
      var user := FindUser(users, id);
      message := None;
      if user.Some? {
        if action == "activate" {
          users := SetStatus(users, id, "active");
          message := Some("User " + user.value.name + " activated successfully");
        } else if action == "deactivate" {
          users := SetStatus(users, id, "inactive");
          message := Some("User " + user.value.name + " deactivated successfully");
        }
      }
    }
  }
}

/** The session side of the auth service: what logging in and out writes to
    the browser's session storage, and the checks that read it back. */
module AuthService {
  import opened Wrappers

  const TokenKey := "token"
  const UserKey := "user"
  const AdminTokenKey := "admin_token"
  const AdminKey := "admin"

  /** The four keys `logout` removes. */
  const SessionKeys: set<string> := {TokenKey, AdminTokenKey, UserKey, AdminKey}

  /** `sessionStorage.getItem(key)` read as a condition: present and not
      the empty string. */
  predicate Truthy(storage: map<string, string>, key: string)
  {
    key in storage && storage[key] != ""
  }

  /** A login answer: its token, if any, and the signed-in account already
      serialised as `JSON.stringify` writes it. */
  datatype LoginResponse = LoginResponse(token: Option<string>, accountJson: string)

  /** A token the `if (response.data.token)` test accepts. */
  predicate HasToken(r: LoginResponse)
  {
    r.token.Some? && r.token.value != ""
  }

  /** The storage after a logout: the four session keys gone, every other key kept. */
  function Cleared(storage: map<string, string>): (r: map<string, string>)
    ensures forall k :: k in SessionKeys ==> k !in r
    ensures forall k :: k !in SessionKeys ==> (k in r <==> k in storage) && (k in r ==> r[k] == storage[k])
  {
    storage - SessionKeys
  }

  /** Logging out twice is logging out once. */
  lemma ClearedIdempotent(storage: map<string, string>)
    ensures Cleared(Cleared(storage)) == Cleared(storage)
  {
  }

  /** The browser's session storage. */
  class SessionStore {
    var storage: map<string, string>

    constructor (initial: map<string, string>)
      ensures storage == initial
    {
      storage := initial;
    }

    /** `userLogin`: the token and the user are written only when the answer
        carries a token; nothing else is touched. */
    method UserLogin(response: LoginResponse)
      modifies this
      ensures HasToken(response) ==> storage == old(storage)[TokenKey := response.token.value][UserKey := response.accountJson]
      ensures !HasToken(response) ==> storage == old(storage)
      ensures HasToken(response) ==> IsAuthenticated()
    {
      if response.token.Some? && response.token.value != "" {
        storage := storage[TokenKey := response.token.value];
        storage := storage[UserKey := response.accountJson];
      }
    }

    /** `adminLogin`, with the admin keys. */
    method AdminLogin(response: LoginResponse)
      modifies this
      ensures HasToken(response) ==> storage == old(storage)[AdminTokenKey := response.token.value][AdminKey := response.accountJson]
      ensures !HasToken(response) ==> storage == old(storage)
      ensures HasToken(response) ==> IsAdminAuthenticated()
    {
      if response.token.Some? && response.token.value != "" {
        storage := storage[AdminTokenKey := response.token.value];
        storage := storage[AdminKey := response.accountJson];
      }
    }

    /** `logout`: removes the four keys one by one. */
    method Logout()
      modifies this
      ensures storage == Cleared(old(storage))
      ensures !IsAuthenticated() && !IsAdminAuthenticated()
      ensures CurrentUser().None? && CurrentAdmin().None?
    {
      storage := storage - {TokenKey};
      storage := storage - {AdminTokenKey};
      storage := storage - {UserKey};
      storage := storage - {AdminKey};
    }

    /** `getCurrentUser`: the stored user text (which the page then parses),
        None when it is absent or empty. */
    function CurrentUser(): (r: Option<string>)
      reads this
      ensures r.Some? <==> Truthy(storage, UserKey)
      ensures r.Some? ==> r.value == storage[UserKey]
    {
      if UserKey in storage && storage[UserKey] != "" then Some(storage[UserKey]) else None
    }

    /** `getCurrentAdmin`, with the admin key. */
    function CurrentAdmin(): (r: Option<string>)
      reads this
      ensures r.Some? <==> Truthy(storage, AdminKey)
      ensures r.Some? ==> r.value == storage[AdminKey]
    {
      if AdminKey in storage && storage[AdminKey] != "" then Some(storage[AdminKey]) else None
    }

    /** `isAuthenticated`: a non-empty 'token'. */
    predicate IsAuthenticated()
      reads this
    {
      Truthy(storage, TokenKey)
    }

    /** `isAdminAuthenticated`: a non-empty 'admin_token'. */
    predicate IsAdminAuthenticated()
      reads this
    {
      Truthy(storage, AdminTokenKey)
    }
  }

  /** A user login followed by a logout leaves the storage as a logout alone
      would: the login's writes do not survive. */
  lemma LoginThenLogout(storage: map<string, string>, response: LoginResponse)
    ensures HasToken(response) ==>
      Cleared(storage[TokenKey := response.token.value][UserKey := response.accountJson]) == Cleared(storage)
    ensures HasToken(response) ==>
      Cleared(storage[AdminTokenKey := response.token.value][AdminKey := response.accountJson]) == Cleared(storage)
  {
  }

  /** A user login leaves the admin session as it was, and the other way round. */
  lemma SessionsIndependent(storage: map<string, string>, response: LoginResponse)
    ensures HasToken(response) ==>
      var s := storage[TokenKey := response.token.value][UserKey := response.accountJson];
      (Truthy(s, AdminTokenKey) <==> Truthy(storage, AdminTokenKey)) && (Truthy(s, AdminKey) <==> Truthy(storage, AdminKey))
    ensures HasToken(response) ==>
      var s := storage[AdminTokenKey := response.token.value][AdminKey := response.accountJson];
      (Truthy(s, TokenKey) <==> Truthy(storage, TokenKey)) && (Truthy(s, UserKey) <==> Truthy(storage, UserKey))
  {
  }
}

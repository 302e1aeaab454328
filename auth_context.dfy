/**
 * The client's session (src/context/AuthContext.js): `token`,
 * `currentUser` and `loading`, the browser's `localStorage` as a map from
 * key to text, the startup check, signup, login and logout. `JSON.stringify`
 * and `JSON.parse` of a user are the functions `stringify` and `parse`; a
 * parse that throws is `None`.
 */
module AuthContext {
  import opened Text
  import opened ClientTypes

  const TokenKey := "token"
  const UserKey := "user"

  /** `localStorage.getItem(key)`: the stored text, or None (`null`). */
  function Lookup(storage: map<string, string>, key: string): (r: Option<string>)
    ensures r.Some? <==> key in storage
    ensures r.Some? ==> r.value == storage[key]
  {
    if key in storage then Some(storage[key]) else None
  }

  /** What the token effect keeps: the `token` key holds the token while it is truthy and is absent otherwise. */
  predicate Mirrors(storage: map<string, string>, token: Option<string>) {
    if Given(token) then TokenKey in storage && storage[TokenKey] == token.value else TokenKey !in storage
  }

  /** The stored session a startup check restores: a truthy stored token and a stored user that parses. */
  function Restorable(storage: map<string, string>, parse: string -> Option<SessionUser>): (u: Option<SessionUser>)
    ensures u.Some? <==> Given(Lookup(storage, TokenKey)) && Given(Lookup(storage, UserKey)) && parse(storage[UserKey]).Some?
    ensures u.Some? ==> u == parse(storage[UserKey])
  {
    if Given(Lookup(storage, TokenKey)) && Given(Lookup(storage, UserKey)) then parse(storage[UserKey]) else None
  }

  class AuthProvider {
    const stringify: SessionUser -> string
    const parse: string -> Option<SessionUser>
    var currentUser: Option<SessionUser>
    var token: Option<string>
    var loading: bool
    var storage: map<string, string>
    /** The API calls made so far, oldest first. */
    var requests: seq<Request>

    /** `!!token && !!currentUser`. */
    predicate IsAuthenticated()
      reads this
    {
      Given(token) && currentUser.Some?
    }

    /** Children render only once the startup check is over. */
    predicate RendersChildren()
      reads this
    {
      !loading
    }

    /**
     * Mounting the provider over the given storage: `token` starts as the
     * stored token, the token effect runs, the startup check runs, and the
     * token effect runs again for the token the check settled on.
     */
    constructor Mount(stringify: SessionUser -> string, parse: string -> Option<SessionUser>, stored: map<string, string>)
      ensures this.stringify == stringify && this.parse == parse && requests == []
      ensures RendersChildren() && Mirrors(storage, token)
      ensures Given(Lookup(stored, TokenKey)) && Given(Lookup(stored, UserKey)) && parse(stored[UserKey]).None? ==>
        token.None? && currentUser.None? && storage == stored - {UserKey, TokenKey}
      ensures Restorable(stored, parse).Some? ==>
        token == Some(stored[TokenKey]) && currentUser == Restorable(stored, parse) && storage == stored
      ensures Given(Lookup(stored, TokenKey)) && !Given(Lookup(stored, UserKey)) ==>
        token == Some(stored[TokenKey]) && currentUser.None? && storage == stored
      ensures !Given(Lookup(stored, TokenKey)) ==>
        token == Lookup(stored, TokenKey) && currentUser.None? && storage == stored - {TokenKey}
      ensures IsAuthenticated() <==> Restorable(stored, parse).Some?
    {
      this.stringify := stringify;
      this.parse := parse;
      currentUser := None;
      token := Lookup(stored, TokenKey);
      loading := true;
      storage := stored;
      requests := [];
      new;
      SyncToken();
      CheckLoggedIn();
      SyncToken();
    }

    /** The effect on `token`: write it under `token` when truthy, remove the key otherwise. */
    method SyncToken()
      modifies this
      ensures Mirrors(storage, token)
      ensures storage == if Given(token) then old(storage)[TokenKey := token.value] else old(storage) - {TokenKey}
      ensures token == old(token) && currentUser == old(currentUser) && loading == old(loading) && requests == old(requests)
    {
      if Given(token) {
        storage := storage[TokenKey := token.value];
      } else {
        storage := storage - {TokenKey};
      }
    }

    /** `checkLoggedIn`: restore the stored session, dropping a stored user that does not parse. */
    method CheckLoggedIn()
      modifies this
      ensures !loading && requests == old(requests)
      ensures var t := Lookup(old(storage), TokenKey); var u := Lookup(old(storage), UserKey);
        Given(t) ==>
          if !Given(u) then token == t && currentUser == old(currentUser) && storage == old(storage)
          else if parse(u.value).Some? then token == t && currentUser == parse(u.value) && storage == old(storage)
          else token.None? && currentUser.None? && storage == old(storage) - {UserKey}
      ensures !Given(Lookup(old(storage), TokenKey)) ==> token == old(token) && currentUser == old(currentUser) && storage == old(storage)
    {
      loading := true;
      var storedToken := Lookup(storage, TokenKey);
      if Given(storedToken) {
        token := storedToken;
        var storedUser := Lookup(storage, UserKey);
        if Given(storedUser) {
          match parse(storedUser.value) {
            case Some(u) =>
              currentUser := Some(u);
            case None =>
              storage := storage - {UserKey};
              token := None;
              currentUser := None;
          }
        }
      }
      loading := false;
    }

    /** The common tail of signup and login: take the reply's user and token and persist both. */
    method StartSession(data: AuthReply)
      requires Mirrors(storage, token)
      modifies this
      ensures Mirrors(storage, token)
      ensures currentUser == Some(data.user) && token == Some(data.token)
      ensures UserKey in storage && storage[UserKey] == stringify(data.user)
      ensures forall k | k != UserKey && k != TokenKey :: Lookup(storage, k) == Lookup(old(storage), k)
      ensures loading == old(loading) && requests == old(requests)
      ensures data.token != "" ==> IsAuthenticated()
    {
      currentUser := Some(data.user);
      storage := storage[UserKey := stringify(data.user)];
      token := Some(data.token);
      SyncToken();
    }

    /** `signup`: register, then start the session the reply describes; a rejected request changes nothing. */
    method Signup(name: string, email: string, password: string, reply: Api<AuthReply>) returns (outcome: Outcome<AuthReply>)
      requires Mirrors(storage, token)
      modifies this
      ensures Mirrors(storage, token) && loading == old(loading)
      ensures requests == old(requests) + [RegisterUser(name, email, password)]
      ensures reply.Ok? ==>
        outcome == Returned(reply.data) && currentUser == Some(reply.data.user) && token == Some(reply.data.token)
        && UserKey in storage && storage[UserKey] == stringify(reply.data.user)
      ensures IsAuthenticated() <==> (reply.Ok? && reply.data.token != "") || (reply.Fail? && old(IsAuthenticated()))
      ensures reply.Fail? ==>
        outcome == Threw(reply.err) && currentUser == old(currentUser) && token == old(token) && storage == old(storage)
    {
      requests := requests + [RegisterUser(name, email, password)];
      match reply {
        case Ok(data) =>
          StartSession(data);
          outcome := Returned(data);
        case Fail(err) =>
          outcome := Threw(err);
      }
    }

    /** `login`: authenticate, then start the session the reply describes; a rejected request changes nothing. */
    method Login(email: string, password: string, reply: Api<AuthReply>) returns (outcome: Outcome<AuthReply>)
      requires Mirrors(storage, token)
      modifies this
      ensures Mirrors(storage, token) && loading == old(loading)
      ensures requests == old(requests) + [LoginUser(email, password)]
      ensures reply.Ok? ==>
        outcome == Returned(reply.data) && currentUser == Some(reply.data.user) && token == Some(reply.data.token)
        && UserKey in storage && storage[UserKey] == stringify(reply.data.user)
      ensures IsAuthenticated() <==> (reply.Ok? && reply.data.token != "") || (reply.Fail? && old(IsAuthenticated()))
      ensures reply.Fail? ==>
        outcome == Threw(reply.err) && currentUser == old(currentUser) && token == old(token) && storage == old(storage)
    {
      requests := requests + [LoginUser(email, password)];
      match reply {
        case Ok(data) =>
          StartSession(data);
          outcome := Returned(data);
        case Fail(err) =>
          outcome := Threw(err);
      }
    }

    /** `logout`: forget the user and the token, in state and in storage. */
    method Logout()
      modifies this
      ensures !IsAuthenticated() && currentUser.None? && token.None?
      ensures storage == old(storage) - {UserKey, TokenKey} && Mirrors(storage, token)
      ensures loading == old(loading) && requests == old(requests)
    {
      currentUser := None;
      storage := storage - {UserKey};
      token := None;
      SyncToken();
    }
  }

  /**
   * A session survives a reload: after a successful login, a provider
   * mounted over the storage the first one left restores the same user and
   * is authenticated, provided the user's JSON text parses back to it.
   */
  method SessionSurvivesReload(stringify: SessionUser -> string, parse: string -> Option<SessionUser>,
                               stored: map<string, string>, email: string, password: string, data: AuthReply)
    returns (restored: Option<SessionUser>, authenticated: bool)
    requires parse(stringify(data.user)) == Some(data.user) && stringify(data.user) != ""
    requires data.token != ""
    ensures restored == Some(data.user) && authenticated
  {
    var first := new AuthProvider.Mount(stringify, parse, stored);
    var _ := first.Login(email, password, Ok(data));
    var second := new AuthProvider.Mount(stringify, parse, first.storage);
    restored := second.currentUser;
    authenticated := second.IsAuthenticated();
  }

  /** After logout, a reload restores nothing. */
  method LogoutSurvivesReload(stringify: SessionUser -> string, parse: string -> Option<SessionUser>, stored: map<string, string>)
    returns (restored: Option<SessionUser>, authenticated: bool)
    ensures restored.None? && !authenticated
  {
    var first := new AuthProvider.Mount(stringify, parse, stored);
    first.Logout();
    var second := new AuthProvider.Mount(stringify, parse, first.storage);
    restored := second.currentUser;
    authenticated := second.IsAuthenticated();
  }
}

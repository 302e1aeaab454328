/**
 * The account API (server/routes/auth.js): register, login and
 * change-password over the user collection. The collection is keyed by the
 * normalised email, which is how its unique index and the lower-casing
 * lookups behave. Password hashing is the uninterpreted function `hash`;
 * `bcrypt.compare(p, h)` is `hash(p) == h`.
 */
module AuthRoutes {
  import opened Text
  import opened ObjectId
  import opened Jwt
  import opened UserSchema
  import AuthMiddleware

  const MinPasswordLength := 6

  const MissingRegisterFieldsMsg := "Please enter name, email, and password"
  const ShortPasswordMsg := "Password must be at least 6 characters"
  const UserExistsMsg := "User already exists with this email"
  const RegisterServerErrorText := "Server error during registration"
  const MissingLoginFieldsMsg := "Please enter email and password"
  const UnknownUserMsg := "Invalid credentials (user not found)"
  const PasswordMismatchMsg := "Invalid credentials (password mismatch)"
  const MissingPasswordsMsg := "Please provide current and new passwords."
  const ShortNewPasswordMsg := "New password must be at least 6 characters."
  const SamePasswordMsg := "New password cannot be the same as the current password."
  const UserVanishedMsg := "User not found."
  const WrongCurrentPasswordMsg := "Incorrect current password."
  const PasswordChangedMsg := "Password changed successfully."
  const ChangePasswordServerErrorText := "Server error during password change."

  /** The public view of a user returned to clients: no hash. */
  datatype PublicUser = PublicUser(id: string, name: string, email: string)

  datatype Body =
    | Message(msg: string)
    | ServerText(text: string)
    | Session(token: Token, user: PublicUser)

  datatype Response = Response(status: nat, body: Body)

  function PublicView(u: UserRecord): (p: PublicUser)
    ensures p.id == u.id && p.name == u.name && p.email == u.email
  {
    PublicUser(u.id, u.name, u.email)
  }

  /** The token payload's `user`: `{ id, email, name }` of the account. */
  function ClaimsOf(u: UserRecord): (c: Claims)
    ensures c.id == u.id && c.email == u.email && c.name == u.name
  {
    Claims(u.id, u.email, u.name)
  }

  /**
   * The checks register makes before touching the store, in order: all of
   * name, email and password present, then the password length.
   */
  function RegisterInputError(name: Option<string>, email: Option<string>, password: Option<string>): (err: Option<string>)
    ensures err.None? <==> Given(name) && Given(email) && Given(password) && |password.value| >= MinPasswordLength
    ensures !(Given(name) && Given(email) && Given(password)) ==> err == Some(MissingRegisterFieldsMsg)
    ensures Given(name) && Given(email) && Given(password) && |password.value| < MinPasswordLength ==> err == Some(ShortPasswordMsg)
  {
    if !Given(name) || !Given(email) || !Given(password) then Some(MissingRegisterFieldsMsg)
    else if |password.value| < MinPasswordLength then Some(ShortPasswordMsg)
    else None
  }

  /**
   * The checks change-password makes before touching the store, in order:
   * both passwords present, the new one long enough, the new one different.
   */
  function ChangePasswordInputError(current: Option<string>, newPassword: Option<string>): (err: Option<string>)
    ensures err.None? <==> Given(current) && Given(newPassword) && |newPassword.value| >= MinPasswordLength && current.value != newPassword.value
    ensures !(Given(current) && Given(newPassword)) ==> err == Some(MissingPasswordsMsg)
    ensures Given(current) && Given(newPassword) && |newPassword.value| < MinPasswordLength ==> err == Some(ShortNewPasswordMsg)
    ensures Given(current) && Given(newPassword) && |newPassword.value| >= MinPasswordLength && current.value == newPassword.value ==> err == Some(SamePasswordMsg)
  {
    if !Given(current) || !Given(newPassword) then Some(MissingPasswordsMsg)
    else if |newPassword.value| < MinPasswordLength then Some(ShortNewPasswordMsg)
    else if current.value == newPassword.value then Some(SamePasswordMsg)
    else None
  }

  /** What every stored account satisfies: it sits under its normalised email and passed the validators. */
  predicate Registered(key: string, u: UserRecord, now: nat) {
    u.email == key && NormalEmail(key) && Conforms(u) && WellFormedId(u.id) && u.createdAt <= now
  }

  /** A well-formed user collection: every entry registered under its key, and no id used twice. */
  ghost predicate Directory(users: map<string, UserRecord>, now: nat) {
    && (forall key | key in users :: Registered(key, users[key], now))
    && (forall k1, k2 | k1 in users && k2 in users && users[k1].id == users[k2].id :: k1 == k2)
  }

  /** Adding an account under a new key with a new id keeps the collection well formed. */
  lemma DirectoryInsert(users: map<string, UserRecord>, key: string, u: UserRecord, now: nat)
    requires Directory(users, now) && Registered(key, u, now)
    requires key !in users && forall k | k in users :: users[k].id != u.id
    ensures Directory(users[key := u], now)
  {
    var m := users[key := u];
    forall k | k in m ensures Registered(k, m[k], now) {
      if k != key { assert m[k] == users[k]; }
    }
    forall k1, k2 | k1 in m && k2 in m && m[k1].id == m[k2].id ensures k1 == k2 {
      if k1 != key && k2 != key { assert users[k1].id == users[k2].id; }
    }
  }

  /** Replacing an account's hash keeps the collection well formed. */
  lemma DirectoryRehash(users: map<string, UserRecord>, key: string, h: string, now: nat)
    requires Directory(users, now) && key in users && h != ""
    ensures Directory(users[key := users[key].(passwordHash := h)], now)
  {
    var old_u := users[key];
    var u := old_u.(passwordHash := h);
    assert Registered(key, old_u, now);
    assert u.email == old_u.email && u.name == old_u.name && u.id == old_u.id && u.createdAt == old_u.createdAt;
    assert Registered(key, u, now);
    var m := users[key := u];
    forall k | k in m ensures Registered(k, m[k], now) {
      if k != key { assert m[k] == users[k]; }
    }
    forall k1, k2 | k1 in m && k2 in m && m[k1].id == m[k2].id ensures k1 == k2 {
      assert m[k1].id == users[k1].id && m[k2].id == users[k2].id;
    }
  }

  /** The user collection keyed by stored email, the password hash function, and the clock (milliseconds). */
  class UserStore {
    const hash: string -> string
    var users: map<string, UserRecord>
    var now: nat

    ghost predicate Valid()
      reads this
    {
      Directory(users, now)
    }

    constructor (hash: string -> string)
      ensures Valid() && this.hash == hash && users == map[] && now == 0
    {
      this.hash := hash;
      users := map[];
      now := 0;
    }

    method Tick(later: nat)
      requires Valid() && now <= later
      modifies this
      ensures Valid() && now == later && users == old(users)
    {
      now := later;
    }

    /** POST /api/auth/register; `newId` is the id the store assigns. */
    method Register(name: Option<string>, email: Option<string>, password: Option<string>, newId: string) returns (resp: Response)
      requires Valid()
      requires WellFormedId(newId) && forall key | key in users :: users[key].id != newId
      modifies this
      ensures Valid() && now == old(now)
      ensures RegisterInputError(name, email, password).Some? ==>
        resp == Response(400, Message(RegisterInputError(name, email, password).value)) && users == old(users)
      ensures RegisterInputError(name, email, password).None? && NormalizeEmail(email.value) in old(users) ==>
        resp == Response(400, Message(UserExistsMsg)) && users == old(users)
      ensures RegisterInputError(name, email, password).None? && NormalizeEmail(email.value) !in old(users) ==>
        var u := NewUser(newId, name.value, email.value, hash(password.value), now);
        if Conforms(u) then
          users == old(users)[u.email := u] && resp == Response(201, Session(Sign(ClaimsOf(u), now), PublicView(u)))
        else
          resp == Response(500, ServerText(RegisterServerErrorText)) && users == old(users)
    {
      var err := RegisterInputError(name, email, password);
      if err.Some? {
        return Response(400, Message(err.value));
      }
      var key := NormalizeEmail(email.value);
      if key in users {
        return Response(400, Message(UserExistsMsg));
      }
      var u := NewUser(newId, name.value, email.value, hash(password.value), now);
      if ValidationErrors(u) != {} {
        // The email was nothing but white space, or the hash is empty.
        return Response(500, ServerText(RegisterServerErrorText));
      }
      assert Registered(key, u, now);
      DirectoryInsert(users, key, u, now);
      users := users[key := u];
      resp := Response(201, Session(Sign(ClaimsOf(u), now), PublicView(u)));
    }

    /** POST /api/auth/login: reads the store and changes nothing. */
    method Login(email: Option<string>, password: Option<string>) returns (resp: Response)
      requires Valid()
      ensures resp.status == 200 || resp.status == 400
      ensures resp.body.Session? <==> resp.status == 200
      ensures !Given(email) || !Given(password) ==> resp == Response(400, Message(MissingLoginFieldsMsg))
      ensures Given(email) && Given(password) ==>
        var key := NormalizeEmail(email.value);
        && (key !in users ==> resp == Response(400, Message(UnknownUserMsg)))
        && (key in users && hash(password.value) != users[key].passwordHash ==> resp == Response(400, Message(PasswordMismatchMsg)))
        && (key in users && hash(password.value) == users[key].passwordHash ==>
              resp == Response(200, Session(Sign(ClaimsOf(users[key]), now), PublicView(users[key]))))
    {
      if !Given(email) || !Given(password) {
        return Response(400, Message(MissingLoginFieldsMsg));
      }
      var key := NormalizeEmail(email.value);
      if key !in users {
        return Response(400, Message(UnknownUserMsg));
      }
      var u := users[key];
      if hash(password.value) != u.passwordHash {
        return Response(400, Message(PasswordMismatchMsg));
      }
      resp := Response(200, Session(Sign(ClaimsOf(u), now), PublicView(u)));
    }

    /** PUT /api/auth/change-password, after the token gate. */
    method ChangePassword(caller: Claims, current: Option<string>, newPassword: Option<string>) returns (resp: Response)
      requires Valid()
      modifies this
      ensures Valid() && now == old(now)
      ensures ChangePasswordInputError(current, newPassword).Some? ==>
        resp == Response(400, Message(ChangePasswordInputError(current, newPassword).value)) && users == old(users)
      ensures ChangePasswordInputError(current, newPassword).None? && !WellFormedId(caller.id) ==>
        resp == Response(500, ServerText(ChangePasswordServerErrorText)) && users == old(users)
      ensures (ChangePasswordInputError(current, newPassword).None? && WellFormedId(caller.id)
        && forall key | key in old(users) :: old(users)[key].id != caller.id) ==>
        resp == Response(404, Message(UserVanishedMsg)) && users == old(users)
      ensures forall key | ChangePasswordInputError(current, newPassword).None? && WellFormedId(caller.id)
        && key in old(users) && old(users)[key].id == caller.id ::
        var u := old(users)[key];
        if hash(current.value) != u.passwordHash then
          resp == Response(400, Message(WrongCurrentPasswordMsg)) && users == old(users)
        else if hash(newPassword.value) == "" then
          resp == Response(500, ServerText(ChangePasswordServerErrorText)) && users == old(users)
        else
          resp == Response(200, Message(PasswordChangedMsg)) && users == old(users)[key := u.(passwordHash := hash(newPassword.value))]
    {
      var err := ChangePasswordInputError(current, newPassword);
      if err.Some? {
        return Response(400, Message(err.value));
      }
      if !WellFormedId(caller.id) {
        return Response(500, ServerText(ChangePasswordServerErrorText));
      }
      if !exists key :: key in users && users[key].id == caller.id {
        return Response(404, Message(UserVanishedMsg));
      }
      var key :| key in users && users[key].id == caller.id;
      var u := users[key];
      if hash(current.value) != u.passwordHash {
        return Response(400, Message(WrongCurrentPasswordMsg));
      }
      var h := hash(newPassword.value);
      if h == "" {
        // The new hash fails `required`; bcrypt never produces it.
        return Response(500, ServerText(ChangePasswordServerErrorText));
      }
      DirectoryRehash(users, key, h, now);
      users := users[key := u.(passwordHash := h)];
      resp := Response(200, Message(PasswordChangedMsg));
    }

    /** `router.put('/change-password', authMiddleware, ...)`. */
    method ChangePasswordRoute(header: Option<string>, verdict: Verdict, current: Option<string>, newPassword: Option<string>) returns (resp: Response)
      requires Valid()
      modifies this
      ensures Valid() && now == old(now)
      ensures AuthMiddleware.Authenticate(header, verdict).Reject? ==>
        resp == Response(AuthMiddleware.Authenticate(header, verdict).status, Message(AuthMiddleware.Authenticate(header, verdict).msg))
        && users == old(users)
      ensures users != old(users) ==> verdict.Verified? && Given(header)
    {
      match AuthMiddleware.Authenticate(header, verdict)
      case Reject(code, msg) =>
        resp := Response(code, Message(msg));
      case Next(user) =>
        resp := ChangePassword(user, current, newPassword);
    }
  }
}

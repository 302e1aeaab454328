/**
 * The user document schema (server/models/User.js): required fields, the
 * lowercase and trim setters on `email`, and the creation-time default.
 * The unique index on `email` is the key of the user store (AuthRoutes).
 */
module UserSchema {
  import opened Text

  /** A user document; `passwordHash` is the hash string, never the password. */
  datatype UserRecord = UserRecord(id: string, name: string, email: string, passwordHash: string, createdAt: nat)

  /**
   * The `lowercase: true, trim: true` setters, which also cast query values
   * on `email`: the lower-cased email with the white space at both ends cut
   * off.
   */
  function NormalizeEmail(e: string): (r: string)
    ensures |r| <= |e|
    ensures TrimmedFrom(r, ToLower(e))
    ensures r == [] || (!IsSpace(r[0]) && !IsSpace(r[|r| - 1]))
    ensures NoUpper(r)
  {
    var l := ToLower(e);
    LowerHasNoUpper(e);
    TrimKeepsNoUpper(l);
    TrimIsSlice(l);
    Trim(l)
  }

  predicate NoUpper(s: string) {
    forall i :: 0 <= i < |s| ==> !('A' <= s[i] <= 'Z')
  }

  lemma LowerHasNoUpper(e: string)
    ensures NoUpper(ToLower(e))
  {
    forall i | 0 <= i < |e| ensures !('A' <= ToLower(e)[i] <= 'Z') {
      var c := e[i];
      assert ToLower(e)[i] == LowerChar(c);
      if 'A' <= c <= 'Z' {
        assert LowerChar(c) as int == c as int + 32;
      }
    }
  }

  lemma TrimKeepsNoUpper(s: string)
    requires NoUpper(s)
    ensures NoUpper(Trim(s))
  {
    var a := TrimStart(s);
    forall k | 0 <= k < |a| ensures !('A' <= a[k] <= 'Z') {
      assert a[k] == s[|s| - |a| + k];
    }
    var r := TrimEnd(a);
    forall k | 0 <= k < |r| ensures !('A' <= r[k] <= 'Z') {
      assert r[k] == a[k];
    }
  }

  /** A stored email is already in normal form. */
  lemma NormalizeEmailIdempotent(e: string)
    ensures NormalizeEmail(NormalizeEmail(e)) == NormalizeEmail(e)
  {
    var l := ToLower(e);
    ToLowerTrimCommute(l);
    ToLowerIdempotent(e);
    TrimIdempotent(l);
  }

  /** An email in stored form: no upper-case ASCII letter and no white space at either end. */
  predicate NormalEmail(s: string) {
    NoUpper(s) && (s == [] || (!IsSpace(s[0]) && !IsSpace(s[|s| - 1])))
  }

  /** The stored forms are exactly the strings the setters leave unchanged. */
  lemma NormalEmailIsFixedPoint(s: string)
    ensures NormalEmail(s) <==> NormalizeEmail(s) == s
  {
    if NormalEmail(s) {
      assert ToLower(s) == s by {
        forall i | 0 <= i < |s| ensures ToLower(s)[i] == s[i] {
          assert !('A' <= s[i] <= 'Z');
        }
      }
      TrimStartOfTrimmed(s);
      TrimEndOfTrimmed(s);
      assert Trim(s) == s;
    } else {
      var r := NormalizeEmail(s);
      assert NormalEmail(r);
    }
  }

  /** Two spellings that differ only in letter case name the same account. */
  lemma CaseInsensitiveEmail(e1: string, e2: string)
    requires |e1| == |e2|
    requires forall i :: 0 <= i < |e1| ==> LowerChar(e1[i]) == LowerChar(e2[i])
    ensures NormalizeEmail(e1) == NormalizeEmail(e2)
  {
    assert ToLower(e1) == ToLower(e2);
  }

  /** The paths whose `required` validator fails (the empty string fails it). */
  function ValidationErrors(u: UserRecord): (errs: set<string>)
    ensures errs <= {"name", "email", "passwordHash"}
    ensures errs == {} <==> Conforms(u)
  {
    (if u.name != "" then {} else {"name"})
    + (if u.email != "" then {} else {"email"})
    + (if u.passwordHash != "" then {} else {"passwordHash"})
  }

  predicate Conforms(u: UserRecord) {
    u.name != "" && u.email != "" && u.passwordHash != ""
  }

  /** `new User({ name, email })` with the hash assigned before saving; `createdAt` defaults to `now`. */
  function NewUser(id: string, name: string, email: string, passwordHash: string, now: nat): (u: UserRecord)
    ensures u.id == id && u.name == name && u.passwordHash == passwordHash
    ensures u.email == NormalizeEmail(email)
    ensures u.createdAt == now
  {
    UserRecord(id, name, NormalizeEmail(email), passwordHash, now)
  }
}

/** The user document of models/userModel.js: its schema defaults and
    validators, the two pre-save hooks, the stale-token test, the reset
    token and the soft-delete filter on every `find`.

    Times are milliseconds since the epoch, as `Date.now()` returns them;
    token timestamps are whole seconds. Hashing is a parameter. */
module UserModel {
  import opened Wrappers

  const Roles: seq<string> := ["admin", "lead-guide", "user", "guide"]
  const DefaultRole := "user"
  const MaxLoginAttempts := 5
  /** How far `passwordChangedAt` is set back from the moment of the save. */
  const PasswordChangeOffset := 1000
  /** Ten minutes. */
  const ResetTokenLifetime := 10 * 60 * 1000

  /** A failed schema validator, by path. */
  datatype Violation =
    | Required(path: string)
    | NotInEnum(path: string)
    | NotSame(path: string)
    | AboveMax(path: string)

  /** The `required` validator of a string path: absent or empty fails. */
  predicate Missing(v: Option<string>) {
    v.None? || v == Some("")
  }

  /** `parseInt(ms / 1000, 10)`: whole seconds, truncated toward zero. */
  function SecondsOf(ms: int): int {
    if ms >= 0 then ms / 1000 else -((-ms) / 1000)
  }

  /** `checkTokenAfterPasswordChange` on the stored change time: a token
      is stale exactly when the password changed after the end of the
      second the token was issued in (for times before the epoch, after its
      start). */
  function ChangedAfter(changedAt: Option<int>, jwtTimestamp: int): (r: bool)
    ensures r <==> (changedAt.Some? &&
      if changedAt.value >= 0 then 1000 * (jwtTimestamp + 1) <= changedAt.value
      else 1000 * jwtTimestamp < changedAt.value)
  {
    match changedAt
    case None => false
    case Some(ms) => jwtTimestamp < SecondsOf(ms)
  }

  /** A token issued in the second of a password change, read as
      `Math.floor(now / 1000)` the way tokens are stamped, is not stale:
      the change is recorded one second early. */
  lemma SameInstantNotStale(now: int)
    requires now >= PasswordChangeOffset
    ensures !ChangedAfter(Some(now - PasswordChangeOffset), now / 1000)
  {
  }

  /** The same offset lets a token from the second before the change
      through; one from two seconds before is stale. */
  lemma OffsetWindow(now: int)
    requires now >= PasswordChangeOffset
    ensures !ChangedAfter(Some(now - PasswordChangeOffset), now / 1000 - 1)
    ensures ChangedAfter(Some(now - PasswordChangeOffset), now / 1000 - 2)
  {
  }

  class User {
    const id: nat
    var name: Option<string>
    var email: Option<string>
    var role: string
    var password: Option<string>
    var passwordConfirm: Option<string>
    var passwordChangedAt: Option<int>
    var resetToken: Option<string>
    var resetTokenValidaty: Option<int>
    var active: Option<bool>
    var loginAttempts: int
    var lockUntil: Option<int>
    /** Not yet written to the database. */
    var isNew: bool
    /** `isModified('password')`. */
    var passwordModified: bool

    /** A modified password has a value to hash. */
    predicate Valid()
      reads this
    {
      passwordModified ==> password.Some?
    }

    /** `User.create(body)`: the schema defaults fill `role`, `active` and
        `loginAttempts`; a password given is a modification. */
    constructor (id: nat, name: Option<string>, email: Option<string>, role: Option<string>,
                 password: Option<string>, passwordConfirm: Option<string>)
      ensures Valid()
      ensures this.id == id && this.name == name && this.email == email
      ensures this.role == role.GetOr(DefaultRole)
      ensures this.password == password && this.passwordConfirm == passwordConfirm
      ensures passwordChangedAt.None? && resetToken.None? && resetTokenValidaty.None?
      ensures active == Some(true) && loginAttempts == 0 && lockUntil.None?
      ensures isNew && passwordModified == password.Some?
    {
      this.id := id;
      this.name := name;
      this.email := email;
      this.role := role.GetOr(DefaultRole);
      this.password := password;
      this.passwordConfirm := passwordConfirm;
      passwordChangedAt := None;
      resetToken := None;
      resetTokenValidaty := None;
      active := Some(true);
      loginAttempts := 0;
      lockUntil := None;
      isNew := true;
      passwordModified := password.Some?;
    }

    /** `user.password = p; user.passwordConfirm = confirm`. Assigning the
        value the path already holds does not mark it modified. */
    method SetPassword(p: string, confirm: Option<string>)
      requires Valid()
      modifies this
      ensures Valid()
      ensures password == Some(p) && passwordConfirm == confirm
      ensures passwordModified == (old(passwordModified) || old(password) != Some(p))
      ensures name == old(name) && email == old(email) && role == old(role)
      ensures passwordChangedAt == old(passwordChangedAt) && isNew == old(isNew)
      ensures resetToken == old(resetToken) && resetTokenValidaty == old(resetTokenValidaty)
      ensures active == old(active) && loginAttempts == old(loginAttempts) && lockUntil == old(lockUntil)
    {
      if password != Some(p) {
        passwordModified := true;
      }
      password := Some(p);
      passwordConfirm := confirm;
    }

    /** The schema validators, one violation per failing path: the required
        strings, the role enum, `passwordConfirm` equal to `password`, and
        at most five login attempts. Validators other than `required` do
        not run on an absent value. */
    function ValidationErrors(): (vs: seq<Violation>)
      reads this
      ensures vs == [] <==>
        !Missing(name) && !Missing(email) && role in Roles && !Missing(password)
        && !Missing(passwordConfirm) && passwordConfirm == password && loginAttempts <= MaxLoginAttempts
    {
      (if Missing(name) then [Required("name")] else [])
      + (if Missing(email) then [Required("email")] else [])
      + (if role !in Roles then [NotInEnum("role")] else [])
      + (if Missing(password) then [Required("password")] else [])
      + (if Missing(passwordConfirm) then [Required("passwordConfirm")]
         else if passwordConfirm != password then [NotSame("passwordConfirm")]
         else [])
      + (if loginAttempts > MaxLoginAttempts then [AboveMax("loginAttempts")] else [])
    }

    /** `save()`: validation (unless switched off), then the hook that
        hashes a modified password and drops its confirmation, then the
        hook that records a password change on a stored document one second
        early. A failed validation changes nothing. */
    method Save(validate: bool, now: int, hash: string -> string) returns (violations: seq<Violation>)
      requires Valid()
      modifies this
      ensures Valid()
      ensures violations == if validate then old(ValidationErrors()) else []
      ensures violations != [] ==>
        password == old(password) && passwordConfirm == old(passwordConfirm)
        && passwordChangedAt == old(passwordChangedAt)
        && isNew == old(isNew) && passwordModified == old(passwordModified)
      ensures violations == [] ==>
        password == (if old(passwordModified) then Some(hash(old(password).value)) else old(password))
        && passwordConfirm == (if old(passwordModified) then None else old(passwordConfirm))
        && passwordChangedAt == (if old(passwordModified) && !old(isNew) then Some(now - PasswordChangeOffset)
                                 else old(passwordChangedAt))
        && !isNew && !passwordModified
      ensures name == old(name) && email == old(email) && role == old(role)
      ensures resetToken == old(resetToken) && resetTokenValidaty == old(resetTokenValidaty)
      ensures active == old(active) && loginAttempts == old(loginAttempts) && lockUntil == old(lockUntil)
    {
      violations := if validate then ValidationErrors() else [];
      if violations != [] {
        return;
      }
      if passwordModified {
        password := Some(hash(password.value));
        passwordConfirm := None;
      }
      if passwordModified && !isNew {
        passwordChangedAt := Some(now - PasswordChangeOffset);
      }
      isNew := false;
      passwordModified := false;
    }

    /** `checkTokenAfterPasswordChange(iat)`. */
    function CheckTokenAfterPasswordChange(jwtTimestamp: int): (r: bool)
      reads this
      ensures r <==> (passwordChangedAt.Some? &&
        if passwordChangedAt.value >= 0 then 1000 * (jwtTimestamp + 1) <= passwordChangedAt.value
        else 1000 * jwtTimestamp < passwordChangedAt.value)
    {
      ChangedAfter(passwordChangedAt, jwtTimestamp)
    }

    /** `createPasswordResetToken()`: the raw token goes to the caller;
        only its hash is stored, valid for ten minutes. */
    method CreatePasswordResetToken(raw: string, now: int, sha256: string -> string) returns (token: string)
      modifies this
      ensures token == raw
      ensures resetToken == Some(sha256(raw)) && resetTokenValidaty == Some(now + ResetTokenLifetime)
      ensures name == old(name) && email == old(email) && role == old(role)
      ensures password == old(password) && passwordConfirm == old(passwordConfirm)
      ensures passwordChangedAt == old(passwordChangedAt)
      ensures isNew == old(isNew) && passwordModified == old(passwordModified)
      ensures active == old(active) && loginAttempts == old(loginAttempts) && lockUntil == old(lockUntil)
    {
      resetToken := Some(sha256(raw));
      resetTokenValidaty := Some(now + ResetTokenLifetime);
      token := raw;
    }
  }

  /** `{active: {$ne: false}}`: an absent `active` matches too. */
  predicate Visible(u: User)
    reads u
  {
    u.active != Some(false)
  }

  /** The pre-find hook applied to a collection: the visible documents in
      their stored order. */
  function FindActive(users: seq<User>): (r: seq<User>)
    reads set u | u in users
    ensures forall i :: 0 <= i < |r| ==> r[i] in users && Visible(r[i])
    ensures forall i :: 0 <= i < |users| && Visible(users[i]) ==> users[i] in r
    ensures |r| <= |users|
  {
    if users == [] then []
    else if Visible(users[0]) then [users[0]] + FindActive(users[1..])
    else FindActive(users[1..])
  }

  /** The hook keeps the stored order: filtering a collection made of two
      parts filters each part. */
  lemma {:induction false} FindActiveAppend(a: seq<User>, b: seq<User>)
    ensures FindActive(a + b) == FindActive(a) + FindActive(b)
    decreases |a|
  {
    if a == [] {
      assert a + b == b;
    } else {
      assert (a + b)[0] == a[0] && (a + b)[1..] == a[1..] + b;
      FindActiveAppend(a[1..], b);
      if Visible(a[0]) {
        assert [a[0]] + (FindActive(a[1..]) + FindActive(b)) == [a[0]] + FindActive(a[1..]) + FindActive(b);
      }
    }
  }

  /** A hook that filters twice filters once. */
  lemma {:induction false} FindActiveIdempotent(users: seq<User>)
    ensures FindActive(FindActive(users)) == FindActive(users)
    decreases |users|
  {
    if users != [] {
      FindActiveIdempotent(users[1..]);
    }
  }

  /** The default role passes the enum validator. */
  lemma RoleDefaultIsAllowed()
    ensures DefaultRole in Roles
  {
    assert Roles[2] == DefaultRole;
  }
}

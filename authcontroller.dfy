/** The access checks of controllers/authController.js: the login handler
    with its lockout after repeated failures, the `protect` middleware that
    finds and checks the bearer of a token, and `restrictTo`.

    Password comparison, token signing and token verification are
    parameters; a rejection is the error handed to `next`, which the global
    error handler then reports. */
module AuthController {
  import opened Wrappers
  import opened Text
  import opened UserModel
  import opened ErrorController

  /** Failures from which a lock is enforced. */
  const EnforceAt := 5
  /** Failures from which a lock is set. */
  const LockAt := 3
  /** One minute. */
  const LockDuration := 1 * 60 * 1000

  const MissingCredentials := "Please provide email and password"
  const IncorrectCredentials := "Incorrect email or password"
  const NotLoggedIn := "You are not logged in! Please loggin to get access"
  const UserGone := "The User belonging to this token is no longer exists!"
  const PasswordChanged := "Invalid token password got changed!"
  const NoPermission := "You dont have the premission to perform this action"

  function LockedMessage(seconds: nat): string {
    "Too many failed attempts. Try again after " + NatToString(seconds) + " seconds."
  }

  // ---------------------------------------------------------------------
  // The lockout state machine

  /** The two fields of a user that login reads and writes. */
  datatype LoginState = LoginState(attempts: int, lockUntil: Option<int>)

  const Clean := LoginState(0, None)

  ghost function StateOf(u: User): LoginState
    reads u
  {
    LoginState(u.loginAttempts, u.lockUntil)
  }

  /** The lock test of the login handler. */
  predicate Locked(s: LoginState, now: int) {
    s.attempts >= EnforceAt && s.lockUntil.Some? && s.lockUntil.value > now
  }

  /** `Math.ceil((lockUntil - now) / 1000)`: the whole seconds left. */
  function RemainingSeconds(lockUntil: int, now: int): (r: nat)
    requires lockUntil > now
    ensures r >= 1
    ensures (r - 1) * 1000 < lockUntil - now <= r * 1000
  {
    (lockUntil - now + 999) / 1000
  }

  /** The state after an attempt: a locked account is left alone; a right
      password clears the record; a wrong one counts, and from the third
      failure on (re)starts a one-minute lock. */
  function NextState(s: LoginState, correct: bool, now: int): LoginState {
    if Locked(s, now) then s
    else if correct then Clean
    else
      var attempts := s.attempts + 1;
      LoginState(attempts, if attempts >= LockAt then Some(now + LockDuration) else s.lockUntil)
  }

  /** The first visible user with this e-mail address: `User.findOne({email})`
      behind the soft-delete filter. */
  function FindByEmail(users: seq<User>, email: string): (r: Option<User>)
    reads set u | u in users
    ensures r.Some? ==> r.value in users && Visible(r.value) && r.value.email == Some(email)
    ensures r.None? ==> forall i :: 0 <= i < |users| && Visible(users[i]) ==> users[i].email != Some(email)
  {
    FirstWithEmail(FindActive(users), email)
  }

  function FirstWithEmail(users: seq<User>, email: string): (r: Option<User>)
    reads set u | u in users
    ensures r.Some? ==> r.value in users && r.value.email == Some(email)
    ensures r.None? ==> forall i :: 0 <= i < |users| ==> users[i].email != Some(email)
  {
    if users == [] then None
    else if users[0].email == Some(email) then Some(users[0])
    else FirstWithEmail(users[1..], email)
  }

  /** What the client gets back from a login. */
  datatype LoginOutcome =
    | LoggedIn(statusCode: int, token: string, role: string, id: nat, name: Option<string>, email: Option<string>)
    | LoginFailed(error: ErrorValue)

  predicate Blank(v: Option<string>) {
    v.None? || v == Some("")
  }

  /** `login`. Blank credentials are a 400 before any lookup; an unknown
      address and a wrong password are the same 401. A locked account is
      refused, whatever the password, without being written. Otherwise
      the found user's attempts and lock move by `NextState`, and a right
      password signs a token for the user. The document is written back
      with validation off and its password untouched, which makes neither
      save hook change anything (see `User.Save`), so the write is the
      field assignments themselves. */
  method Login(users: seq<User>, email: Option<string>, password: Option<string>, now: int,
               correct: (string, Option<string>) -> bool, sign: nat -> string, app: AppErrorClass)
    returns (r: LoginOutcome)
    modifies set u | u in users
    ensures Blank(email) || Blank(password) ==>
      r == LoginFailed(app.New(MissingCredentials, 400)) && forall u :: u in users ==> unchanged(u)
    ensures !Blank(email) && !Blank(password) && old(FindByEmail(users, email.value)).None? ==>
      r == LoginFailed(app.New(IncorrectCredentials, 401)) && forall u :: u in users ==> unchanged(u)
    ensures !Blank(email) && !Blank(password) && old(FindByEmail(users, email.value)).Some? ==>
      var user := old(FindByEmail(users, email.value)).value;
      var before := old(StateOf(user));
      var ok := correct(password.value, old(user.password));
      && StateOf(user) == NextState(before, ok, now)
      && (forall u :: u in users && u != user ==> unchanged(u))
      && user.name == old(user.name) && user.email == old(user.email) && user.role == old(user.role)
      && user.password == old(user.password) && user.passwordChangedAt == old(user.passwordChangedAt)
      && user.active == old(user.active) && user.passwordModified == old(user.passwordModified)
      && user.passwordConfirm == old(user.passwordConfirm) && user.resetToken == old(user.resetToken)
      && user.resetTokenValidaty == old(user.resetTokenValidaty) && user.isNew == old(user.isNew)
      && (Locked(before, now) ==>
            r == LoginFailed(app.New(LockedMessage(RemainingSeconds(before.lockUntil.value, now)), 401)))
      && (!Locked(before, now) && !ok ==> r == LoginFailed(app.New(IncorrectCredentials, 401)))
      && (!Locked(before, now) && ok ==>
            r == LoggedIn(200, sign(user.id), user.role, user.id, user.name, user.email))
  {
    if email.None? || email == Some("") || password.None? || password == Some("") {
      return LoginFailed(app.New(MissingCredentials, 400));
    }
    var found := FindByEmail(users, email.value);
    if found.None? {
      return LoginFailed(app.New(IncorrectCredentials, 401));
    }
    var user := found.value;
    if user.loginAttempts >= EnforceAt && user.lockUntil.Some? && user.lockUntil.value > now {
      var remaining := RemainingSeconds(user.lockUntil.value, now);
      return LoginFailed(app.New(LockedMessage(remaining), 401));
    }
    var isCorrect := correct(password.value, user.password);
    if !isCorrect {
      user.loginAttempts := user.loginAttempts + 1;
      if user.loginAttempts >= LockAt {
        user.lockUntil := Some(now + LockDuration);
      }
      return LoginFailed(app.New(IncorrectCredentials, 401));
    }
    user.loginAttempts := 0;
    user.lockUntil := None;
    r := LoggedIn(200, sign(user.id), user.role, user.id, user.name, user.email);
  }

  // ---------------------------------------------------------------------
  // Properties of the lockout

  /** A refused attempt leaves the record as it was; an attempt that is not
      refused counts a failure exactly and sets the lock from the third. */
  lemma FailureCounts(s: LoginState, now: int)
    ensures Locked(s, now) ==> NextState(s, false, now) == s && NextState(s, true, now) == s
    ensures !Locked(s, now) ==> NextState(s, false, now).attempts == s.attempts + 1
    ensures !Locked(s, now) && s.attempts + 1 >= LockAt ==> NextState(s, false, now).lockUntil == Some(now + 60000)
    ensures !Locked(s, now) && s.attempts + 1 < LockAt ==> NextState(s, false, now).lockUntil == s.lockUntil
    ensures !Locked(s, now) ==> NextState(s, true, now) == LoginState(0, None)
  {
  }

  /** At three or four failures the lock is set but a right password still
      gets in. */
  lemma LockSetButNotEnforced(s: LoginState, now: int)
    requires s.attempts == 3 || s.attempts == 4
    ensures !Locked(s, now) && NextState(s, true, now) == Clean
  {
  }

  /** The failures of a run of wrong passwords, in order of their times. */
  function Failures(s: LoginState, times: seq<int>): LoginState
    decreases |times|
  {
    if times == [] then s
    else NextState(Failures(s, times[..|times| - 1]), false, times[|times| - 1])
  }

  /** From a clean record, up to five wrong passwords are all counted; the
      lock is set from the third, one minute after the latest. */
  lemma {:induction false} FailuresFromClean(times: seq<int>)
    requires |times| <= EnforceAt
    ensures Failures(Clean, times).attempts == |times|
    ensures Failures(Clean, times).lockUntil.Some? <==> |times| >= LockAt
    ensures |times| >= LockAt ==> Failures(Clean, times).lockUntil == Some(times[|times| - 1] + LockDuration)
    decreases |times|
  {
    if times != [] {
      FailuresFromClean(times[..|times| - 1]);
    }
  }

  /** After a run of wrong passwords from a clean record, an attempt is
      refused exactly when there have been five and the latest is less than
      a minute ago. */
  lemma EnforcedOnlyAtFive(times: seq<int>, now: int)
    requires |times| <= EnforceAt
    ensures Locked(Failures(Clean, times), now) <==>
      |times| == EnforceAt && now < times[|times| - 1] + LockDuration
  {
    FailuresFromClean(times);
  }

  /** The reported wait is at least a second and covers the lock. */
  lemma LockedMessageSeconds(s: LoginState, now: int)
    requires Locked(s, now)
    ensures RemainingSeconds(s.lockUntil.value, now) >= 1
    ensures now + RemainingSeconds(s.lockUntil.value, now) * 1000 >= s.lockUntil.value
  {
  }

  // ---------------------------------------------------------------------
  // protect

  /** The token of a request: the second word of an `Authorization` header
      that starts with `Bearer`, or else the `jwt` cookie. */
  function ExtractToken(authorization: Option<string>, cookie: Option<string>): Option<string> {
    if authorization.Some? && authorization.value != "" && StartsWith(authorization.value, "Bearer") then
      var parts := Split(authorization.value, ' ');
      if |parts| >= 2 then Some(parts[1]) else None
    else if cookie.Some? && cookie.value != "" then cookie
    else None
  }

  /** A bearer header carries the token, whatever the cookie says. */
  lemma HeaderTakesPrecedence(scheme: string, token: string, cookie: Option<string>)
    requires scheme == "Bearer" && ' ' !in token
    ensures ExtractToken(Some(scheme + [' '] + token), cookie) == Some(token)
  {
    SplitPieces(scheme, ' ', token);
    SplitPieces(token, ' ', []);
    assert StartsWith(scheme + [' '] + token, scheme);
  }

  /** Without a bearer header the cookie, if set, is the token. */
  lemma CookieOtherwise(authorization: Option<string>, cookie: Option<string>)
    requires authorization.None? || !StartsWith(authorization.value, "Bearer")
    ensures ExtractToken(authorization, cookie) == if Blank(cookie) then None else cookie
  {
  }

  /** A bare `Bearer` header yields no token and hides the cookie. */
  lemma BareBearerHidesCookie(scheme: string, cookie: Option<string>)
    requires scheme == "Bearer"
    ensures ExtractToken(Some(scheme), cookie) == None
  {
    SplitPieces(scheme, ' ', []);
    assert Split(scheme, ' ') == [scheme];
  }

  /** The claims of a verified token. */
  datatype Claims = Claims(id: nat, iat: int)

  /** The outcome of the middleware: the request goes on as the user, or
      the error goes to the error handler. */
  datatype Access = Granted(user: User) | Denied(error: ErrorValue)

  /** `User.findOne({_id: id})` behind the soft-delete filter. */
  function FindById(users: seq<User>, id: nat): (r: Option<User>)
    reads set u | u in users
    ensures r.Some? ==> r.value in users && Visible(r.value) && r.value.id == id
    ensures r.None? ==> forall i :: 0 <= i < |users| && Visible(users[i]) ==> users[i].id != id
  {
    FirstWithId(FindActive(users), id)
  }

  function FirstWithId(users: seq<User>, id: nat): (r: Option<User>)
    reads set u | u in users
    ensures r.Some? ==> r.value in users && r.value.id == id
    ensures r.None? ==> forall i :: 0 <= i < |users| ==> users[i].id != id
  {
    if users == [] then None
    else if users[0].id == id then Some(users[0])
    else FirstWithId(users[1..], id)
  }

  /** `protect`: no token, a token that does not verify, a user that no
      longer exists or a password changed since the token was issued each
      stop the request; otherwise it goes on as the token's user. */
  function Protect(authorization: Option<string>, cookie: Option<string>, users: seq<User>,
                   verify: string -> Result<Claims, ErrorValue>, app: AppErrorClass): (r: Access)
    reads set u | u in users
    ensures r.Granted? <==>
      var t := ExtractToken(authorization, cookie);
      && !Blank(t) && verify(t.value).Success?
      && FindById(users, verify(t.value).value.id).Some?
      && !FindById(users, verify(t.value).value.id).value.CheckTokenAfterPasswordChange(verify(t.value).value.iat)
    ensures r.Granted? ==> r.user in users && Visible(r.user)
    ensures r.Granted? ==>
      var claims := verify(ExtractToken(authorization, cookie).value).value;
      r.user.id == claims.id && Some(r.user) == FindById(users, claims.id)
    ensures r.Denied? && Blank(ExtractToken(authorization, cookie)) ==> r.error == app.New(NotLoggedIn, 401)
    ensures var t := ExtractToken(authorization, cookie);
      !Blank(t) && verify(t.value).Failure? ==> r == Denied(verify(t.value).error)
    ensures var t := ExtractToken(authorization, cookie);
      !Blank(t) && verify(t.value).Success? && FindById(users, verify(t.value).value.id).None? ==>
        r == Denied(app.New(UserGone, 401))
    ensures var t := ExtractToken(authorization, cookie);
      && !Blank(t) && verify(t.value).Success? && FindById(users, verify(t.value).value.id).Some?
      && FindById(users, verify(t.value).value.id).value.CheckTokenAfterPasswordChange(verify(t.value).value.iat) ==>
        r == Denied(app.New(PasswordChanged, 401))
  {
    var token := ExtractToken(authorization, cookie);
    if token.None? || token.value == "" then Denied(app.New(NotLoggedIn, 401))
    else match verify(token.value)
      case Failure(e) => Denied(e)
      case Success(claims) =>
        var current := FindById(users, claims.id);
        if current.None? then Denied(app.New(UserGone, 401))
        else if current.value.CheckTokenAfterPasswordChange(claims.iat) then Denied(app.New(PasswordChanged, 401))
        else Granted(current.value)
  }

  /** Every rejection `protect` makes itself is a 401. */
  lemma ProtectRejectionsAre401(authorization: Option<string>, cookie: Option<string>, users: seq<User>,
                                verify: string -> Result<Claims, ErrorValue>, app: AppErrorClass)
    requires var t := ExtractToken(authorization, cookie); Blank(t) || verify(t.value).Success?
    ensures Protect(authorization, cookie, users, verify, app).Denied? ==>
      Protect(authorization, cookie, users, verify, app).error.statusCode == Some(401)
  {
  }

  /** `restrictTo(...roles)`: the request goes on exactly when the user's
      role is listed, and is otherwise a 403. */
  function RestrictTo(roles: seq<string>, user: User, app: AppErrorClass): (r: Option<ErrorValue>)
    reads user
    ensures r.None? <==> user.role in roles
    ensures r.Some? ==> r.value.statusCode == Some(403) && r.value.message == NoPermission
  {
    if user.role !in roles then Some(app.New(NoPermission, 403)) else None
  }

  // ---------------------------------------------------------------------
  // What the client sees

  /** An error the handlers create reaches a production API client as a
      JSON response with its own status code and message, when AppError
      marks its errors operational. */
  lemma AppErrorsReachTheClient(app: AppErrorClass, message: string, statusCode: int, url: string)
    requires app.operational && IsApi(url) && statusCode != 0 && app.statusFor(statusCode) != ""
    ensures var e := WithDefaults(app.New(message, statusCode));
      Classify(e, app) == Success(e)
      && SendErrorProd(e, url) == JsonResponse(statusCode, ProdBody(app.statusFor(statusCode), message))
  {
    UnmatchedErrorPassesThrough(WithDefaults(app.New(message, statusCode)), app);
  }

  /** An expired token makes `protect` pass the token library's error on,
      and the production handler turns it into its own 401. */
  lemma ExpiredTokenIs401(authorization: Option<string>, cookie: Option<string>, users: seq<User>,
                          verify: string -> Result<Claims, ErrorValue>, app: AppErrorClass)
    requires var t := ExtractToken(authorization, cookie);
      !Blank(t) && verify(t.value).Failure?
      && verify(t.value).error.name == Some("TokenExpiredError") && verify(t.value).error.code.None?
    ensures var r := Protect(authorization, cookie, users, verify, app);
      r.Denied? && Classify(WithDefaults(r.error), app) == Success(HandleJWTExpiredTokenError(app))
  {
  }
}

/**
 * Accounts (routes/Auth.router.js): signup with an emailed one-time code,
 * the code's verification, login, and the password reset by emailed token.
 * Hashing and comparing passwords, the code, the reset token and the clock
 * (in milliseconds) are parameters; sending email is not modelled.
 */
module Accounts {
  import opened Wrappers
  import opened Schema
  import opened Store
  import opened Text

  /** A one-time code lives ten minutes. */
  const OtpLifetime := 10 * 60 * 1000

  /** A reset token lives one hour. */
  const ResetLifetime := 60 * 60 * 1000

  // ---- The password policy

  predicate Special(c: char) { c in "@$!%*?#&_" }

  predicate PasswordChar(c: char) { IsLower(c) || IsUpper(c) || IsDigit(c) || Special(c) }

  /**
   * The password expression: four lookaheads (a lowercase letter, an
   * uppercase letter, a digit, a special character) and a body of 6 to 30
   * characters drawn from letters, digits and the specials.
   */
  predicate PasswordOk(p: string) {
    && HasChar(p, IsLower) && HasChar(p, IsUpper) && HasChar(p, IsDigit) && HasChar(p, Special)
    && 6 <= |p| <= 30
    && forall i :: 0 <= i < |p| ==> PasswordChar(p[i])
  }

  /** What one left-to-right pass over a password has seen so far. */
  datatype Seen = Seen(lower: bool, upper: bool, digit: bool, special: bool, stray: bool, count: nat)

  /** The pass itself: one step per character, as an automaton for the expression runs. */
  function Scan(p: string): (s: Seen)
    ensures s.count == |p|
  {
    if p == [] then Seen(false, false, false, false, false, 0)
    else
      var s := Scan(p[..|p| - 1]);
      var c := p[|p| - 1];
      Seen(s.lower || IsLower(c), s.upper || IsUpper(c), s.digit || IsDigit(c),
           s.special || Special(c), s.stray || !PasswordChar(c), s.count + 1)
  }

  predicate Accepts(s: Seen) {
    s.lower && s.upper && s.digit && s.special && !s.stray && 6 <= s.count <= 30
  }

  /** Each flag of the pass records whether some character of its class occurred. */
  lemma {:induction false} ScanFlags(p: string)
    ensures Scan(p).lower <==> exists i :: 0 <= i < |p| && IsLower(p[i])
    ensures Scan(p).upper <==> exists i :: 0 <= i < |p| && IsUpper(p[i])
    ensures Scan(p).digit <==> exists i :: 0 <= i < |p| && IsDigit(p[i])
    ensures Scan(p).special <==> exists i :: 0 <= i < |p| && Special(p[i])
    ensures Scan(p).stray <==> exists i :: 0 <= i < |p| && !PasswordChar(p[i])
  {
    if p != [] {
      var q := p[..|p| - 1];
      ScanFlags(q);
      assert forall i :: 0 <= i < |q| ==> q[i] == p[i];
    }
  }

  /** The one-pass automaton accepts exactly the passwords the expression accepts. */
  lemma ScanAgreesWithPolicy(p: string)
    ensures Accepts(Scan(p)) <==> PasswordOk(p)
  {
    ScanFlags(p);
  }

  // ---- Signup and the one-time code

  /** The signup body; an empty string stands for a missing field. */
  datatype SignupRequest = SignupRequest(name: string, username: string, email: string, password: string, phone: string)

  predicate SignupComplete(q: SignupRequest) {
    q.name != "" && q.username != "" && q.email != "" && q.password != "" && q.phone != ""
  }

  /** The user signup stores. */
  function NewAccount(q: SignupRequest, hash: string -> string, otp: string, now: int): (u: User)
    ensures u.role == "user" && !u.emailVerified && u.isActive && u.password == Some(hash(q.password))
    ensures u.email == q.email && u.username == q.username && u.phone == Some(q.phone) && u.socialId.None?
    ensures u.otp == Set(otp) && u.otpExpires == Set(now + OtpLifetime)
    ensures SignupComplete(q) ==> UserValid(u)
  {
    User(q.name, q.email, q.username, Some(hash(q.password)), "user", Some(q.phone), None, [],
         true, false, false, Set(otp), Set(now + OtpLifetime), None, None)
  }

  /** Some stored user has the email, the username or the phone of the request. */
  predicate Taken(users: map<Id, User>, q: SignupRequest) {
    exists k :: k in users && (users[k].email == q.email || users[k].username == q.username || users[k].phone == Some(q.phone))
  }

  /**
   * POST /signup: a missing field is a 400, and so is an email, username
   * or phone already in use.
   */
  method Signup(db: Db, q: SignupRequest, hash: string -> string, otp: string, now: int) returns (r: Result<Id>)
    requires db.Valid()
    modifies db
    ensures db.Valid()
    ensures (!SignupComplete(q) || Taken(old(db.data.users), q)) ==> r == Err(BadRequest) && db.data == old(db.data)
    ensures SignupComplete(q) && !Taken(old(db.data.users), q) ==>
      r.Ok? && r.value !in old(db.data.users)
      && db.data == old(db.data).(users := old(db.data.users)[r.value := NewAccount(q, hash, otp, now)], nextId := r.value + 1)
  {
    if !SignupComplete(q) {
      return Err(BadRequest);
    }
    var existing := First(db.data.users, (k: Id, u: User) => u.email == q.email || u.username == q.username || u.phone == Some(q.phone), db.data.nextId);
    if existing.Some? {
      return Err(BadRequest);
    }
    var u := NewAccount(q, hash, otp, now);
    var id := db.NewId();
    InsertKeepsUsersUnique(db.data.users, id, u);
    db.data := db.data.(users := db.data.users[id := u]);
    r := Ok(id);
  }

  /** A fresh code and its expiry. */
  function WithOtp(u: User, otp: string, now: int): (v: User)
    ensures v.otp == Set(otp) && v.otpExpires == Set(now + OtpLifetime)
    ensures v == u.(otp := v.otp, otpExpires := v.otpExpires)
  {
    u.(otp := Set(otp), otpExpires := Set(now + OtpLifetime))
  }

  /** POST /resend-otp: 404 for an unknown user, 400 once verified; saving validates the user. */
  method ResendOtp(db: Db, userId: Option<Id>, otp: string, now: int) returns (r: Result<()>)
    requires db.Valid()
    modifies db
    ensures db.Valid()
    ensures (userId.None? || userId.value !in old(db.data.users)) ==> r == Err(NotFound) && db.data == old(db.data)
    ensures userId.Some? && userId.value in old(db.data.users) ==>
      var u := old(db.data.users)[userId.value];
      if u.emailVerified then r == Err(BadRequest) && db.data == old(db.data)
      else if !UserValid(u) then r == Err(ServerError) && db.data == old(db.data)
      else r == Ok(()) && db.data == old(db.data).(users := old(db.data.users)[userId.value := WithOtp(u, otp, now)])
  {
    if userId.None? || userId.value !in db.data.users {
      return Err(NotFound);
    }
    var u := db.data.users[userId.value];
    if u.emailVerified {
      return Err(BadRequest);
    }
    var v := WithOtp(u, otp, now);
    if !UserValid(v) {
      return Err(ServerError);
    }
    RewriteKeepsUsersUnique(db.data.users, userId.value, v);
    db.data := db.data.(users := db.data.users[userId.value := v]);
    r := Ok(());
  }

  /**
   * `new Date() > user.otpExpires`: an unset expiry compares as NaN, so it
   * is never past, and a null one compares as 0.
   */
  predicate OtpExpired(expires: Field<int>, now: int) {
    match expires
    case Unset => false
    case Null => now > 0
    case Set(t) => now > t
  }

  /**
   * The code check of POST /verify-otp. The submitted code is the body's
   * `otp` as sent: left out, null, or a string; the comparison is `!==`.
   * A success stores null in both code fields.
   */
  function OtpCheck(u: User, otp: Field<string>, now: int): (r: Result<User>)
    ensures r.Ok? <==> !u.emailVerified && u.otp == otp && !OtpExpired(u.otpExpires, now)
    ensures r.Err? ==> r.status == BadRequest
    ensures r.Ok? ==> r.value == u.(emailVerified := true, otp := Null, otpExpires := Null)
  {
    if u.emailVerified then Err(BadRequest)
    else if u.otp != otp || OtpExpired(u.otpExpires, now) then Err(BadRequest)
    else Ok(u.(emailVerified := true, otp := Null, otpExpires := Null))
  }

  /**
   * A cleared code never verifies again, even for a user whose email was
   * marked unverified afterwards: a body without `otp` differs from the
   * stored null, and a null `otp` meets a null expiry, which is past at any
   * time after the epoch.
   */
  lemma ClearedOtpNeverVerifies(u: User, otp: Field<string>, now: int)
    requires u.otp == Null && u.otpExpires == Null && now > 0
    ensures OtpCheck(u, otp, now) == Err(BadRequest)
    ensures otp != Null ==> forall t :: OtpCheck(u, otp, t) == Err(BadRequest)
  {
  }

  /** A code verifies once: checking again, with any code at any time, is refused. */
  lemma VerifyOtpOnce(u: User, otp: Field<string>, now: int, again: Field<string>, later: int)
    requires OtpCheck(u, otp, now).Ok?
    ensures OtpCheck(OtpCheck(u, otp, now).value, again, later) == Err(BadRequest)
  {
  }

  /** A freshly sent code verifies until it expires, ten minutes later, and not after. */
  lemma FreshOtpVerifiesUntilExpiry(u: User, otp: string, sent: int, now: int)
    requires !u.emailVerified
    ensures OtpCheck(WithOtp(u, otp, sent), Set(otp), now).Ok? <==> now <= sent + OtpLifetime
  {
  }

  /** POST /verify-otp: 404 for an unknown user; the code check; saving validates the user. */
  method VerifyOtp(db: Db, userId: Option<Id>, otp: Field<string>, now: int) returns (r: Result<Id>)
    requires db.Valid()
    modifies db
    ensures db.Valid()
    ensures (userId.None? || userId.value !in old(db.data.users)) ==> r == Err(NotFound) && db.data == old(db.data)
    ensures userId.Some? && userId.value in old(db.data.users) ==>
      var check := OtpCheck(old(db.data.users)[userId.value], otp, now);
      if check.Err? then r == Err(BadRequest) && db.data == old(db.data)
      else if !UserValid(check.value) then r == Err(ServerError) && db.data == old(db.data)
      else r == Ok(userId.value) && db.data == old(db.data).(users := old(db.data.users)[userId.value := check.value])
  {
    if userId.None? || userId.value !in db.data.users {
      return Err(NotFound);
    }
    var check := OtpCheck(db.data.users[userId.value], otp, now);
    if check.Err? {
      return Err(BadRequest);
    }
    if !UserValid(check.value) {
      return Err(ServerError);
    }
    RewriteKeepsUsersUnique(db.data.users, userId.value, check.value);
    db.data := db.data.(users := db.data.users[userId.value := check.value]);
    r := Ok(userId.value);
  }

  // ---- Login

  /**
   * POST /login: the first user whose email or username is the identifier.
   * The checks come in this order: missing fields (400), no such user or an
   * inactive one (404), an unverified email (403), a wrong password (401).
   * Comparing with a user that has no password throws (a 500).
   */
  function Login(users: map<Id, User>, n: nat, identifier: string, password: string,
                 matches: (string, string) -> bool): (r: Result<Id>)
    requires Below(users, n)
    ensures (identifier == "" || password == "") <==> r == Err(BadRequest)
    ensures identifier != "" && password != "" ==>
      var found := First(users, (k: Id, u: User) => u.email == identifier || u.username == identifier, n);
      if found.None? || !users[found.value].isActive then r == Err(NotFound)
      else if !users[found.value].emailVerified then r == Err(Forbidden)
      else if users[found.value].password.None? then r == Err(ServerError)
      else if !matches(password, users[found.value].password.value) then r == Err(Unauthorized)
      else r == Ok(found.value)
    ensures r.Ok? ==>
      r.value in users && users[r.value].isActive && users[r.value].emailVerified
      && (users[r.value].email == identifier || users[r.value].username == identifier)
      && users[r.value].password.Some? && matches(password, users[r.value].password.value)
  {
    if identifier == "" || password == "" then Err(BadRequest)
    else
      var found := First(users, (k: Id, u: User) => u.email == identifier || u.username == identifier, n);
      if found.None? || !users[found.value].isActive then Err(NotFound)
      else if !users[found.value].emailVerified then Err(Forbidden)
      else if users[found.value].password.None? then Err(ServerError)
      else if !matches(password, users[found.value].password.value) then Err(Unauthorized)
      else Ok(found.value)
  }

  /** Until its email is verified, a user who signed up cannot log in, whatever the password. */
  lemma UnverifiedCannotLogIn(users: map<Id, User>, n: nat, id: Id, password: string, matches: (string, string) -> bool)
    requires Below(users, n) && UsersUnique(users) && id in users && !users[id].emailVerified
    requires users[id].email != ""
    requires forall k :: k in users ==> users[k].username != users[id].email
    ensures Login(users, n, users[id].email, password, matches).Err?
  {
    var found := First(users, (k: Id, u: User) => u.email == users[id].email || u.username == users[id].email, n);
    if password != "" && found.Some? {
      assert found.value == id;
    }
  }

  /** POST /google calls a client the file never defines: past the code check, it always fails. */
  function GoogleSignIn(code: string): (s: Status)
    ensures code == "" <==> s == BadRequest
    ensures code != "" ==> s == ServerError
  {
    if code == "" then BadRequest else ServerError
  }

  // ---- Password reset

  /** POST /forgot-password: the token and its expiry are stored on the user. */
  function WithResetToken(u: User, token: string, now: int): (v: User)
    ensures v.resetToken == Some(token) && v.resetTokenExpiry == Some(now + ResetLifetime)
    ensures v == u.(resetToken := v.resetToken, resetTokenExpiry := v.resetTokenExpiry)
  {
    u.(resetToken := Some(token), resetTokenExpiry := Some(now + ResetLifetime))
  }

  /**
   * POST /forgot-password: the first user with the email (any user when the
   * email is missing, since the filter then drops it) gets a reset token;
   * none is a 404.
   */
  method ForgotPassword(db: Db, email: Option<string>, token: string, now: int) returns (r: Result<Id>)
    requires db.Valid()
    modifies db
    ensures db.Valid()
    ensures var found := First(old(db.data.users), (k: Id, u: User) => Matches(email, Some(u.email)), old(db.data.nextId));
      if found.None? then r == Err(NotFound) && db.data == old(db.data)
      else if !UserValid(old(db.data.users)[found.value]) then r == Err(ServerError) && db.data == old(db.data)
      else (r == Ok(found.value)
        && db.data == old(db.data).(users := old(db.data.users)[found.value := WithResetToken(old(db.data.users)[found.value], token, now)]))
  {
    var found := First(db.data.users, (k: Id, u: User) => Matches(email, Some(u.email)), db.data.nextId);
    if found.None? {
      return Err(NotFound);
    }
    var v := WithResetToken(db.data.users[found.value], token, now);
    if !UserValid(v) {
      return Err(ServerError);
    }
    RewriteKeepsUsersUnique(db.data.users, found.value, v);
    db.data := db.data.(users := db.data.users[found.value := v]);
    r := Ok(found.value);
  }

  /** The reset query: the stored token, with an expiry later than now. */
  predicate ResetMatch(u: User, token: string, now: int) {
    u.resetToken == Some(token) && u.resetTokenExpiry.Some? && u.resetTokenExpiry.value > now
  }

  /** The user after a reset: the new hash, and no token. */
  function AfterReset(u: User, hashed: string): (v: User)
    ensures v.password == Some(hashed) && v.resetToken.None? && v.resetTokenExpiry.None?
    ensures SameIdentity(u, v)
  {
    u.(password := Some(hashed), resetToken := None, resetTokenExpiry := None)
  }

  /** A reset token works once: the user it reset no longer matches any token. */
  lemma ResetTokenSingleUse(u: User, hashed: string, token: string, later: int)
    ensures !ResetMatch(AfterReset(u, hashed), token, later)
  {
  }

  /** A token works up to one hour after it was issued, and not after. */
  lemma ResetTokenExpires(u: User, token: string, issued: int, now: int)
    ensures ResetMatch(WithResetToken(u, token, issued), token, now) <==> now < issued + ResetLifetime
  {
  }

  /**
   * POST /reset-password/:token: the policy is checked first (a missing
   * password is tested as the text "undefined", which fails it), then the
   * token; either failure is a 400.
   */
  method ResetPassword(db: Db, token: string, newPassword: Option<string>, hash: string -> string, now: int)
    returns (r: Result<Id>)
    requires db.Valid()
    modifies db
    ensures db.Valid()
    ensures var tested := if newPassword.Some? then newPassword.value else "undefined";
      !PasswordOk(tested) ==> r == Err(BadRequest) && db.data == old(db.data)
    ensures var tested := if newPassword.Some? then newPassword.value else "undefined";
      var found := First(old(db.data.users), (k: Id, u: User) => ResetMatch(u, token, now), old(db.data.nextId));
      PasswordOk(tested) ==>
        if found.None? then r == Err(BadRequest) && db.data == old(db.data)
        else if !UserValid(old(db.data.users)[found.value]) then r == Err(ServerError) && db.data == old(db.data)
        else (r == Ok(found.value)
          && db.data == old(db.data).(users := old(db.data.users)[found.value := AfterReset(old(db.data.users)[found.value], hash(tested))]))
  {
    var tested := if newPassword.Some? then newPassword.value else "undefined";
    if !PasswordOk(tested) {
      return Err(BadRequest);
    }
    var found := First(db.data.users, (k: Id, u: User) => ResetMatch(u, token, now), db.data.nextId);
    if found.None? {
      return Err(BadRequest);
    }
    var v := AfterReset(db.data.users[found.value], hash(tested));
    if !UserValid(v) {
      return Err(ServerError);
    }
    RewriteKeepsUsersUnique(db.data.users, found.value, v);
    db.data := db.data.(users := db.data.users[found.value := v]);
    r := Ok(found.value);
  }

  /** A request without a password is always refused: "undefined" has no uppercase letter. */
  lemma MissingPasswordRefused()
    ensures !PasswordOk("undefined")
  {
    assert !IsUpper("undefined"[0]);
    assert forall i :: 0 <= i < |"undefined"| ==> !IsUpper("undefined"[i]);
  }
}

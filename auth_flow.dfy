/**
 * The request handlers of the authentication controller as functions from the state before
 * the request to the response and the state after it. `now` stands for `Date.now()` and the
 * reset token for the hex string made from `crypto.randomBytes(32)` (None when that call
 * reports an error). Validation results arrive as the list `validationResult` produced.
 */
module AuthFlow {
  import opened Wrappers
  import opened Bcrypt
  import opened AuthModel

  /** The message a form shows: the first pending flash message, if any. */
  function FlashMessage(flash: seq<string>): (m: Option<string>)
    ensures m.Some? <==> flash != []
    ensures m.Some? ==> m.value == flash[0]
  {
    if |flash| > 0 then Some(flash[0]) else None
  }

  /** Reading the "error" flash removes it from the session. */
  function ConsumeFlash(s: State): (t: State)
    ensures t.users == s.users && t.carts == s.carts && t.nextId == s.nextId
    ensures t.session.isLoggedIn == s.session.isLoggedIn && t.session.user == s.session.user
    ensures t.session.flash == []
  {
    s.(session := s.session.(flash := []))
  }

  function AddFlash(s: State, msg: string): (t: State)
    ensures t.users == s.users && t.carts == s.carts && t.nextId == s.nextId
    ensures t.session.isLoggedIn == s.session.isLoggedIn && t.session.user == s.session.user
    ensures t.session.flash == s.session.flash + [msg]
  {
    s.(session := s.session.(flash := s.session.flash + [msg]))
  }

  /** GET /login: the login form with the pending flash message. */
  function GetLogin(s: State): (r: Step)
    ensures r.outcome.Render? && r.outcome.status == OkStatus && r.outcome.page == LoginPage([])
    ensures View(r.outcome.page) == "auth/login"
    ensures r.outcome.errorMessage.Some? <==> s.session.flash != []
    ensures r.outcome.errorMessage.Some? ==> r.outcome.errorMessage.value == s.session.flash[0]
    ensures r.state == ConsumeFlash(s)
  {
    Step(Render(OkStatus, LoginPage([]), FlashMessage(s.session.flash)), ConsumeFlash(s))
  }

  /** GET /signup: the signup form with the pending flash message. */
  function GetSignup(s: State): (r: Step)
    ensures r.outcome.Render? && r.outcome.status == OkStatus && r.outcome.page == SignupPage([])
    ensures View(r.outcome.page) == "auth/signup"
    ensures r.outcome.errorMessage.Some? <==> s.session.flash != []
    ensures r.outcome.errorMessage.Some? ==> r.outcome.errorMessage.value == s.session.flash[0]
    ensures r.state == ConsumeFlash(s)
  {
    Step(Render(OkStatus, SignupPage([]), FlashMessage(s.session.flash)), ConsumeFlash(s))
  }

  /** GET /reset: the reset-request form with the pending flash message. */
  function GetReset(s: State): (r: Step)
    ensures r.outcome.Render? && r.outcome.status == OkStatus && r.outcome.page == ResetPage
    ensures View(r.outcome.page) == "auth/reset"
    ensures r.outcome.errorMessage.Some? <==> s.session.flash != []
    ensures r.outcome.errorMessage.Some? ==> r.outcome.errorMessage.value == s.session.flash[0]
    ensures r.state == ConsumeFlash(s)
  {
    Step(Render(OkStatus, ResetPage, FlashMessage(s.session.flash)), ConsumeFlash(s))
  }

  /** The page a failed login shows, whichever way it failed. */
  const RejectedLogin: Outcome := Render(UnprocessableStatus, LoginPage([]), Some(InvalidCredentials))

  /** POST /login. */
  function PostLogin(s: State, email: string, password: string, errors: seq<ValidationError>): (r: Step)
    ensures r.state.users == s.users && r.state.carts == s.carts && r.state.nextId == s.nextId
    ensures r.state.session.flash == s.session.flash
    ensures errors != [] ==>
              r == Step(Render(UnprocessableStatus, LoginPage(errors), Some(errors[0].msg)), s)
    ensures errors == [] ==> r.outcome == Redirect("/") || r == Step(RejectedLogin, s)
    ensures r.outcome.Redirect? ==>
              && r.outcome.path == "/"
              && r.state.session.isLoggedIn
              && r.state.session.user.Some?
              && var u := r.state.session.user.value;
                 u.id in s.users && u.record == s.users[u.id]
                 && u.record.email == email && Compare(password, u.record.password)
  {
    if errors != [] then
      Step(Render(UnprocessableStatus, LoginPage(errors), Some(errors[0].msg)), s)
    else
      match FindOne(s, ByEmail(email))
      case None => Step(RejectedLogin, s)
      case Some(id) =>
        var user := s.users[id];
        if Compare(password, user.password) then
          Step(Redirect("/"), s.(session := s.session.(isLoggedIn := true, user := Some(SessionUser(id, user)))))
        else
          Step(RejectedLogin, s)
  }

  /** POST /signup. `confirmPassword` is only echoed back to the form and is left out. */
  function PostSignup(s: State, email: string, password: string, errors: seq<ValidationError>): (r: Step)
    ensures r.state.session.isLoggedIn == s.session.isLoggedIn && r.state.session.user == s.session.user
    ensures s.users.Keys <= r.state.users.Keys && s.carts <= r.state.carts
    ensures forall id :: id in s.users ==> r.state.users[id] == s.users[id]
    ensures errors != [] ==>
              r == Step(Render(UnprocessableStatus, SignupPage(errors), Some(errors[0].msg)), s)
    ensures errors == [] ==>
              r.outcome == Redirect("/login") || r.outcome == Redirect("/signup") || r.outcome == NoResponse
    ensures r.outcome == NoResponse ==> r.state == s && s.nextId in s.users
    ensures r.outcome == Redirect("/signup") ==> r.state == AddFlash(s, DuplicateEmail)
    ensures r.outcome == Redirect("/login") ==>
              && s.nextId !in s.users
              && r.state.users == s.users[s.nextId := User(email, Hash(password, Rounds), None, None)]
              && r.state.carts == s.carts + {s.nextId}
              && r.state.nextId == s.nextId + 1
              && r.state.session == s.session
  {
    if errors != [] then
      Step(Render(UnprocessableStatus, SignupPage(errors), Some(errors[0].msg)), s)
    else
      match FindOne(s, ByEmail(email))
      case Some(_) => Step(Redirect("/signup"), AddFlash(s, DuplicateEmail))
      case None =>
        if s.nextId in s.users then
          // the key the counter is about to hand out is taken: `User.create` fails and,
          // since the chain's catch only logs, no response is sent; a well-formed store
          // never gets here (AuthProperties.SignupFreshEmail)
          Step(NoResponse, s)
        else
          var id := s.nextId;
          var user := User(email, Hash(password, Rounds), None, None);
          Step(Redirect("/login"), s.(users := s.users[id := user], carts := s.carts + {id}, nextId := id + 1))
  }

  /** POST /logout: the session is destroyed, whatever it held. */
  function PostLogout(s: State): (r: Step)
    ensures r.outcome == Redirect("/")
    ensures r.state.users == s.users && r.state.carts == s.carts && r.state.nextId == s.nextId
    ensures !r.state.session.isLoggedIn && r.state.session.user.None? && r.state.session.flash == []
  {
    Step(Redirect("/"), s.(session := AnonymousSession))
  }

  /**
   * POST /reset. When no account has the email, the first step of the promise chain sends
   * the redirect to /reset and the second step still runs and redirects again, so the
   * request ends in a fault after the first response.
   */
  function PostReset(s: State, email: string, token: Option<string>, now: int): (r: Step)
    ensures r.state.carts == s.carts && r.state.nextId == s.nextId && r.state.users.Keys == s.users.Keys
    ensures r.state.session.isLoggedIn == s.session.isLoggedIn && r.state.session.user == s.session.user
    ensures forall id :: id in s.users ==>
              r.state.users[id].email == s.users[id].email && r.state.users[id].password == s.users[id].password
    ensures token.None? ==> r == Step(Redirect("/reset"), s)
    ensures r.outcome == Redirect("/") || r.outcome == Redirect("/reset") || r.outcome == RedirectThenFault("/reset")
    ensures r.outcome == RedirectThenFault("/reset") ==> r.state == AddFlash(s, NoAccount)
    ensures r.outcome == Redirect("/") ==>
              && token.Some?
              && r.state.session == s.session
              && exists id :: id in s.users && s.users[id].email == email &&
                   r.state.users == s.users[id := s.users[id].(resetToken := token, resetTokenExpiration := Some(now + ResetTokenLifetime))]
  {
    match token
    case None => Step(Redirect("/reset"), s)
    case Some(t) =>
      match FindOne(s, ByEmail(email))
      case None => Step(RedirectThenFault("/reset"), AddFlash(s, NoAccount))
      case Some(id) =>
        var user := s.users[id].(resetToken := Some(t), resetTokenExpiration := Some(now + ResetTokenLifetime));
        Step(Redirect("/"), s.(users := s.users[id := user]))
  }

  /**
   * GET /reset/:token. The flash message is read before the found row is dereferenced, so
   * it is consumed even when no row holds the token and the handler faults.
   */
  function GetNewPassword(s: State, token: string, now: int): (r: Step)
    ensures r.state == ConsumeFlash(s)
    ensures r.outcome == Fault || r.outcome.Render?
    ensures r.outcome.Render? ==>
              && r.outcome.status == OkStatus
              && r.outcome.errorMessage == FlashMessage(s.session.flash)
              && r.outcome.page.NewPasswordPage?
              && View(r.outcome.page) == "auth/new-password"
              && r.outcome.page.passwordToken == token
              && r.outcome.page.userId in s.users
              && HoldsFreshToken(s.users[r.outcome.page.userId], token, now)
    ensures Wellformed(s) ==>
              (r.outcome == Fault <==> forall id :: id in s.users ==> !HoldsFreshToken(s.users[id], token, now))
  {
    match FindOne(s, ByFreshToken(token, now))
    case None => Step(Fault, ConsumeFlash(s))
    case Some(id) =>
      Step(Render(OkStatus, NewPasswordPage(id, token), FlashMessage(s.session.flash)), ConsumeFlash(s))
  }

  /**
   * POST /new-password. With no matching row the chain dereferences null and the error
   * reaches `next`; nothing is written.
   */
  function PostNewPassword(s: State, userId: UserId, passwordToken: string, newPassword: string, now: int): (r: Step)
    ensures r.outcome == Fault || r.outcome == Redirect("/login")
    ensures r.outcome == Fault ==> r.state == s
    ensures r.state.carts == s.carts && r.state.nextId == s.nextId && r.state.session == s.session
    ensures r.outcome == Redirect("/login") ==>
              && userId in s.users
              && HoldsFreshToken(s.users[userId], passwordToken, now)
              && r.state.users == s.users[userId := s.users[userId].(
                   password := Hash(newPassword, Rounds), resetToken := None, resetTokenExpiration := None)]
  {
    match FindOne(s, ByFreshTokenAndId(passwordToken, now, userId))
    case None => Step(Fault, s)
    case Some(id) =>
      var user := s.users[id].(password := Hash(newPassword, Rounds), resetToken := None, resetTokenExpiration := None);
      Step(Redirect("/login"), s.(users := s.users[id := user]))
  }
}

/**
 * What the handlers promise, stated over the functions of AuthFlow: the login failure modes
 * cannot be told apart, signup never overwrites an account, the reset token lives for one
 * hour, is overwritten by a newer request and is spent by its first use, and every handler
 * keeps the store well formed.
 */
module AuthProperties {
  import opened Wrappers
  import opened Bcrypt
  import opened AuthModel
  import opened AuthFlow

  /** Some row has this email and its digest matches the password. */
  ghost predicate Authenticates(s: State, email: string, password: string) {
    exists id :: id in s.users && s.users[id].email == email && Compare(password, s.users[id].password)
  }

  ghost predicate EmailInUse(s: State, email: string) {
    exists id :: id in s.users && s.users[id].email == email
  }

  // ----- login -----

  /**
   * An unknown email and a known email with a wrong password give the same response and
   * leave the state, session included, as it was.
   */
  lemma LoginFailureIndistinguishable(s: State, unknown: string, p1: string, id: UserId, p2: string)
    requires Wellformed(s)
    requires !EmailInUse(s, unknown)
    requires id in s.users && !Compare(p2, s.users[id].password)
    ensures PostLogin(s, unknown, p1, []) == PostLogin(s, s.users[id].email, p2, [])
    ensures PostLogin(s, unknown, p1, []) == Step(RejectedLogin, s)
  {
  }

  /**
   * Without validation errors a login succeeds exactly when the password matches the digest
   * of the account with that email, and the session then holds that account.
   */
  lemma LoginSucceedsIff(s: State, email: string, password: string)
    requires Wellformed(s)
    ensures PostLogin(s, email, password, []).outcome == Redirect("/") <==> Authenticates(s, email, password)
    ensures forall id :: id in s.users && s.users[id].email == email && Compare(password, s.users[id].password) ==>
              PostLogin(s, email, password, []).state.session
                == s.session.(isLoggedIn := true, user := Some(SessionUser(id, s.users[id])))
  {
  }

  // ----- signup -----

  /** Signing up with an email already in use adds no row, changes none, and flashes an error. */
  lemma SignupExistingEmail(s: State, id: UserId, password: string)
    requires Wellformed(s) && id in s.users
    ensures PostSignup(s, s.users[id].email, password, []) == Step(Redirect("/signup"), AddFlash(s, DuplicateEmail))
  {
  }

  /**
   * Signing up with an unused email adds exactly one row, under a key not used before,
   * holding the digest of the password (which verifies against it), and a cart for it.
   */
  lemma SignupFreshEmail(s: State, email: string, password: string)
    requires Wellformed(s) && !EmailInUse(s, email)
    ensures var r := PostSignup(s, email, password, []);
      && r.outcome == Redirect("/login")
      && s.nextId !in s.users
      && r.state.users.Keys == s.users.Keys + {s.nextId}
      && r.state.users[s.nextId] == User(email, Hash(password, Rounds), None, None)
      && Compare(password, r.state.users[s.nextId].password)
      && r.state.carts == s.carts + {s.nextId}
      && r.state.session == s.session
  {
  }

  lemma SignupPreservesWellformed(s: State, email: string, password: string, errors: seq<ValidationError>)
    requires Wellformed(s)
    ensures Wellformed(PostSignup(s, email, password, errors).state)
  {
  }

  /** A successful signup leaves an account that can log in with the same password. */
  lemma SignupThenLogin(s: State, email: string, password: string)
    requires Wellformed(s) && !EmailInUse(s, email)
    ensures var s1 := PostSignup(s, email, password, []).state;
      && PostLogin(s1, email, password, []).outcome == Redirect("/")
      && PostLogin(s1, email, password, []).state.session.user == Some(SessionUser(s.nextId, s1.users[s.nextId]))
  {
    SignupFreshEmail(s, email, password);
    SignupPreservesWellformed(s, email, password, []);
    var s1 := PostSignup(s, email, password, []).state;
    FindByEmailExact(s1, s.nextId);
  }

  // ----- reset request -----

  /**
   * A reset request for a known email stores the token and an expiry one hour ahead on that
   * row, replacing whatever token it held; no other row changes.
   */
  lemma ResetKnownEmail(s: State, id: UserId, token: string, now: int)
    requires Wellformed(s) && id in s.users
    ensures var r := PostReset(s, s.users[id].email, Some(token), now);
      && r.outcome == Redirect("/")
      && r.state.users[id].resetToken == Some(token)
      && r.state.users[id].resetTokenExpiration == Some(now + ResetTokenLifetime)
      && r.state.users[id].email == s.users[id].email
      && r.state.users[id].password == s.users[id].password
      && (forall k :: k in s.users && k != id ==> r.state.users[k] == s.users[k])
      && r.state.session == s.session
  {
  }

  /**
   * A reset request for an unknown email modifies no row; the redirect to /reset is sent
   * with a flash message and the request then faults.
   */
  lemma ResetUnknownEmail(s: State, email: string, token: string, now: int)
    requires Wellformed(s) && !EmailInUse(s, email)
    ensures PostReset(s, email, Some(token), now) == Step(RedirectThenFault("/reset"), AddFlash(s, NoAccount))
  {
  }

  lemma ResetPreservesWellformed(s: State, email: string, token: Option<string>, now: int)
    requires Wellformed(s)
    ensures Wellformed(PostReset(s, email, token, now).state)
  {
  }

  // ----- reset completion -----

  /**
   * Completing a reset succeeds exactly when that key's row holds the token and its expiry is
   * strictly later than now; it then stores the new digest and clears both reset fields.
   * Otherwise the handler faults and writes nothing.
   */
  lemma NewPasswordSucceedsIff(s: State, userId: UserId, token: string, password: string, now: int)
    requires Wellformed(s)
    ensures var r := PostNewPassword(s, userId, token, password, now);
      && (r.outcome == Redirect("/login") <==> userId in s.users && HoldsFreshToken(s.users[userId], token, now))
      && (r.outcome != Redirect("/login") ==> r == Step(Fault, s))
      && (r.outcome == Redirect("/login") ==>
            && Compare(password, r.state.users[userId].password)
            && r.state.users[userId].resetToken.None?
            && r.state.users[userId].resetTokenExpiration.None?
            && r.state.users[userId].email == s.users[userId].email
            && (forall k :: k in s.users && k != userId ==> r.state.users[k] == s.users[k]))
  {
  }

  lemma NewPasswordPreservesWellformed(s: State, userId: UserId, token: string, password: string, now: int)
    requires Wellformed(s)
    ensures Wellformed(PostNewPassword(s, userId, token, password, now).state)
  {
  }

  /** A reset that went through spent its token: the same pair is refused afterwards. */
  lemma ReplayFails(s: State, userId: UserId, token: string, p1: string, now: int, p2: string, at: int)
    requires Wellformed(s)
    requires PostNewPassword(s, userId, token, p1, now).outcome == Redirect("/login")
    ensures var s1 := PostNewPassword(s, userId, token, p1, now).state;
      PostNewPassword(s1, userId, token, p2, at) == Step(Fault, s1)
  {
  }

  /**
   * A token issued at `issuedAt` is accepted at time `at` exactly when `at` is less than one
   * hour after `issuedAt`.
   */
  lemma ResetWindow(s: State, id: UserId, token: string, issuedAt: int, at: int, password: string)
    requires Wellformed(s) && id in s.users
    ensures var s1 := PostReset(s, s.users[id].email, Some(token), issuedAt).state;
      PostNewPassword(s1, id, token, password, at).outcome == Redirect("/login") <==>
        at < issuedAt + ResetTokenLifetime
  {
  }

  /** A second reset request replaces the first token, which is refused from then on. */
  lemma NewerResetInvalidatesOlder(s: State, id: UserId, t1: string, at1: int, t2: string, at2: int,
                                   password: string, now: int)
    requires Wellformed(s) && id in s.users && t1 != t2
    ensures var email := s.users[id].email;
      var s1 := PostReset(s, email, Some(t1), at1).state;
      var s2 := PostReset(s1, email, Some(t2), at2).state;
      PostNewPassword(s2, id, t1, password, now) == Step(Fault, s2)
  {
  }

  /**
   * The form rendered for a reset link names the user holding the token; posting the token
   * back for that user at time `at` succeeds exactly while that user's expiry is after `at`.
   */
  lemma ResetFormAccepted(s: State, token: string, now: int, at: int, password: string)
    requires Wellformed(s)
    requires GetNewPassword(s, token, now).outcome.Render?
    ensures var r := GetNewPassword(s, token, now);
      var id := r.outcome.page.userId;
      && id in s.users && s.users[id].resetTokenExpiration.Some?
      && (PostNewPassword(r.state, id, token, password, at).outcome == Redirect("/login") <==>
            at < s.users[id].resetTokenExpiration.value)
  {
  }

  /**
   * A completed reset replaces the credential: the new password logs in and, when it differs,
   * the old one no longer does.
   */
  lemma ResetThenLogin(s: State, id: UserId, token: string, issuedAt: int, at: int, newPassword: string, oldPassword: string)
    requires Wellformed(s) && id in s.users && at < issuedAt + ResetTokenLifetime
    requires Compare(oldPassword, s.users[id].password) && oldPassword != newPassword
    ensures var email := s.users[id].email;
      var s1 := PostReset(s, email, Some(token), issuedAt).state;
      var s2 := PostNewPassword(s1, id, token, newPassword, at).state;
      && PostLogin(s2, email, newPassword, []).outcome == Redirect("/")
      && PostLogin(s2, email, oldPassword, []) == Step(RejectedLogin, s2)
  {
    var email := s.users[id].email;
    ResetWindow(s, id, token, issuedAt, at, newPassword);
    ResetPreservesWellformed(s, email, Some(token), issuedAt);
    var s1 := PostReset(s, email, Some(token), issuedAt).state;
    NewPasswordSucceedsIff(s1, id, token, newPassword, at);
    NewPasswordPreservesWellformed(s1, id, token, newPassword, at);
    var s2 := PostNewPassword(s1, id, token, newPassword, at).state;
    FindByEmailExact(s2, id);
    CompareOtherHash(oldPassword, newPassword, Rounds);
  }

  // ----- flash messages -----

  /** The duplicate-email message is shown on the next signup form, and only there. */
  lemma DuplicateEmailShownOnce(s: State, id: UserId, password: string)
    requires Wellformed(s) && id in s.users && s.session.flash == []
    ensures var s1 := PostSignup(s, s.users[id].email, password, []).state;
      && GetSignup(s1).outcome.errorMessage == Some(DuplicateEmail)
      && GetSignup(GetSignup(s1).state).outcome.errorMessage == None
  {
  }

  /** The no-account message is shown on the next reset form, and only there. */
  lemma NoAccountShownOnce(s: State, email: string, token: string, now: int)
    requires Wellformed(s) && !EmailInUse(s, email) && s.session.flash == []
    ensures var s1 := PostReset(s, email, Some(token), now).state;
      && GetReset(s1).outcome.errorMessage == Some(NoAccount)
      && GetReset(GetReset(s1).state).outcome.errorMessage == None
  {
  }

  /** After a login and a logout the client is anonymous again; the table is untouched. */
  lemma LoginThenLogout(s: State, email: string, password: string)
    requires Wellformed(s) && Authenticates(s, email, password)
    ensures var s1 := PostLogin(s, email, password, []).state;
      && s1.session.isLoggedIn
      && PostLogout(s1).state == s.(session := AnonymousSession)
  {
  }
}

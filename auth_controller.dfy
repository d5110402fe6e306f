/**
 * The authentication controller as the object its handlers mutate: the user table, the set
 * of users owning a cart, the auto-increment counter and the current client's session. Each
 * handler updates these fields in place and returns how the request ended; its contract ties
 * the response and the new state to the corresponding function of AuthFlow, whose properties
 * AuthProperties proves.
 */
module AuthController {
  import opened Wrappers
  import opened Bcrypt
  import opened AuthModel
  import AuthFlow

  class Controller {
    var users: map<UserId, User>
    var carts: set<UserId>
    var nextId: nat
    var session: Session

    /** The fields as one value of the pure model. */
    function Snapshot(): State
      reads this
    {
      State(users, carts, nextId, session)
    }

    ghost predicate Valid()
      reads this
    {
      Wellformed(Snapshot())
    }

    constructor ()
      ensures Valid() && Snapshot() == EmptyState
    {
      users, carts, nextId, session := map[], {}, 1, AnonymousSession;
    }

    method GetLogin() returns (outcome: Outcome)
      requires Valid()
      modifies this
      ensures Valid()
      ensures Step(outcome, Snapshot()) == AuthFlow.GetLogin(old(Snapshot()))
    {
      var message := AuthFlow.FlashMessage(session.flash);
      session := session.(flash := []);
      outcome := Render(OkStatus, LoginPage([]), message);
    }

    method GetSignup() returns (outcome: Outcome)
      requires Valid()
      modifies this
      ensures Valid()
      ensures Step(outcome, Snapshot()) == AuthFlow.GetSignup(old(Snapshot()))
    {
      var message := AuthFlow.FlashMessage(session.flash);
      session := session.(flash := []);
      outcome := Render(OkStatus, SignupPage([]), message);
    }

    method GetReset() returns (outcome: Outcome)
      requires Valid()
      modifies this
      ensures Valid()
      ensures Step(outcome, Snapshot()) == AuthFlow.GetReset(old(Snapshot()))
    {
      var message := AuthFlow.FlashMessage(session.flash);
      session := session.(flash := []);
      outcome := Render(OkStatus, ResetPage, message);
    }

    method PostLogin(email: string, password: string, errors: seq<ValidationError>) returns (outcome: Outcome)
      requires Valid()
      modifies this
      ensures Valid()
      ensures Step(outcome, Snapshot()) == AuthFlow.PostLogin(old(Snapshot()), email, password, errors)
    {
      if errors != [] {
        return Render(UnprocessableStatus, LoginPage(errors), Some(errors[0].msg));
      }
      var found := FindOne(Snapshot(), ByEmail(email));
      if found.None? {
        return AuthFlow.RejectedLogin;
      }
      var user := users[found.value];
      if Compare(password, user.password) {
        session := session.(isLoggedIn := true);
        session := session.(user := Some(SessionUser(found.value, user)));
        return Redirect("/");
      }
      outcome := AuthFlow.RejectedLogin;
    }

    method PostSignup(email: string, password: string, errors: seq<ValidationError>) returns (outcome: Outcome)
      requires Valid()
      modifies this
      ensures Valid()
      ensures Step(outcome, Snapshot()) == AuthFlow.PostSignup(old(Snapshot()), email, password, errors)
    {
      if errors != [] {
        return Render(UnprocessableStatus, SignupPage(errors), Some(errors[0].msg));
      }
      var found := FindOne(Snapshot(), ByEmail(email));
      if found.Some? {
        session := session.(flash := session.flash + [DuplicateEmail]);
        return Redirect("/signup");
      }
      var hashed := Hash(password, Rounds);
      if nextId in users {
        return NoResponse;
      }
      // User.create: the row gets the next key of the counter
      var id := nextId;
      users := users[id := User(email, hashed, None, None)];
      nextId := nextId + 1;
      // user.createCart()
      carts := carts + {id};
      outcome := Redirect("/login");
    }

    method PostLogout() returns (outcome: Outcome)
      requires Valid()
      modifies this
      ensures Valid()
      ensures Step(outcome, Snapshot()) == AuthFlow.PostLogout(old(Snapshot()))
    {
      session := AnonymousSession;
      outcome := Redirect("/");
    }

    method PostReset(email: string, token: Option<string>, now: int) returns (outcome: Outcome)
      requires Valid()
      modifies this
      ensures Valid()
      ensures Step(outcome, Snapshot()) == AuthFlow.PostReset(old(Snapshot()), email, token, now)
    {
      if token.None? {
        return Redirect("/reset");
      }
      var found := FindOne(Snapshot(), ByEmail(email));
      if found.None? {
        session := session.(flash := session.flash + [NoAccount]);
        return RedirectThenFault("/reset");
      }
      var id := found.value;
      var user := users[id];
      user := user.(resetToken := token);
      user := user.(resetTokenExpiration := Some(now + ResetTokenLifetime));
      users := users[id := user];
      outcome := Redirect("/");
    }

    method GetNewPassword(token: string, now: int) returns (outcome: Outcome)
      requires Valid()
      modifies this
      ensures Valid()
      ensures Step(outcome, Snapshot()) == AuthFlow.GetNewPassword(old(Snapshot()), token, now)
    {
      var found := FindOne(Snapshot(), ByFreshToken(token, now));
      var message := AuthFlow.FlashMessage(session.flash);
      session := session.(flash := []);
      if found.None? {
        return Fault;
      }
      outcome := Render(OkStatus, NewPasswordPage(found.value, token), message);
    }

    method PostNewPassword(userId: UserId, passwordToken: string, newPassword: string, now: int)
      returns (outcome: Outcome)
      requires Valid()
      modifies this
      ensures Valid()
      ensures Step(outcome, Snapshot()) ==
                AuthFlow.PostNewPassword(old(Snapshot()), userId, passwordToken, newPassword, now)
    {
      var found := FindOne(Snapshot(), ByFreshTokenAndId(passwordToken, now, userId));
      var hashed := Hash(newPassword, Rounds);
      if found.None? {
        return Fault;
      }
      var id := found.value;
      var user := users[id];
      user := user.(password := hashed);
      user := user.(resetToken := None, resetTokenExpiration := None);
      users := users[id := user];
      outcome := Redirect("/login");
    }
  }

  /**
   * A client of the controller: on a fresh store, a signup, two logins with a wrong password
   * (identical responses) and a login with the right one.
   */
  method SignupLoginScenario() returns (signup: Outcome, wrong1: Outcome, wrong2: Outcome, right: Outcome)
    ensures signup == Redirect("/login")
    ensures wrong1 == wrong2 == Render(UnprocessableStatus, LoginPage([]), Some(InvalidCredentials))
    ensures right == Redirect("/")
  {
    var c := new Controller();
    signup := c.PostSignup("a@b.com", "secret1", []);
    wrong1 := c.PostLogin("a@b.com", "secret2", []);
    wrong2 := c.PostLogin("a@b.com", "secret2", []);
    right := c.PostLogin("a@b.com", "secret1", []);
  }
}

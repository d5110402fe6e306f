/**
 * The state the authentication handlers read and write: the user table (a map from the
 * auto-incremented primary key to the row), the set of users that own a cart, the
 * auto-increment counter, and the per-client session with its flash messages.
 */
module AuthModel {
  import opened Wrappers
  import opened Bcrypt

  type UserId = nat

  /** A row of the user table. `password` holds a digest; the reset fields are nullable columns. */
  datatype User = User(
    email: string,
    password: Digest,
    resetToken: Option<string>,
    resetTokenExpiration: Option<int>)

  /** What `req.session.user` holds after a login: the row as it was read, with its key. */
  datatype SessionUser = SessionUser(id: UserId, record: User)

  /**
   * The session payload. `flash` is the list of one-shot "error" messages; it is the only
   * flash key the controller uses.
   */
  datatype Session = Session(isLoggedIn: bool, user: Option<SessionUser>, flash: seq<string>)

  /** The session a client has after `destroy`, or before it ever logged in. */
  const AnonymousSession: Session := Session(false, None, [])

  /** One entry of `validationResult(req).array()`; the rules that produce it live in the routes. */
  datatype ValidationError = ValidationError(param: string, msg: string)

  /** The form a rendered page shows, with the data the handler passes to it. */
  datatype Page =
    | LoginPage(validationErrors: seq<ValidationError>)
    | SignupPage(validationErrors: seq<ValidationError>)
    | ResetPage
    | NewPasswordPage(userId: UserId, passwordToken: string)

  /** The template `res.render` is given; every form lives under the auth/ views. */
  function View(p: Page): (v: string)
    ensures |v| > 5 && v[..5] == "auth/"
  {
    match p
    case LoginPage(_) => "auth/login"
    case SignupPage(_) => "auth/signup"
    case ResetPage => "auth/reset"
    case NewPasswordPage(_, _) => "auth/new-password"
  }

  /**
   * How a request ends: a redirect, a rendered page with its status code, an error passed to
   * `next`, a redirect that was sent after which the handler still faulted (a second
   * response attempted once the first was out), or no response at all (an error swallowed
   * by a `catch` that only logs).
   */
  datatype Outcome =
    | Redirect(path: string)
    | Render(status: nat, page: Page, errorMessage: Option<string>)
    | Fault
    | RedirectThenFault(sent: string)
    | NoResponse

  /** Everything a handler may change. */
  datatype State = State(
    users: map<UserId, User>,
    carts: set<UserId>,
    nextId: nat,
    session: Session)

  /** A handler's response together with the state it leaves behind. */
  datatype Step = Step(outcome: Outcome, state: State)

  const OkStatus: nat := 200
  const UnprocessableStatus: nat := 422
  /** How long a reset token stays valid, in milliseconds (one hour). */
  const ResetTokenLifetime: int := 3600000

  const InvalidCredentials: string := "Invalid email or password."
  const DuplicateEmail: string := "E-Mail exists already, please pick a different one."
  const NoAccount: string := "No account with that email found."

  /** The state of a fresh store: no users, no carts, nobody logged in. */
  const EmptyState: State := State(map[], {}, 1, AnonymousSession)

  /**
   * The invariant the store keeps: every key lies below the auto-increment counter (keys
   * start at 1), no two rows share an email, and every cart belongs to an existing user.
   */
  ghost predicate Wellformed(s: State) {
    && 1 <= s.nextId
    && (forall id :: id in s.users ==> 1 <= id < s.nextId)
    && (forall a, b :: a in s.users && b in s.users && a != b ==> s.users[a].email != s.users[b].email)
    && s.carts <= s.users.Keys
  }

  /** The `where` clauses of the controller's `User.findOne` calls. */
  datatype Query =
    | ByEmail(email: string)
    | ByFreshToken(token: string, now: int)
    | ByFreshTokenAndId(token: string, now: int, id: UserId)

  /**
   * Whether row `id` satisfies the query. A NULL column never equals a value and is never
   * greater than `now`, and the expiry comparison is strict.
   */
  predicate Matches(id: UserId, u: User, q: Query): (b: bool)
    ensures !q.ByEmail? && (u.resetToken.None? || u.resetTokenExpiration.None?) ==> !b
    ensures q.ByFreshTokenAndId? && b ==> id == q.id
  {
    match q
    case ByEmail(e) => u.email == e
    case ByFreshToken(t, now) => HoldsFreshToken(u, t, now)
    case ByFreshTokenAndId(t, now, i) => id == i && HoldsFreshToken(u, t, now)
  }

  predicate HoldsFreshToken(u: User, token: string, now: int): (b: bool)
    ensures u.resetToken.None? || u.resetTokenExpiration.None? ==> !b
    ensures b ==> u.resetToken == Some(token) && u.resetTokenExpiration.Some? && now < u.resetTokenExpiration.value
    ensures u.resetToken == Some(token) && u.resetTokenExpiration.Some? && now < u.resetTokenExpiration.value ==> b
  {
    u.resetToken == Some(token) && u.resetTokenExpiration.Some? && u.resetTokenExpiration.value > now
  }

  /** Expiry is lazy but permanent: a token query a row fails at `now` it fails at every later time. */
  lemma ExpiryIsPermanent(id: UserId, u: User, token: string, now: int, later: int)
    requires now <= later && !Matches(id, u, ByFreshToken(token, now))
    ensures !Matches(id, u, ByFreshToken(token, later))
  {
  }

  /** The completion query is the reset-link query narrowed to one primary key. */
  lemma CompletionQueryNarrowsLinkQuery(id: UserId, u: User, token: string, now: int, key: UserId)
    ensures Matches(id, u, ByFreshTokenAndId(token, now, key)) <==> id == key && Matches(id, u, ByFreshToken(token, now))
  {
  }

  /** An email query ignores the password and reset columns, so writing them keeps email lookups stable. */
  lemma EmailMatchIgnoresCredentials(id: UserId, u: User, email: string, password: Digest,
                                     token: Option<string>, expiration: Option<int>)
    ensures Matches(id, u, ByEmail(email)) ==
            Matches(id, u.(password := password, resetToken := token, resetTokenExpiration := expiration), ByEmail(email))
  {
  }

  /** The first key in [from, bound) whose row satisfies `q`, if there is one. */
  function FindFrom(users: map<UserId, User>, q: Query, from: nat, bound: nat): (r: Option<UserId>)
    decreases bound - from
    ensures r.Some? ==> from <= r.value < bound && r.value in users && Matches(r.value, users[r.value], q)
    ensures r.Some? ==> forall k :: from <= k < r.value && k in users ==> !Matches(k, users[k], q)
    ensures r.None? ==> forall k :: from <= k < bound && k in users ==> !Matches(k, users[k], q)
  {
    if from >= bound then None
    else if from in users && Matches(from, users[from], q) then Some(from)
    else FindFrom(users, q, from + 1, bound)
  }

  /**
   * `User.findOne({ where })`: some row satisfying the query, or null. The model returns the
   * one with the smallest key.
   */
  function FindOne(s: State, q: Query): (r: Option<UserId>)
    ensures r.Some? ==> r.value in s.users && Matches(r.value, s.users[r.value], q)
    ensures r.None? && Wellformed(s) ==> forall k :: k in s.users ==> !Matches(k, s.users[k], q)
  {
    FindFrom(s.users, q, 0, s.nextId)
  }

  /** In a well-formed store a query that some row satisfies finds a row. */
  lemma FindOneComplete(s: State, q: Query, id: UserId)
    requires Wellformed(s) && id in s.users && Matches(id, s.users[id], q)
    ensures FindOne(s, q).Some?
  {
  }

  /** Emails are unique, so looking a user up by email finds exactly that user. */
  lemma FindByEmailExact(s: State, id: UserId)
    requires Wellformed(s) && id in s.users
    ensures FindOne(s, ByEmail(s.users[id].email)) == Some(id)
  {
  }

  /** A primary-key query finds that row exactly when it holds the token unexpired. */
  lemma FindByTokenAndIdExact(s: State, token: string, now: int, id: UserId)
    requires Wellformed(s)
    ensures FindOne(s, ByFreshTokenAndId(token, now, id)).Some? <==>
              id in s.users && HoldsFreshToken(s.users[id], token, now)
    ensures FindOne(s, ByFreshTokenAndId(token, now, id)).Some? ==> FindOne(s, ByFreshTokenAndId(token, now, id)).value == id
  {
  }
}

# Credential and reset-token model of the basic-shop authentication controller

This project models the authentication controller of the basic-shop storefront
(`controllers/auth.js`). Its handlers read and write a table of user rows, each holding an
`email`, a `password` digest, a `resetToken` and a `resetTokenExpiration`, together with the
set of users that own a cart and the client's session (`isLoggedIn`, `user`, and the "error"
flash messages). The model assumes that the `connect-flash` middleware is installed and keeps
its messages in the session. `app.js` does not install it, and without it every `req.flash`
call throws. Every handler ends in one outcome: a redirect, a rendered page with a status
code, or an error passed to `next`.

The model has two layers.

- `AuthFlow` gives each handler as a pure function from the state before the request to the
  outcome and the state after it. `AuthProperties` proves what the handlers promise about these
  functions: the two login failures give the same response and leave the same state, signup never touches an existing
  account, and a reset token lives for one hour. A newer reset request overwrites the token,
  and the first successful use clears it. Every handler keeps the store well formed.
- `AuthController.Controller` is the object the handlers mutate. It holds the user map, the
  cart set, the auto-increment counter and the session. Each handler is a method that updates
  these fields in place. Its postcondition equates the returned outcome and the new fields with
  the matching `AuthFlow` function.

External inputs become parameters. `Date.now()` is the integer `now`, in milliseconds. The
token made from `crypto.randomBytes(32)` is passed in as `Option<string>`, where `None` means
the random source reported an error. `validationResult(req)` is the list of validation errors
that the route's checks produced. `bcrypt` is an ideal hash (`Bcrypt`): a digest compares true
against its own password and false against any other.

Modelling choices where the code decides:

- `postReset` with an unknown email. The first `.then` flashes "No account with that email
  found." and sends the redirect to `/reset`. The chain goes on into the second `.then`, which
  calls `res.redirect("/")` after that response has gone out. That second redirect throws, and
  the error reaches `next`. The model records this as `RedirectThenFault("/reset")`, not as a
  clean redirect.
- When no row matches the token, `getNewPassword` and `postNewPassword` dereference null, and
  the resulting error reaches `next` (`Fault`). Neither handler writes to the table.
  `getNewPassword` has already consumed the flash message at that point, so the model clears it.
- A token is accepted while `resetTokenExpiration > now` (strict). A token issued at `T` is
  therefore accepted at every `t < T + 3600000`, not only for `T < t`.
- `findOne` has no `ORDER BY`. The model returns the matching row with the smallest key.
  Emails are unique, so this choice matters only when two rows hold the same reset token.
- Signup takes the new key from the auto-increment counter. If that key is already taken,
  `User.create` fails. The chain's `catch` only logs, so no response is sent (`NoResponse`).
  A well-formed store never reaches this case.

## Model

| member | source | states |
|---|---|---|
| `Bcrypt.Hash` | controllers/auth.js:146-147 | `bcrypt.hash(password, 12)` yields a digest carrying the cost factor it was asked for |
| `Bcrypt.Compare` | controllers/auth.js:90-91 | `bcrypt.compare` holds exactly when hashing the candidate at the digest's cost factor gives that digest |
| `Bcrypt.CompareOwnHash` | controllers/auth.js:90-92 | a password compares true against the digest `hash` made from it |
| `Bcrypt.CompareOtherHash` | controllers/auth.js:90-111 | a different password never compares true against that digest (collisions idealised away) |
| `AuthModel.HoldsFreshToken` | controllers/auth.js:243-247 | a row matches the token clause exactly when it holds that token and an expiry strictly after `now` (`Op.gt`); a NULL token or NULL expiry never matches |
| `AuthModel.Matches` | controllers/auth.js:276-281 | a row with a NULL reset column never satisfies a token `where` clause, and the completion clause is satisfied only by the row with that key |
| `AuthModel.ExpiryIsPermanent` | controllers/auth.js:245-246 | a row that fails the fresh-token clause at `now` fails it at every later time |
| `AuthModel.CompletionQueryNarrowsLinkQuery` | controllers/auth.js:277-281 | the completion `where` is the reset-link `where` plus equality of the primary key |
| `AuthModel.EmailMatchIgnoresCredentials` | controllers/auth.js:76 | an email `where` does not depend on the password or reset columns, so a reset or password change keeps email lookups stable |
| `AuthModel.View` | controllers/auth.js:26 | every form the controller renders is a template under auth/ |
| `AuthModel.FindFrom` | controllers/auth.js:276-282 | the key found is in the searched range, its row satisfies the `where` clause and no smaller key's row does; None only when no row in range satisfies it |
| `AuthModel.FindOne` | controllers/auth.js:243-248 | `findOne` returns a row satisfying the `where` clause; in a well-formed store it returns null only when no row does |
| `AuthModel.FindOneComplete` | controllers/auth.js:76 | a query some row satisfies finds a row |
| `AuthModel.FindByEmailExact` | controllers/auth.js:143 | emails are unique, so looking up a row's email finds exactly that row |
| `AuthModel.FindByTokenAndIdExact` | controllers/auth.js:276-282 | the reset query finds a row exactly when row `userId` holds the token with expiry strictly after `now`, and the row it finds is that one |
| `AuthFlow.FlashMessage` | controllers/auth.js:20-25 | the shown message is present exactly when a flash message is pending, and is the first pending one |
| `AuthFlow.ConsumeFlash` | controllers/auth.js:20 | reading the flash empties it and changes nothing else |
| `AuthFlow.AddFlash` | controllers/auth.js:168-171 | a flash message is appended and nothing else changes |
| `AuthFlow.GetLogin` | controllers/auth.js:19-36 | renders the login form (view auth/login), status 200, with the first pending flash message (none if empty), and consumes the flash |
| `AuthFlow.GetSignup` | controllers/auth.js:38-56 | the same for the signup form |
| `AuthFlow.GetReset` | controllers/auth.js:189-201 | the same for the reset-request form |
| `AuthFlow.PostLogin` | controllers/auth.js:58-123 | never touches the table; validation errors give 422 with the first message; otherwise either a 422 "Invalid email or password." with state unchanged or a redirect home that logs in a row with that email whose digest matches |
| `AuthFlow.PostSignup` | controllers/auth.js:125-180 | existing rows are never altered; validation errors give 422 with the first message; a duplicate redirects to /signup with only a flash added; success adds one row with the digest under a fresh key, plus its cart |
| `AuthFlow.PostLogout` | controllers/auth.js:182-187 | redirects home with an anonymous session and the table untouched |
| `AuthFlow.PostReset` | controllers/auth.js:203-239 | only the reset fields of one row can change; a random-source error redirects to /reset with no change; an unknown email flashes and ends in RedirectThenFault; success sets that row's token and expiry `now + 3600000` |
| `AuthFlow.GetNewPassword` | controllers/auth.js:241-269 | consumes the flash; renders the form for a row holding the token unexpired, and in a well-formed store faults exactly when no row does |
| `AuthFlow.PostNewPassword` | controllers/auth.js:271-301 | faults with no change, or redirects to /login after row `userId`, which held the token unexpired, gets the new digest and cleared reset fields |
| `AuthProperties.LoginFailureIndistinguishable` | controllers/auth.js:78-110 | an unknown email and a wrong password give the identical 422 response and leave state and session unchanged |
| `AuthProperties.LoginSucceedsIff` | controllers/auth.js:90-99 | a login succeeds exactly when the password matches the digest of the row with that email, and the session then holds that row |
| `AuthProperties.SignupExistingEmail` | controllers/auth.js:143-173 | signing up with an email in use creates and changes no row, flashes the duplicate message and redirects to /signup |
| `AuthProperties.SignupFreshEmail` | controllers/auth.js:145-158 | signing up with an unused email adds exactly one row under an unused key, holding `hash(password, 12)` that verifies against the password, adds its cart and redirects to /login |
| `AuthProperties.SignupPreservesWellformed` | controllers/auth.js:143-158 | keys stay below the counter, emails stay unique and every cart keeps an owner |
| `AuthProperties.SignupThenLogin` | controllers/auth.js:76-99 | after a successful signup the same email and password log in as the new row |
| `AuthProperties.ResetKnownEmail` | controllers/auth.js:210-219 | a request for a known email overwrites that row's token and sets expiry `now + 3600000`; no other row and no other field changes |
| `AuthProperties.ResetUnknownEmail` | controllers/auth.js:211-222 | a request for an unknown email modifies no row, flashes the no-account message and ends in RedirectThenFault("/reset") |
| `AuthProperties.ResetPreservesWellformed` | controllers/auth.js:217-219 | a reset request keeps the store well formed |
| `AuthProperties.NewPasswordSucceedsIff` | controllers/auth.js:276-294 | completion succeeds exactly when id, token and strictly-later expiry all match; it then stores the new digest and clears both fields; otherwise it faults and writes nothing |
| `AuthProperties.NewPasswordPreservesWellformed` | controllers/auth.js:288-291 | completing a reset keeps the store well formed |
| `AuthProperties.ReplayFails` | controllers/auth.js:289-290 | after a successful completion the same id and token are refused at any later time |
| `AuthProperties.ResetWindow` | controllers/auth.js:218 | a token issued at T is accepted at time t exactly when t < T + 3600000 |
| `AuthProperties.NewerResetInvalidatesOlder` | controllers/auth.js:217-218 | after a second reset request with a different token, the first token is refused |
| `AuthProperties.ResetFormAccepted` | controllers/auth.js:256-262 | the reset form names the user holding the token; posting the token back for that user at time `at` succeeds exactly while that user's expiry is after `at` |
| `AuthProperties.ResetThenLogin` | controllers/auth.js:288-291 | after a completed reset the new password logs in and the old one is rejected |
| `AuthProperties.DuplicateEmailShownOnce` | controllers/auth.js:168-172 | the duplicate-email message shows on the next signup form and not on the one after |
| `AuthProperties.NoAccountShownOnce` | controllers/auth.js:214-215 | the no-account message shows on the next reset form and not on the one after |
| `AuthProperties.LoginThenLogout` | controllers/auth.js:182-187 | after a login and a logout the session is anonymous and the table is unchanged |
| `AuthController.Controller.constructor` | app.js:70-75 | a fresh store is empty, well formed and has nobody logged in |
| `AuthController.Controller.GetLogin` | controllers/auth.js:19-36 | the outcome and new fields are those of `AuthFlow.GetLogin` |
| `AuthController.Controller.GetSignup` | controllers/auth.js:38-56 | the outcome and new fields are those of `AuthFlow.GetSignup` |
| `AuthController.Controller.GetReset` | controllers/auth.js:189-201 | the outcome and new fields are those of `AuthFlow.GetReset` |
| `AuthController.Controller.PostLogin` | controllers/auth.js:58-123 | sets `session.isLoggedIn` and `session.user` in place; the outcome and new fields are those of `AuthFlow.PostLogin` |
| `AuthController.Controller.PostSignup` | controllers/auth.js:125-180 | creates the row and its cart in place; the outcome and new fields are those of `AuthFlow.PostSignup`; the store stays well formed |
| `AuthController.Controller.PostLogout` | controllers/auth.js:182-187 | destroys the session; the outcome and new fields are those of `AuthFlow.PostLogout` |
| `AuthController.Controller.PostReset` | controllers/auth.js:203-239 | assigns the row's reset fields in place; the outcome and new fields are those of `AuthFlow.PostReset`; the store stays well formed |
| `AuthController.Controller.GetNewPassword` | controllers/auth.js:241-269 | the outcome and new fields are those of `AuthFlow.GetNewPassword` |
| `AuthController.Controller.PostNewPassword` | controllers/auth.js:271-301 | assigns password and reset fields in place; the outcome and new fields are those of `AuthFlow.PostNewPassword`; the store stays well formed |
| `AuthController.SignupLoginScenario` | controllers/auth.js:76-158 | on a fresh store, signup redirects to /login, two wrong-password logins give the identical 422 response, and the right password redirects home |

## Left out

- Email sending (`nodemailer`/SendGrid, controllers/auth.js:11-17, 159-164, 223-231) is fire-and-forget and never affects stored state.
- Database and session-store failures, and a rejected `bcrypt.hash`, are not modelled. In the code these reach `next`, or for signup they are swallowed by a `catch` that only logs. The only fault the model produces is the null dereference on the reset pages (and the second redirect of `postReset`).
- A rejected `bcrypt.compare` in `postLogin` (controllers/auth.js:112-115, which redirects to `/login`) is not modelled, because `Compare` is total.
- Bcrypt salting, cost and one-wayness are not modelled. The digest keeps its preimage so that the proofs can compare passwords. `CompareOtherHash` idealises away hash collisions.
- Render details beyond the status, the form, its error message and the data the form carries are not modelled: `path`, `pageTitle` and the echoed `oldInput` (including `confirmPassword`) are left out.
- The validation rules live in the route files, which are not part of this model. Their result is an input list.
- `userId` arrives from the form as a string and the database coerces it. It is modelled as a natural number; a missing `userId` or token (an `undefined` in the `where` clause) is not modelled.
- Promise and callback ordering, `req.session.save` and `destroy` callbacks, `console.log`, session expiry in the store, and CSRF are not modelled.
- The per-request middleware that re-reads the session's user by primary key (app.js:40-52), the Express and session setup, and the ORM associations (app.js:27-38, 60-68) are framework configuration.
- Concurrent requests are not modelled; each handler runs atomically. In particular, two simultaneous signups with one email could both pass the duplicate check in the real system.
- AuthProperties.LoginFailureIndistinguishable: compares status, form, message and the resulting state only. Response timing is not modelled, and it still tells the two failures apart: an unknown email returns without calling `bcrypt.compare` (controllers/auth.js:78-88), while a known email first runs a cost-12 compare (controllers/auth.js:90-92). The echoed `oldInput` is not compared either.
- Bcrypt.CompareOtherHash: the real bcryptjs uses only the first 72 UTF-8 bytes of a password, so two passwords that share a 72-byte prefix compare true against each other's digest. Such pairs are easy to construct. The model ignores this truncation, so `AuthProperties.ResetThenLogin`'s "the old password is rejected" does not hold in the program when the old and new passwords share their first 72 bytes.
- Database comparisons are modelled as exact values: `email` and `resetToken` match by exact, case-sensitive string equality, and the expiry is an integer millisecond timestamp. The database dialect, its collation and the column types are not part of this model. Under a case-insensitive collation, `A@B.com` would find the row stored as `a@b.com`. The duplicate check in signup would then reject emails that the model accepts as fresh, email uniqueness would hold only up to case, and a reset request (which uses the email as received) would find rows that the model does not find.

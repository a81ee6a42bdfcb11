# TinyApp link shortener — Dafny model

TinyApp maps long web addresses to six-character short ids. Each short link
belongs to the account that created it, and it records who followed it. This
project models the logic core of the application:

- **Alphabet and messages** (`constants.dfy`, module `Constants`). This is the
  62-entry `ALPHANUMERIC_CHARS` array. Its first ten entries are JavaScript
  numbers, and they become digits when stringified. The module also holds the
  `ERROR_MSG` builders.
- **Email shape** (`email_shape.dfy`, module `EmailShape`). This covers
  `EMAIL_VALIDATION_REGEX`. Ghost predicates give the meaning of the pattern,
  including the fact that `test` is unanchored and matches any substring.
  `IsEmail` is a hand-coded recogniser, and a lemma proves that it accepts
  exactly the same strings as the pattern.
- **User** (`user.dfy`, module `Users`). The `User` entity has a constant id,
  email and password. It writes `user_id` into a `Session` object.
- **TinyURL** (`tiny_url.dfy`, module `TinyUrls`). A short link with visit
  analytics: total visits, unique visits, the visitor list and a visit log
  whose most recent entry comes first. Its `Valid()` invariant ties the
  counters to the lists. It also says that the visitor list holds no
  duplicates and names exactly the visitors in the log.
- **Helpers** (`helpers.dfy`, module `Helpers`):
  - the id generator, with collision retry;
  - `getUserByEmail`, which checks the email shape and then scans for the
    first match;
  - `urlsForUser`, which filters links by owner;
  - the authorization decisions `checkPermissions`, `enterWithValidCookie`,
    `exitWithNoValidCookie` and `checkAuthorization`.
- **Older helpers** (`legacy_helpers.dfy`, module `LegacyHelpers`). These are
  the first versions of the same helpers in `helpers.js`, which work over plain
  records and have no shape or existence checks.
- **JavaScript objects as dictionaries** (`js_object.dfy`, module
  `JsObjects`). An object is a map of its own keys. Reading a key the object
  does not own falls back to the properties of `Object.prototype`, which are
  all truthy. Assigning a string to `__proto__` goes through an inherited
  setter and stores nothing.
- **Early server** (`server.dfy`, module `Server`). This is the `users` and
  `urlDatabase` dictionaries of `express_server.js`. Each handler's effect on
  them is a method of class `App`, and its answer is a `Reply` value.

Environment inputs become parameters or oracles:
- `Math.random` is the oracle method `Helpers.RandomIndex`, which returns some
  index below its bound.
- The `Date` time stamp of a visit is a parameter.
- The `uuidv4` id of a user is a constructor parameter.
- The result of `bcrypt.compare` is a parameter of `CheckAuthorization`.

The model follows the code, including where it may surprise:
- `logVisit` accepts any visitor id, including an empty one.
- The early server stores and compares plain-text passwords.
- A new account's id is checked for collisions only against `urlDatabase`
  keys, never against `users`. So `Register` states that the new entry is
  written with `users[id := ...]`, which replaces any account that already has
  that id. It does not state that the number of accounts grows by one.
- A key read from a dictionary can reach `Object.prototype`. So
  `urlsForUser` accepts the user id `"toString"`, `GET /u/constructor`
  redirects, and `POST /urls/__proto__` stores nothing.
- The email check is case-sensitive because the pattern has no `i` flag. So
  `"User@Example.com"` is refused (`EmailShape.RejectsUpperCaseDomain`).

The older `constants.js` holds the same array as
`public/scripts/constants.js`, and one definition,
`Constants.ALPHANUMERIC_CHARS`, serves both files. They export it differently.
`constants.js` exports the bare array, and `express_server.js` uses it
directly. `public/scripts/constants.js` exports an object with the array as
one of its properties.

The later helper and the server's copy of `generateRandomString` use one
algorithm, `Helpers.GenerateRandomString`, each with its own database. The
older copy in `helpers.js` destructures `ALPHANUMERIC_CHARS` from the bare
array, which gives `undefined`. So that copy throws on every call (see
Findings). `LegacyHelpers.GenerateFreshString` is the same algorithm with the
alphabet it was meant to import.

## Model

| member | source | states |
|---|---|---|
| `Constants.Split` | public/scripts/constants.js:2-3 | `split('')` gives one single-letter entry per character, in order |
| `Constants.AlphabetLayout` | public/scripts/constants.js:1-5 | the array has 62 entries: the numbers 0-9, then A-Z, then a-z, each block ascending |
| `Constants.EntryText` | public/scripts/constants.js:1-5 | every entry stringifies to exactly one character, the one at its index in the 62-character alphabet |
| `Constants.AlphabetDistinct` | constants.js:1-7 | the entries, and the characters they stringify to, are pairwise distinct |
| `Constants.AccountExists` | public/scripts/constants.js:11 | the email appears verbatim at offset 26, and the message is 41 characters longer than the email |
| `Constants.NoAccount` | public/scripts/constants.js:14 | the email appears verbatim from offset 32 to the end, so the message is 32 characters longer than the email |
| `Constants.NotOwned` | public/scripts/constants.js:16 | the link id appears verbatim at offset 12, and the message is 46 characters longer than the id |
| `Constants.MessagesDetermineArgument` | public/scripts/constants.js:10-18 | `accountExists`, `noAccount` and `notOwned` each embed their argument: different arguments give different messages |
| `EmailShape.IsEmail` | public/scripts/constants.js:6 | the shape check used for `EMAIL_VALIDATION_REGEX.test`; an accepted string holds an '@' with a character before it and at least three after it |
| `EmailShape.LabelEnd` | public/scripts/constants.js:6 | the first position at or after p that does not hold a label character `[a-z0-9-]` |
| `EmailShape.IsEmailIffRegexTest` | public/scripts/constants.js:6 | the recogniser accepts a string iff some substring matches the whole pattern: a non-empty dotted local part, '@', one or more `label.`, a final label, with labels starting and ending in `[a-z0-9]` |
| `EmailShape.RejectsMalformed` | test/getUserByEmail.test.js:34-46 | '@gmail.com', 'namegmail.com', 'name@.com', 'name@gmailcom' and 'name@gmail.' are refused |
| `EmailShape.AcceptsTestAddress` | test/getUserByEmail.test.js:56-68 | 'user@example.com' is accepted |
| `EmailShape.RejectsUpperCaseDomain` | public/scripts/constants.js:6 | without the `i` flag an upper-case domain is refused |
| `Users.User.constructor` | public/scripts/entities/user.js:5-19 | the id, email and password are stored exactly as given and read back by the getters |
| `Users.User.GiveCookie` | public/scripts/entities/user.js:21-23 | sets the session's `user_id` to the user's id and returns that id; touches no other field |
| `Users.User.DeleteCookie` | public/scripts/entities/user.js:25-27 | sets the session's `user_id` to null, so the session has no user; touches no other field |
| `Users.GiveTwiceThenDelete` | public/scripts/entities/user.js:21-27 | giving the cookie twice returns the same id both times; deleting it afterwards leaves no `user_id` |
| `TinyUrls.TinyURL.constructor` | public/scripts/entities/tiny_url.js:2-10 | a new link stores id, address and owner, has zero visits and empty visitor and log lists, and is valid |
| `TinyUrls.TinyURL.UpdateLongURL` | public/scripts/entities/tiny_url.js:31-33 | sets the address, changes nothing else and keeps the invariant |
| `TinyUrls.TinyURL.IsOwnedBy` | public/scripts/entities/tiny_url.js:35-37 | holds exactly for the owner id the link was created with |
| `TinyUrls.TinyURL.IsNewVisitor` | public/scripts/entities/tiny_url.js:39-41 | in a valid link, a visitor is new exactly when no log entry names it |
| `TinyUrls.TinyURL.LogVisit` | public/scripts/entities/tiny_url.js:43-51 | keeps the invariant; adds one to total visits; a new visitor is appended and counted once, a known one changes neither; the visit becomes log entry 0 with the old log as tail; id, owner and address unchanged |
| `TinyUrls.UniqueAtMostTotal` | public/scripts/entities/tiny_url.js:43-51 | a duplicate-free visitor list naming exactly the log's visitors is no longer than the log |
| `TinyUrls.ValidCounters` | public/scripts/entities/tiny_url.js:2-10 | in a valid link, unique visits never exceed total visits |
| `TinyUrls.NewVisitorIffNotLogged` | public/scripts/entities/tiny_url.js:39-41 | `isNewVisitor(v)` holds iff no log entry names v |
| `TinyUrls.RepeatVisit` | test/logVisit.test.js:41-65 | two visits by one visitor give two visits, one unique visitor, and a log with the second visit first |
| `Helpers.ErrorText` | public/scripts/helpers.js:102-158 | the texts of the two thrown errors differ, and an unknown user's id appears in its message verbatim |
| `Helpers.CheckPermissions` | public/scripts/helpers.js:38-42 | refuses with the `notOwned` message for the link iff the link's owner is not the user, which is the negation of `isOwnedBy` |
| `Helpers.EnterWithValidCookie` | public/scripts/helpers.js:50-52 | redirects to /urls iff the cookie's `user_id` is truthy |
| `Helpers.ExitWithNoValidCookie` | public/scripts/helpers.js:60-62 | refuses with the not-logged-in message iff the cookie's `user_id` is falsy |
| `Helpers.CookieGatesComplementary` | public/scripts/helpers.js:50-62 | for every session exactly one of the two cookie gates interrupts the request |
| `Helpers.CheckAuthorization` | public/scripts/helpers.js:18-30 | a matching password sets the cookie and redirects; a wrong one gives 401 with the bad-password message; a hashing failure gives 500; neither failure touches the cookie |
| `Helpers.RandomIndex` | public/scripts/helpers.js:83 | the random index is below the alphabet size |
| `Helpers.DrawString` | public/scripts/helpers.js:80-85 | the drawn string has exactly `stringLength` characters (none for a negative length), each from the alphabet |
| `Helpers.GenerateRandomString` | public/scripts/helpers.js:74-88 | a returned id has `stringLength` alphabet characters and is not a key of the database, which is only read |
| `Helpers.OnlyFreeSingleCharacter` | public/scripts/helpers.js:86-87 | when every one-character key except c is taken, a fresh one-character id is c |
| `Helpers.GenerateWithOnlyZFree` | test/generateRandomString.test.js:48-64 | with every alphabet entry except 'Z' as a key, a length-1 id can only be "Z" |
| `Helpers.GetUserByEmail` | public/scripts/helpers.js:98-107 | fails with "not a valid email address" iff the shape check fails, before any search; otherwise returns the first user whose email is exactly equal, or nothing when none is |
| `Helpers.UrlsForUser` | public/scripts/helpers.js:154-167 | fails with "User '<id>' does not exist" iff `userDatabase[id]` is falsy, that is the id is neither a user key nor an `Object.prototype` property; otherwise returns exactly the links the user owns, same keys, same objects |
| `LegacyHelpers.DestructureAlphabet` | helpers.js:1 | destructuring `ALPHANUMERIC_CHARS` finds the array exactly when the constants file exports an object holding it, and gives `undefined` for a bare array |
| `LegacyHelpers.LengthOf` | helpers.js:4 | reading `.length` throws a TypeError exactly when the value is `undefined`, and otherwise gives the array's length |
| `LegacyHelpers.ImportedAlphabet` | helpers.js:1 | against constants.js:7 the destructured alphabet is `undefined`; against the later constants file it is the 62-entry alphabet |
| `LegacyHelpers.GenerateRandomString` | helpers.js:1-12 | as written: every call throws a TypeError when reading the length of the `undefined` alphabet, before any character is drawn |
| `LegacyHelpers.GenerateFreshString` | helpers.js:3-12 | with the intended alphabet: a returned id has `stringLength` alphabet characters and is not a key of `urlDatabase` |
| `LegacyHelpers.GetUserByEmail` | helpers.js:14-19 | the first user whose email is exactly equal, or null when none is; there is no shape check |
| `LegacyHelpers.UrlsForUser` | helpers.js:26-34 | exactly the entries whose `userID` matches, same keys and values; an unknown id owns nothing |
| `LegacyHelpers.NoLinksNoResult` | helpers.js:26-34 | a user who owns no link gets an empty result |
| `Server.App.constructor` | express_server.js:14-30 | the server starts with its two seed links and two seed accounts, and is valid |
| `Server.App.GenerateRandomString` | express_server.js:200-209 | a returned id has `stringLength` alphabet characters and is not a key of `urlDatabase` |
| `Server.App.GetUser` | express_server.js:211-216 | returns a stored user with exactly that email, or null iff none has it |
| `Server.EmailIdentifiesUser` | express_server.js:95-106 | in a valid server an email names at most one account, so `getUser`'s first match is the only match |
| `Server.App.Register` | express_server.js:86-110 | blank fields give 400 and no change; a known email gives 400 with another password or logs in as that account with the same one, adding nobody; a new email is stored as `{id, email, password}` under an id fresh in `urlDatabase`, and the cookie is set to it; emails stay unique |
| `Server.App.Login` | express_server.js:57-65 | sets the cookie to the account's id iff an account has that email and that password; otherwise 403; no state change |
| `Server.App.CreateUrl` | express_server.js:125-137 | without a truthy cookie nothing changes; otherwise the address is stored under exactly one new six-character key |
| `Server.App.DeleteUrl` | express_server.js:143-147 | removes only that key, with no ownership check |
| `Server.App.UpdateUrl` | express_server.js:153-158 | sets only that key to the new address, with no ownership check; for `__proto__` nothing is stored |
| `Server.App.Resolve` | express_server.js:186-193 | redirects to the stored address iff the key holds a non-empty one; redirects to the inherited property iff the key is not stored but names an `Object.prototype` property; otherwise replies "LINK NOT FOUND" |
| `JsObjects.Assign` | express_server.js:156 | assigning a string sets that key alone, except `__proto__`, which leaves the object unchanged |
| `Server.CreateResolveDelete` | express_server.js:125-193 | a link just created resolves to its address, and after deletion it no longer resolves |

## Left out

- Helpers.GenerateRandomString: the source retries without bound. The model
  makes at most `maxAttempts` draws and returns None when all of them collide.
  So what it proves holds only when an id is returned. `LegacyHelpers.GenerateFreshString`
  and `Server.App.GenerateRandomString` inherit this bound.
- Server.App.Register: when the id generator runs out of attempts it replies
  `GaveUp` and changes nothing. The source instead recurses until it finds an
  id or the stack overflows.
- Server.App.CreateUrl: the same `GaveUp` reply applies when the id generator
  runs out of attempts.
- Argument-count and `typeof` checks: Dafny's static types rule those inputs
  out. For the same reason `stringLength` is an integer and a fractional
  length is not modelled.
- `registerUser`: not modelled. It hashes with bcrypt, which is asynchronous
  and foreign, and it mutates a caller's dictionary.
- `bcrypt.compare`: not modelled. Its outcome is a parameter of
  `CheckAuthorization`.
- Response rendering: not modelled. This covers `renderUnauthorized`,
  `res.render`, status codes on the wire and cookie transport. Outcomes are
  the `Decision` and `Reply` values instead.
- Server routes that only render or redirect: not modelled. These are the GET
  routes `/`, `/login`, `/register`, `/urls`, `/urls/new` and `/urls/:id`.
- POST `/logout`: not modelled. It clears the `user_id` cookie and redirects
  to /login, and it changes neither dictionary.
- Server.App.Resolve: for an id that names an `Object.prototype` property, the
  reply records only which property is handed to `res.redirect`. The Location
  header that Express derives from a function or from `Object.prototype` is
  not modelled.
- Inherited properties are modelled only where a handler or helper in the
  model reads or assigns a key, which is `urlsForUser`, `GET /u/:id` and
  `POST /urls/:id`. `delete` of an inherited name removes nothing in both
  JavaScript and the model.
- Express setup and the server process: not modelled.
- Randomness, time stamps and uuids: oracles and parameters, as described above.
- Key enumeration order: not modelled. `urlsForUser` returns a map, so the
  insertion order of the returned object is lost. `Server.App.GetUser`
  scans the `users` keys in an unspecified order. Because `Valid()` keeps
  emails unique, it still finds the same user as JavaScript's first match.
- Configuration data: `SALT_ROUNDS`, `SESSION_COOKIE_KEYS` and `PORT` are not
  modelled.
- The JavaScript getters of `User` and `TinyURL`: these are the fields
  themselves. The `ERROR_MSG` builders `blankForm`, `accountExists` and
  `noAccount` are defined but are used by no modelled operation.

## Findings

| source | as written | input that shows it | evidently intended | confidence | as-written member | corrected member |
|---|---|---|---|---|---|---|
| helpers.js:1-4 | `const { ALPHANUMERIC_CHARS } = require('./constants')` reads a property of the bare array that constants.js:7 exports. That property is `undefined`, so `ALPHANUMERIC_CHARS.length` throws a TypeError | `generateRandomString({}, 6)`, or any arguments, including length 0 | draw from the 62-entry alphabet (import the array itself, as express_server.js does) and return an id that is not a key of `urlDatabase` | high, by reading the code; not executed | `LegacyHelpers.GenerateRandomString` (with `LegacyHelpers.ImportedAlphabet`) | `LegacyHelpers.GenerateFreshString` |

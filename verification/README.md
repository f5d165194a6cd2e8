# Hydration tracker identity core, modelled in Dafny

This project models the client-side identity core of a hydration-tracking
web application. The core has three identity modes: anonymous, guest and
authenticated. The model also covers the helpers the core relies on.

- **`Auth`** (`auth.dfy`) is the session composable. One immutable `Session` record holds the
  in-memory `user`, `token` and `isGuest` together with the local store (`map<string, string>`).
  Each operation is a pure transition: `InitAuth`, `Login`, `Register`, `ContinueAsGuest`,
  `Logout`/`ClearAuth`, `CollectGuestData`, `ClearGuestData`, `UpgradeGuestToUser`,
  `GetAuthHeaders` and `CheckDailyReset`.
  - Every `fetch` is an input: a `Reply` for login/register and a `MigrationReply` for the
    migration call.
  - Every request an operation sends is returned in order in a `Transition`. This lets the
    model state which calls an operation makes, and which it never makes.
  - The clock is a parameter: `today` for the calendar date, `now` for `exportedAt`.
- **`AuthProperties`** (`auth_properties.dfy`) holds the lemmas that relate operations:
  - what a successful login/register leaves behind;
  - failures change nothing;
  - entering guest mode, clearing guest data and the daily reset are each idempotent;
  - persisted state survives a reload through `InitAuth`;
  - the guest-upgrade scenario with migration.
- **`WebStorage`** (`web_storage.dfy`) is the browser's local storage as a map.
  - JavaScript truthiness of `getItem` results: absent and `""` are both falsy.
  - JSON is a per-type `Codec` (an encoder and a partial decoder). The ghost predicate `Lawful`
    states the round trip `JSON.stringify`/`JSON.parse` gives; only the lemmas that need it
    require it.
- **`Storage`** (`storage.dfy`) is the typed storage wrapper: `set`, `get`, `getOrDefault`,
  `has`, `remove`, `clear` and `keys`.
- **`Calculations`** (`calculations.dfy`) is the hydration arithmetic over integers:
  - daily goal, percentage, remaining amount, rounding to 50, average;
  - `Math.round(n / d)` is modelled exactly as floor(n/d + 1/2).
- **`Router`** (`router.dfy`) is the route table and the `beforeEach` guard. Redirects are
  followed step by step, so the model can state that navigation always settles.
- **`Api`** (`api.dfy`) is `API_BASE` and `apiUrl`.
- **`Types`** and **`Basics`** hold the shared record shapes and `Option`.

## Model

| member | source | states |
|---|---|---|
| WebStorage.GetItem | src/composables/useAuth.ts:33 | `getItem` returns an item exactly when the key is present, and then its stored text |
| WebStorage.Truthy | src/composables/useAuth.ts:41 | An item is truthy exactly when it is present and not the empty string |
| WebStorage.SetItem | src/composables/useAuth.ts:108-109 | `setItem` adds the key with the given text and leaves every other key and value as it was |
| WebStorage.RemoveItems | src/composables/useAuth.ts:266-268 | Removing a set of keys leaves exactly the other keys, with their values unchanged |
| WebStorage.Clear | src/utils/storage.ts:102-103 | After `clear` every key reads as absent |
| WebStorage.ReadJson | src/composables/useAuth.ts:276-283 | Reading a JSON key: a falsy item (absent or empty) is missing, text the decoder rejects is corrupt, otherwise the decoded value |
| WebStorage.ReadAfterWrite | src/composables/useAuth.ts:109 | Under a lawful codec, reading a key just written with a value's encoding gives that value back |
| Storage.Set | src/utils/storage.ts:23-30 | `set` stores the encoding under the key, adds only that key, and every other key reads as before |
| Storage.Get | src/utils/storage.ts:45-57 | `get` is null for an absent key, null for an empty item, and otherwise the decoder's result (null when the text is not valid JSON) |
| Storage.Has | src/utils/storage.ts:80-82 | `has` is true exactly when the key is present, so an empty item counts as present |
| Storage.GetOrDefault | src/utils/storage.ts:70-73 | `getOrDefault` is `get`'s value when that is non-null and the default otherwise |
| Storage.Remove | src/utils/storage.ts:93-96 | After `remove` the key is not present and no other key changed |
| Storage.Keys | src/utils/storage.ts:111-113 | `keys` lists exactly the keys `has` reports |
| Storage.GetAfterSet | src/utils/storage.ts:23-52 | Under a lawful codec, `get` after `set` returns the stored value and `has` is true |
| Storage.OtherKeysUntouched | src/utils/storage.ts:80-96 | `set` and `remove` of one key change neither `get` nor `has` for any other key |
| Storage.EmptyItemIsPresentButUnreadable | src/utils/storage.ts:47-82 | An empty item counts as present for `has` but reads as null for `get` |
| Storage.CorruptItemFallsBack | src/utils/storage.ts:50-73 | Undecodable text reads as null and `getOrDefault` then returns the default |
| Storage.GetOrDefaultAfterSet | src/utils/storage.ts:70-73 | After `set`, `getOrDefault` returns the stored value whatever the default |
| Storage.ClearForgetsEverything | src/utils/storage.ts:102-105 | After `clear` no key is present, `get` is null and `getOrDefault` falls back, for every key |
| Api.ApiBase | src/utils/api.ts:9 | The base is the configured URL when it is non-empty and `""` when it is unset or empty |
| Api.ApiUrl | src/utils/api.ts:16-18 | The URL starts with the base, ends with the path, and its length is their sum: no slash handling |
| Api.UnconfiguredBaseIsIdentity | src/utils/api.ts:9-18 | With no configured base, `apiUrl` returns the path unchanged |
| Api.PathIsContained | src/utils/api.ts:17 | The path always occurs inside the URL, whatever the base |
| Api.BothSpellingsReachUsers | src/utils/__tests__/api.test.ts:17-24 | Both `/api/users` and `api/users` give a URL containing `api/users` |
| Calculations.RoundDiv | src/utils/calculations.ts:75 | `Math.round` of an exact quotient lies within one half of it (half rounds up), for either sign of divisor |
| Calculations.RoundDivUnique | src/utils/calculations.ts:106 | The rounded value is the unique integer within one half of the quotient |
| Calculations.DailyGoal | src/utils/calculations.ts:30-58 | The goal is 2500 when the weight is missing, not a number or not positive, and it is always positive |
| Calculations.ActivityBonus | src/utils/calculations.ts:42-51 | MEDIUM adds 250, HIGH adds 500, LOW or no activity adds nothing, so the bonus lies between 0 and 500 |
| Calculations.DailyGoalFormula | src/utils/calculations.ts:38-57 | For a positive weight the goal is 35 ml per kg, plus 250 for MEDIUM or 500 for HIGH, plus 500 for HOT |
| Calculations.DailyGoalMonotone | src/utils/calculations.ts:38 | For the same activity and climate, a heavier weight never gives a smaller goal |
| Calculations.HotClimateAddsFiveHundred | src/utils/calculations.ts:53-57 | HOT adds exactly 500 ml over NORMAL |
| Calculations.DailyGoalExamples | src/utils/calculations.ts:20-57 | 70/MEDIUM/NORMAL gives 2700, 80/MEDIUM/HOT gives 3550, 60/HIGH/NORMAL and 60/LOW/HOT give 2600, 60 with no activity or climate gives 2100, a missing weight gives 2500 |
| Calculations.Percentage | src/utils/calculations.ts:73-76 | 0 for a zero goal; never above 100; 100 once consumption reaches a positive goal; below 100 exactly when consumption is under 99.5% of a positive goal, and then the share rounded half up |
| Calculations.PercentageExamples | src/utils/calculations.ts:66-71 | (1500, 2500) gives 60, (2500, 2500) gives 100 and (3000, 2500) gives 100 |
| Calculations.Remaining | src/utils/calculations.ts:90-92 | Never negative; tops consumption up to the goal exactly; 0 once the goal is reached |
| Calculations.RemainingExamples | src/utils/calculations.ts:84-88 | (1500, 2500) gives 1000 and (3000, 2500) gives 0 |
| Calculations.RoundTo50 | src/utils/calculations.ts:105-107 | The result is a multiple of 50 within 25 of the input (ties go up) |
| Calculations.RoundTo50Fixes | src/utils/calculations.ts:99-103 | A multiple of 50 is returned unchanged |
| Calculations.RoundTo50Examples | src/utils/calculations.ts:99-103 | 2733 gives 2750, 2700 gives 2700, and the tie 25 gives 50 |
| Calculations.Average | src/utils/calculations.ts:119-123 | The average of an empty list is 0; otherwise it is the sum divided by the length, rounded half up (within one half of the exact mean) |
| Calculations.Sum | src/utils/calculations.ts:121 | The left fold of a one-element list is that element, and a list with no negative element sums to a non-negative total |
| Calculations.SumFromFront | src/utils/calculations.ts:121 | Adding from the front gives the same total as the left fold: the sum is the first element plus the sum of the rest |
| Calculations.AverageWithinRange | src/utils/calculations.ts:119-123 | The rounded mean of a non-empty list lies between any lower and upper bound of its elements |
| Calculations.AverageOfConstant | src/utils/calculations.ts:119-123 | A list of one repeated value averages to that value |
| Calculations.AverageExamples | src/utils/calculations.ts:114-117 | `[]` gives 0 and `[2500, 2700, 2300]` gives 2500 |
| Auth.IsAuthenticated | src/composables/useAuth.ts:12-16 | Authenticated exactly in guest mode or with a non-empty token and a user; with no token and no guest mode it is false |
| Auth.IsOk | src/composables/useAuth.ts:73 | `response.ok`: the status is in the 200 range, that is its hundreds digit is 2 |
| Auth.Or | src/composables/useAuth.ts:88-92 | JavaScript's or-operator on an optional string: a non-empty `a` wins, an absent or empty `a` gives `b` |
| Auth.ClearAuth | src/composables/useAuth.ts:262-269 | User, token and guest flag are reset; exactly `authToken`, `user` and `guestMode` leave the store; every other item keeps its value |
| Auth.Logout | src/composables/useAuth.ts:253-259 | After logout user and token are null, the guest flag is off and the session is not authenticated. Exactly the three auth keys leave the store, and no other key changed |
| Auth.ClearGuestData | src/composables/useAuth.ts:317-326 | Exactly the guest flag and the three guest data keys leave the store; in-memory state is unchanged |
| Auth.SeedIfAbsent | src/composables/useAuth.ts:227-246 | A default is written only when the key holds no truthy item |
| Auth.ContinueAsGuest | src/composables/useAuth.ts:219-250 | Ends any login, sets guest mode and `guestMode="true"`, and is authenticated. Seeds profile {70, MEDIUM, NORMAL} and hydration {0, 2500, 2500, today} only where absent. Leaves other keys alone |
| Auth.InitAuth | src/composables/useAuth.ts:30-62 | Guest flag "true": guest mode and nothing else loaded. Otherwise a truthy token is loaded, a decodable user is loaded, and with no truthy user item the user is left as it was. An undecodable user removes `user` and `authToken` and leaves the token null |
| Auth.GetAuthHeaders | src/composables/useAuth.ts:342-349 | A bearer header with the token exactly when the token is non-empty, otherwise no header |
| Auth.CheckDailyReset | src/composables/useAuth.ts:352-368 | No-op outside guest mode or when no counter is stored. Fails exactly when the stored counter is not valid JSON. Only the counter key can change. A counter dated other than today becomes {0, goal, goal, today} |
| Auth.CollectGuestData | src/composables/useAuth.ts:272-290 | Null outside guest mode or when any guest key does not decode. Otherwise each part is present exactly when its key was readable and is then the decoded value, history defaults to empty, and it is stamped with `now` |
| Auth.WorthMigrating | src/composables/useAuth.ts:114 | A snapshot is worth migrating only when it exists and has hydration data or history; hydration data alone is enough, and so is non-empty history alone |
| Auth.MigrationRequest | src/composables/useAuth.ts:293-302 | The migration call goes to the base URL plus `/api/migrate-guest-data` and sends the whole snapshot with a bearer header for the new token |
| Auth.MigrationSucceeded | src/composables/useAuth.ts:304-313 | A transport failure is never a success; a reply is a success exactly when its status is 2xx |
| Auth.SignIn | src/composables/useAuth.ts:103-110 | A 2xx reply sets user and token, clears the guest flag, stores `authToken` and `user` and drops `guestMode` |
| Auth.FinishSignIn | src/composables/useAuth.ts:194-205 | A worthwhile snapshot is sent once for migration, and guest data is cleared unless that attempt failed. With no such snapshot nothing is sent and guest data is cleared |
| Auth.LoginRequest | src/composables/useAuth.ts:67-71 | The login call goes to the base URL plus `/api/auth/login` without authorization and carries exactly the given email and password |
| Auth.RegisterRequest | src/composables/useAuth.ts:141-153 | The registration call goes to the base URL plus `/api/auth/register` without authorization, carrying the given name, email and password with climate NORMAL, weight 70 and activity MEDIUM |
| Auth.FailureMessage | src/composables/useAuth.ts:73-92 | 500 gives the fixed server text. The endpoint's reject status gives the body `error` or the endpoint's fallback. Any other status gives a non-empty `error`, else a non-empty `message`, else `HTTP <status>` |
| Auth.NatToDecimal | src/composables/useAuth.ts:92 | A status prints as a non-empty string of decimal digits that denotes the status, with no leading zero |
| Auth.ReplyError | src/composables/useAuth.ts:73-130 | A transport failure reports its own message; any non-2xx status the message `FailureMessage` gives (server text for 500, the body `error` or the fallback for the reject status, otherwise `error`, `message` or `HTTP <status>`); a 2xx body that does not decode its parse error |
| Auth.SignsIn | src/composables/useAuth.ts:73-100 | A reply signs in exactly when it arrived with a 2xx status and a decodable body; a transport failure, a non-2xx status or an undecodable body never does |
| Auth.Login | src/composables/useAuth.ts:65-132 | Sends the login request first. Succeeds exactly on a 2xx reply with a decodable body. Any other reply returns its error and leaves the session untouched |
| Auth.Register | src/composables/useAuth.ts:135-216 | Sends the register request first. Succeeds exactly on a 2xx decodable reply. Reports `migrated` as whether a snapshot existed before the request. Failures leave the session untouched |
| Auth.UpgradeGuestToUser | src/composables/useAuth.ts:329-338 | Outside guest mode: "Nicht im Gast-Modus" with no request and no change. In guest mode: exactly `register` |
| Auth.LoginSnapshotFirst | src/composables/useAuth.ts:112-121 | Corrected login: same request, success condition and failure behaviour as `login`, with the guest snapshot taken before signing in |
| AuthProperties.LoginSuccess | src/composables/useAuth.ts:100-124 | A successful login sets state from the reply and sends only the login request. The store gets `authToken` and `user`, and all four guest keys are removed |
| AuthProperties.LoginIgnoresMigration | src/composables/useAuth.ts:112-121 | Login's outcome never depends on the migration reply |
| AuthProperties.LoginAuthenticates | src/composables/useAuth.ts:12-16 | After a successful login the session is not a guest one and is authenticated exactly when the returned token is non-empty |
| AuthProperties.RegisterSuccess | src/composables/useAuth.ts:182-208 | Register sets state like login and migrates iff the earlier snapshot has hydration or history. Guest data survives only if that migration failed. `migrated` is whether a snapshot existed |
| AuthProperties.RegisterWithoutGuest | src/composables/useAuth.ts:195-208 | Outside guest mode register sends one request and reports `migrated` false |
| AuthProperties.FailureChangesNothing | src/composables/useAuth.ts:73-92 | A transport error, non-2xx status or undecodable body leaves login, register and upgrade with the session unchanged and a failure result |
| AuthProperties.FailureMessages | src/composables/useAuth.ts:78-92 | Login 401 with the invalid-credentials error returns that text; 500 gives the server text for both; register 400 falls back; other statuses use `message` or `HTTP 404` |
| AuthProperties.NotFoundDigits | src/composables/useAuth.ts:92 | Status 404 prints as "404" |
| AuthProperties.ContinueAsGuestIdempotent | src/composables/useAuth.ts:219-246 | Entering guest mode twice gives the same session as entering it once: stored guest data is never reseeded |
| AuthProperties.GuestThenLogout | src/composables/useAuth.ts:253-269 | Guest mode is authenticated; logout ends it and removes the guest flag but keeps profile, hydration and history |
| AuthProperties.ClearGuestDataIdempotent | src/composables/useAuth.ts:317-326 | Clearing guest data twice equals clearing once, and no guest key remains |
| AuthProperties.UpgradeRequiresGuest | src/composables/useAuth.ts:329-332 | Outside guest mode the upgrade fails with "Nicht im Gast-Modus", sends nothing and changes nothing |
| AuthProperties.DailyResetIdempotent | src/composables/useAuth.ts:352-368 | A second reset with the same date changes nothing |
| AuthProperties.DailyResetRestartsDay | src/composables/useAuth.ts:360-365 | A stale counter reads back as {0, goal, goal, today}; when the goal is not negative its remaining amount again equals `calculateRemaining` |
| AuthProperties.DailyResetExample | src/composables/useAuth.ts:352-368 | Yesterday's 1800 of 2500 becomes 0 consumed with 2500 remaining today; on the same day nothing changes |
| AuthProperties.LoginSurvivesReload | src/composables/useAuth.ts:30-57 | Reloading after a login restores the same user, and the token when it is non-empty, outside guest mode |
| AuthProperties.GuestSurvivesReload | src/composables/useAuth.ts:33-37 | Reloading after entering guest mode gives guest mode with no user or token |
| AuthProperties.CorruptUserIsDropped | src/composables/useAuth.ts:47-56 | An undecodable stored user leaves an anonymous session whose store lacks `user` and `authToken` |
| AuthProperties.GuestRegistersAndMigrates | src/composables/useAuth.ts:329-338 | A guest with two intakes who upgrades against an accepting backend is registered with `migrated` true. The migration carries the intakes, and no guest key remains |
| AuthProperties.LoginDiscardsGuestData | src/composables/useAuth.ts:103-121 | As written, a guest with hydration data who logs in sends no migration request and loses hydration and history |
| AuthProperties.LoginSnapshotFirstKeepsGuestData | src/composables/useAuth.ts:137-138 | With the snapshot taken first, guest data is sent for migration. It is removed only after the backend accepts it |
| AuthProperties.SeededGuestDefaults | src/composables/useAuth.ts:237-245 | The seeded counter satisfies the remaining rule, but its 2500 goal differs from the 2700 the seeded profile yields |
| AuthProperties.HeadersFollowSession | src/composables/useAuth.ts:342-349 | After a login with a non-empty token the headers carry that bearer token; after logout they are empty |
| AuthProperties.FreshGuestSnapshot | src/composables/useAuth.ts:272-285 | A new guest's snapshot is exactly the seeded counter and profile, with empty history, stamped with `now` |
| AuthProperties.CollectAfterWrite | src/composables/useAuth.ts:272-290 | Under lawful codecs, a guest's snapshot holds exactly the counter, profile and history last written, stamped with `now` |
| AuthProperties.CollectAfterClear | src/composables/useAuth.ts:317-326 | After guest data is cleared (the in-memory guest flag stays), the snapshot exists but has no counter, no profile and empty history |
| Router.FoldCase | src/router/index.ts:10-12 | An ASCII upper-case letter becomes the matching lower-case letter; every other character is unchanged |
| Router.Canonical | src/router/index.ts:10-59 | The path compared with the static records is the path with ASCII letters folded to lower case and one trailing slash after the root removed |
| Router.Matches | src/router/index.ts:12-59 | The catch-all matches every path; a static record whose path is canonical matches that path with or without one trailing slash |
| Router.CanonicalFixesCanonical | src/router/index.ts:13-52 | A path with no upper-case letter and no trailing slash is its own canonical form, as every path of the table is |
| Router.MatchIn | src/router/index.ts:12-59 | The matched record is a record of the table that matches the path; no match means no record matches |
| Router.Match | src/router/index.ts:53-58 | Every path matches some record of the table, unknown paths falling to the catch-all |
| Router.TableIsWellShaped | src/router/index.ts:12-59 | In the table, `/` redirects to `/dashboard`, the catch-all to `/login`, and every page is protected except the guest-only `/login` |
| Router.MatchByCanonical | src/router/index.ts:12-59 | The record a path reaches is the table entry whose path equals the canonical form, and the catch-all when there is none |
| Router.MatchIgnoresCaseAndTrailingSlash | src/router/index.ts:47-58 | `/Settings` and `/settings/` reach the settings page and `/LOGIN/` the login page, while `/settings//` falls to the catch-all |
| Router.Guard | src/router/index.ts:63-78 | Protected route while unauthenticated goes to `/login`; guest-only route while authenticated goes to `/dashboard`; otherwise proceed |
| Router.NextStep | src/router/index.ts:63-78 | A navigation only arrives at a page the guard lets through |
| Router.Navigate | src/router/index.ts:63-78 | Any page reached by following redirects is one the guard allows |
| Router.RedirectTargetsAreStable | src/router/index.ts:17-34 | `/login` is guest-only and accepted when unauthenticated; `/dashboard` is protected and accepted when authenticated |
| Router.LoginMatches | src/router/index.ts:17-22 | `/login` is in canonical form and reaches the guest-only login page |
| Router.DashboardMatches | src/router/index.ts:29-34 | `/dashboard` is in canonical form and reaches the protected dashboard page |
| Router.TargetsSettle | src/router/index.ts:67-72 | From either guard target two steps reach `/dashboard` when authenticated and `/login` when not |
| Router.FirstStep | src/router/index.ts:12-78 | A first step arrives at the matched page (protected when authenticated, the login page when not), always arrives at a protected page when authenticated, and otherwise goes on to `/dashboard` or `/login` |
| Router.NoRedirectLoop | src/router/index.ts:63-78 | Every path reaches a page within three steps. That page is the matched protected page when authenticated, otherwise `/dashboard` (authenticated) or `/login` (not) |
| Router.StaticRedirects | src/router/index.ts:13-58 | `/` redirects to `/dashboard` whether or not the session is authenticated, and an unmatched path goes to `/login` |
| Router.GuestsPassTheGuard | src/router/index.ts:64-72 | A guest counts as authenticated: every protected page of the table is open and `/login` ends at `/dashboard` |
| Router.LoginLeadsToDashboard | src/router/index.ts:17-72 | An authenticated visit to `/login` ends on the dashboard within three steps |

## Left out

- Real `fetch`, `async`/`await` interleaving and racing double submissions. Every network call
  is a given outcome and operations are atomic.
- `fetchWithRetry` and `parseJsonSafely`. The API test file imports them, but `src/utils/api.ts`
  does not define them, so there is no code to model.
- The JSON grammar. Encoding and decoding are abstract codecs, and the round trip is an
  assumption (`Lawful`) that a lemma requires when it needs it.
- Auth.CollectGuestData: the decoder is typed. Text that parses as JSON but has another shape
  (`null`, a number, a `history` value that has no `length`) is treated as corrupt or well-typed,
  not as the JavaScript value it would be.
- Auth.InitAuth: does not model the outer `catch` that calls `clearAuth`. In the model nothing
  inside that `try` can throw, because the user parse has its own `catch`.
- Auth.InitAuth: in the code, a stored value that parses as JSON but is not a user object
  (`null`, a number, a string, `{}`) becomes the user as it is, and both keys stay. With a truthy
  token, such a value even makes the session authenticated. The typed decoder instead returns a
  user or rejects the text, and a rejection removes `user` and `authToken`.
- Auth.CheckDailyReset: the reset re-encodes the four-field counter record. Extra fields of the
  stored object, which `JSON.stringify(data)` would keep, are dropped, and text that parses to
  something other than a counter is treated as undecodable.
- Auth.Login: a 2xx body is either undecodable or carries `token` and `user`. Other bodies are
  not modelled: missing fields would store `"undefined"`, and a `null` error body would throw
  on field access.
- Auth.Register: same 2xx body assumption as `Auth.Login`.
- Auth.Register: with a stored history of `null` and no hydration counter, the code reads
  `guestData.history.length` after it has already signed in and written the store, so it throws
  and reports failure while the user stays signed in. The typed decoder reads that text as a
  history or as corrupt; when corrupt, the snapshot is null and register succeeds, clearing guest
  data without migrating.
- The fallback texts "Login fehlgeschlagen" / "Registrierung fehlgeschlagen". They are used only
  for thrown values that are not `Error` objects, and every modelled failure is an `Error`.
- Vue `ref`/`computed` reactivity and the module-level singleton: the session is a plain record.
- The clock and time zone. `new Date().toISOString()` becomes the `today`/`now` parameters.
- Storage.Set: does not model the quota exception that `setItem` may throw and the wrapper logs.
- Calculations.Percentage: `Math.round` of a floating-point quotient is modelled as exact
  rational rounding, so it need not agree bit for bit at ties (for example 29/200).
- Calculations.DailyGoal: weights are integers. `Number(...)` coercion is reduced to "a number
  or not" (`None`), and non-integer weights are not modelled.
- Router.Navigate: follows at most a given number of hops (fuel). `Router.NoRedirectLoop` shows
  three always suffice, so no path is cut short.
- Router.MatchIn: models the router's matching for this table only, where every static path
  precedes the catch-all. General path-ranking rules and route components are not modelled.
- Router.Canonical: percent-encoded characters, query strings and hashes are not modelled; a
  path is the plain decoded path. Case folding covers ASCII letters only. That matches this
  table, whose paths are ASCII, because a case-insensitive pattern without the Unicode flag
  never equates a non-ASCII character with an ASCII one.
- The hard-coded backend host in the composable's tests. The base URL is a parameter.
- `src/utils/formatting.ts` (wrappers over locale formatting and the clock), `src/utils/logger.ts`
  (console output only), `src/main.ts` (bootstrap), `src/constants/index.ts` (data only), the
  build and test configuration, and the component tests.

## Findings

| source | as written | input that shows it | evidently intended | confidence | as-written member | corrected member |
|---|---|---|---|---|---|---|
| src/composables/useAuth.ts:105-121 | `login` clears the guest flag before it calls `collectGuestData`. That call returns null outside guest mode, so migration is never tried and `clearGuestData` always runs | A guest whose store holds a hydration counter logs in with a 2xx reply. No migration request is sent, and the counter and history are removed | Migrate guest data on login, as the comment at :112 says. Register does this by taking the snapshot before changing state (:137-138) | medium, not executed | AuthProperties.LoginDiscardsGuestData | Auth.LoginSnapshotFirst |

# rsvp.io decision logic in Dafny

This project models the decision logic of the rsvp.io event site: a Next.js
application with credential sign-up and sign-in, a protected dashboard and a
public event catalog. Markup and styling are not modelled. What is modelled:

- **Registration route** (`RegisterRoute`, over the user store `Users`). The
  `POST /api/auth/register` handler validates the fields and refuses an email
  already registered. It then hashes the password, creates the user, and
  answers with the new id and email. Any exception becomes a generic 500.
  `Register` states the whole outcome as a function of the store before the
  request. `Post` is the handler, step by step, against a `UserTable` object,
  proved to produce exactly that outcome.
- **Password hashing** (`Password`). bcrypt is a pair of functions
  `hash(password, cost, salt)` and `verify(password, hash)`. The only
  property relied on is `Sound`: a password verifies against any hash made
  from it. The salt is an input, since bcrypt draws a fresh one per call.
- **Credential authorizer** (`Authorizer`). It looks the user up by email and
  verifies the password. It returns `{id, email, name}` or nothing.
- **Dashboard guard** (`Dashboard`). The session status selects exactly one
  rendering. Only the authenticated one shows the welcome line and Logout.
- **Auth forms** (`LoginPage`, `RegisterPage`, over `SessionClient`). Each
  form is a class holding `error`, `loading` and the navigation it triggered.
  Each awaited call splits `handleSubmit` into parts. `pending` records where
  the handler is suspended. The remote results (`fetch`, `signIn`) are inputs.
  The register page also has the pure password-strength classifier.
- **Event catalog** (`MockEvents`, `EventsPage`, `FeaturedEvents`,
  `EventCard`). This covers the nine mock events, the category list and the
  badge colours. It covers the events page's search, category filter and
  in-place sort of a copy, and its filter state. It also covers the landing
  page's first three featured events and an event card's capacity arithmetic.
- **Header** (`Header`). A hash-link click closes the menu, then pushes
  `/#id` or scrolls. The header counts as scrolled past 50 pixels. The body
  overflow follows the mobile menu.

Shared helpers: `Wrappers` (`Option`), `Strings` (ASCII lower-casing,
substring search and the UTF-16 length of a string), `Seqs` (`filter` and the subsequence relation).

Behaviour of the source worth knowing:
- The login form has no `try`/`catch`. A throwing `signIn` leaves `loading` set
  and the form disabled. `LoginPage.LoginForm.OnSignIn` models that as written.
  The register form does catch (`RegisterPage.RegisterForm.OnSignIn`).
- In the register form, a sign-in error is shown as is. The fallback
  'Login after registration failed' is unreachable, because the branch runs
  only when the error is non-empty.
- A `create` that fails on an email already present is a thrown exception.
  The lookup lets a request through only for a new email, so under the
  sequential model this never happens.

## Model

| member | source | states |
|---|---|---|
| Strings.Lower | src/app/events/page.tsx:26-32 | `toLowerCase` keeps the length and lower-cases each ASCII letter, position by position |
| Strings.LowerIdempotent | src/app/events/page.tsx:26-32 | lower-casing an already lower-cased string changes nothing |
| Strings.Contains | src/app/events/page.tsx:29-32 | `includes` holds exactly when the needle occurs at some position of the text |
| Strings.Utf16Length | src/app/register/page.tsx:24-27 | `length` counts UTF-16 code units: one per character, two per character beyond U+FFFF, so it equals the character count exactly when there is no such character |
| Strings.EmptyNeedle | src/app/events/page.tsx:25-34 | every text contains the empty string |
| Seqs.Filter | src/app/events/page.tsx:27-38 | `filter` keeps only elements that pass, drops none that pass, invents none, and never repeats an element more often than the source |
| Seqs.FilterCount | src/app/events/page.tsx:27-38 | every value that passes occurs in the result exactly as often as in the source, and every other value not at all |
| Seqs.FilterIsSubsequence | src/components/events/FeaturedEvents.tsx:13 | a filter result keeps the relative order of its source |
| Users.Lookup | src/app/api/auth/register/route.ts:15-17 | the lookup finds a record exactly when one is filed under that email, and returns that record |
| Users.InsertKeepsWellFormed | src/app/api/auth/register/route.ts:26-32 | adding a record with a fresh id under a new email keeps one user per email and distinct ids |
| Users.UserTable.FindUnique | src/app/api/auth/register/route.ts:15-17 | `findUnique` throws when the store is down, else returns the lookup result and changes nothing |
| Users.UserTable.Create | src/app/api/auth/register/route.ts:26-32 | `create` adds exactly one record with a fresh id and the given fields, or throws and adds nothing |
| RegisterRoute.Register | src/app/api/auth/register/route.ts:5-47 | a request succeeds exactly when the body parses, all three fields are non-empty, the email is new and no call throws. Success adds exactly one record, holding the name, the email and the hash of the password. The response carries that record's id and email and nothing else. Every error leaves the store unchanged and is one of the three fixed replies. One user per email is preserved |
| RegisterRoute.MissingFieldIsRefusedUntouched | src/app/api/auth/register/route.ts:9-13 | a missing or empty field gives 400 "Missing fields" with no lookup, no hash and no write |
| RegisterRoute.DuplicateIsRefusedWithoutHashing | src/app/api/auth/register/route.ts:15-22 | a registered email gives 400 "User already exists." after one lookup, with no hash and no write |
| RegisterRoute.ThrowIsGenericAndAddsNothing | src/app/api/auth/register/route.ts:41-46 | a body that fails to parse, a throwing lookup (whether or not the email is registered), or a throw in hash or create for a new email gives the generic 500 and leaves the store unchanged |
| RegisterRoute.SecondRegistrationIsDuplicate | src/app/api/auth/register/route.ts:15-32 | after a successful registration of an email, any second registration of it is refused as a duplicate |
| RegisterRoute.Post | src/app/api/auth/register/route.ts:5-47 | the step-by-step handler produces exactly the response, new store and sequence of calls that `Register` gives, and keeps the store well formed |
| Authorizer.Authorize | src/auth.ts:16-36 | the result is an identity exactly when both credentials are non-empty, the email is stored and the password verifies. That identity is the stored user's id, email and name, with no hash |
| Authorizer.IncompleteCredentialsSkipLookup | src/auth.ts:17 | a missing or empty email or password is refused whatever the store holds, so no lookup matters |
| Authorizer.FailuresAreIndistinguishable | src/auth.ts:18-29 | an unknown email and a wrong password give the same value, `null` |
| Authorizer.RegisterThenAuthorize | src/auth.ts:24-35 | with a sound hasher, after a successful registration the same email and password authorize, as the new user's id, email and name |
| Authorizer.FailedRegistrationGrantsNothing | src/app/api/auth/register/route.ts:9-46 | a failed registration changes no authorization result |
| Dashboard.Greeting | src/app/dashboard/page.tsx:23 | the greeting is the name when it is non-empty, otherwise the email, otherwise nothing |
| Dashboard.Render | src/app/dashboard/page.tsx:11-33 | loading renders only "Loading...". Unauthenticated renders only "Please Login". The protected view appears exactly when authenticated, with the greeting |
| Dashboard.GuardHidesProtectedText | src/app/dashboard/page.tsx:11-17 | unless authenticated, no rendered line is "Logout" or anything other than the two status texts |
| Dashboard.HandleLogout | src/app/dashboard/page.tsx:7-9 | logout asks the session library to sign out and redirect to `/login` |
| SessionClient.CredentialsSignIn | src/app/login/page.tsx:26-30 | the sign-in request carries the entered email and password unchanged, the credentials provider and `redirect: false` |
| LoginPage.LoginForm.Disabled | src/app/login/page.tsx:73 | the inputs and the button are disabled exactly while `loading`, so always while the sign-in is awaited; the same attribute sits at lines 99 and 106 |
| LoginPage.LoginForm.constructor | src/app/login/page.tsx:14-17 | the form starts empty, enabled and without error or navigation |
| LoginPage.LoginForm.EnterEmail | src/app/login/page.tsx:73 | typing is possible only while the form is enabled, and sets the field |
| LoginPage.LoginForm.EnterPassword | src/app/login/page.tsx:99 | typing is possible only while the form is enabled, and sets the field |
| LoginPage.LoginForm.Submit | src/app/login/page.tsx:21-30 | the `required` inputs (lines 70, 96) let the form submit only with a non-empty email and password; submitting sets `loading`, which disables the form, clears `error`, and requests a sign-in with those credentials |
| LoginPage.LoginForm.OnSignIn | src/app/login/page.tsx:32-37 | a result with an error shows it and re-enables the form, with no navigation. Any other result navigates to `/dashboard` with `error` still empty. A throw changes nothing further |
| RegisterPage.PasswordStrength | src/app/register/page.tsx:23-28 | no strength exactly for the empty password. Weak exactly for lengths 1-5, Medium for 6-9, Strong from 10, the length counted in UTF-16 code units |
| RegisterPage.AstralCharactersCountTwice | src/app/register/page.tsx:26-27 | three emoji, three characters but six code units, already rate as Medium |
| RegisterPage.AppearanceOf | src/app/register/page.tsx:25-27 | the label is 'Weak', 'Medium' or 'Strong' and the bar colour red, yellow or green, each exactly for its own strength |
| RegisterPage.StrengthIsMonotone | src/app/register/page.tsx:23-28 | a password longer in code units never gets a weaker label |
| RegisterPage.BarWidth | src/app/register/page.tsx:166-167 | the bar is 33% for Weak, 66% for Medium, 100% for Strong |
| RegisterPage.OrElse | src/app/register/page.tsx:51 | the or-fallback `data.error or default` gives the error when it is non-empty, otherwise the default |
| RegisterPage.RegisterForm.Indicator | src/app/register/page.tsx:30 | an indicator is shown exactly when the password is non-empty |
| RegisterPage.RegisterForm.constructor | src/app/register/page.tsx:14-18 | the form starts empty, enabled and without error or navigation |
| RegisterPage.RegisterForm.EnterName | src/app/register/page.tsx:109 | typing is possible only while not loading, and sets the field |
| RegisterPage.RegisterForm.EnterEmail | src/app/register/page.tsx:127 | typing is possible only while not loading, and sets the field |
| RegisterPage.RegisterForm.EnterPassword | src/app/register/page.tsx:145 | typing is possible only while not loading, and sets the field |
| RegisterPage.RegisterForm.Submit | src/app/register/page.tsx:32-46 | the `required` inputs and `minLength={6}` (lines 106, 124, 142, 146) let the form submit only with a name, an email and a password of at least 6 code units; submitting sets `loading`, clears `error` and posts the three fields, whose password never rates as weak |
| RegisterPage.RegisterForm.OnRegisterReply | src/app/register/page.tsx:48-61 | a throw ends in the generic message. A non-ok reply shows its error, or 'Registration failed', and stops without signing in. An ok reply requests a sign-in with the entered credentials |
| RegisterPage.RegisterForm.OnSignIn | src/app/register/page.tsx:63-73 | a throw ends in the generic message. A sign-in error is shown, with no navigation. Otherwise the form navigates to `/dashboard` |
| RegisterPage.SubmitScenario | src/app/register/page.tsx:32-74 | a whole submission the browser lets through navigates exactly when the register reply is ok and the sign-in returns no error; it is re-enabled exactly when it does not navigate |
| MockEvents.CategoryColor | src/lib/mock-events.ts:234-246 | every category has a non-empty badge class string |
| MockEvents.ColorsAreDistinct | src/lib/mock-events.ts:236-243 | distinct categories get distinct badge class strings |
| MockEvents.CategoriesListedOnce | src/lib/mock-events.ts:222-231 | the category list has eight entries, holds every category and repeats none |
| MockEvents.IdsAreDistinct | src/lib/mock-events.ts:39-220 | no two mock events share an id |
| MockEvents.WithinCapacity | src/lib/mock-events.ts:39-220 | every mock event with a capacity has no more attendees than it |
| MockEvents.DatesAreValidAndDistinct | src/lib/mock-events.ts:39-220 | every mock date is a valid calendar month and day, and no two events share a date |
| MockEvents.CatalogFacts | src/lib/mock-events.ts:39-220 | the catalog has nine events; the first three have ids 1, 2 and 3; exactly events 1, 2, 3, 5 and 8 are featured |
| FeaturedEvents.Take | src/components/events/FeaturedEvents.tsx:13 | `slice(0, n)` is a prefix of length min(n, length) |
| FeaturedEvents.Featured | src/components/events/FeaturedEvents.tsx:13 | at most three events, as many as min(3, number featured), each featured and from the source |
| FeaturedEvents.FeaturedIsSubsequence | src/components/events/FeaturedEvents.tsx:13 | the featured events keep their catalog order |
| FeaturedEvents.NoEarlierFeaturedSkipped | src/components/events/FeaturedEvents.tsx:13 | a featured event preceded by fewer than three featured events is shown |
| FeaturedEvents.AllFeaturedWhenFew | src/components/events/FeaturedEvents.tsx:13 | with fewer than three featured events, every one is shown |
| FeaturedEvents.FirstThreeFeaturedAreShown | src/components/events/FeaturedEvents.tsx:13 | when the first three events are featured, exactly they are shown |
| FeaturedEvents.CatalogFeatured | src/components/events/FeaturedEvents.tsx:13 | on the mock catalog the landing page shows events 1, 2 and 3 |
| EventCard.AttendancePercentage | src/components/events/EventCard.tsx:30-32 | no percentage exactly when the capacity is absent or 0; otherwise percentage times capacity is 100 times the count |
| EventCard.IsNearCapacity | src/components/events/EventCard.tsx:34 | near capacity exactly when the capacity is positive and count × 100 > 80 × capacity |
| EventCard.SpotsLeftAsWritten | src/components/events/EventCard.tsx:104 | no fragment without a capacity; a bare 0 for capacity 0; otherwise capacity minus attendees |
| EventCard.ZeroCapacityPrintsStrayZero | src/components/events/EventCard.tsx:104 | an event with capacity 0 has no percentage and no highlight, yet its card prints a bare 0 |
| EventCard.SpotsLeftFragment | src/components/events/EventCard.tsx:104 | spots left are shown exactly when the capacity is positive, which is exactly when there is a percentage. The value is capacity minus attendees, never a bare number |
| EventCard.AsWrittenAgreesAwayFromZero | src/components/events/EventCard.tsx:104 | the corrected fragment equals the written one unless the capacity is 0 |
| EventCard.SpotsLeftNonNegative | src/components/events/EventCard.tsx:104 | an event within its capacity never shows negative spots |
| EventCard.CatalogSpotsLeftNonNegative | src/components/events/EventCard.tsx:104 | every catalog card shows a non-negative number of spots left |
| EventsPage.MatchesQuery | src/app/events/page.tsx:28-32 | an event matches exactly when the query occurs in its lower-cased title, description, city or category; the empty query matches every event |
| EventsPage.Selected | src/app/events/page.tsx:22-39 | the selection is exactly the events that pass the search and the category filter, each as often as in the catalog |
| EventsPage.NoFilterSelectsAll | src/app/events/page.tsx:25-39 | the empty query and 'All' select the whole catalog, in order |
| EventsPage.SearchIgnoresCase | src/app/events/page.tsx:26-32 | queries that differ only in letter case select the same events |
| EventsPage.ApplyFilters | src/app/events/page.tsx:22-39 | reassigning the working list through the two filter steps yields the selection |
| EventsPage.Key | src/app/events/page.tsx:43-45 | the sort key is the date for 'date' and the negated attendee count for 'popular' |
| EventsPage.Compare | src/app/events/page.tsx:43-45 | the comparator is negative, zero or positive exactly as the first event's key is below, equal to or above the second's |
| EventsPage.SortInPlace | src/app/events/page.tsx:42-46 | sorting the array in place orders it by the comparator's key and permutes its contents |
| EventsPage.SortedCopy | src/app/events/page.tsx:43-45 | sorting an array copy gives a permutation of the list in key order |
| EventsPage.SortedByKey | src/app/events/page.tsx:42-46 | key order means non-decreasing dates for 'date' and non-increasing attendee counts for 'popular' |
| EventsPage.FilteredEvents | src/app/events/page.tsx:21-49 | the result is a permutation of the selection and a sub-multiset of the catalog. Every listed event passes both filters, and every catalog event that passes is listed. Dates are non-decreasing for 'date', attendee counts non-increasing for 'popular' |
| EventsPage.Active | src/app/events/page.tsx:57 | a filter is active exactly when the state differs from query '', category 'All' and sort 'date' |
| EventsPage.InactiveListsWholeCatalog | src/app/events/page.tsx:51-57 | with no filter active the selection is the whole catalog and the order is by date |
| EventsPage.EventsPage.constructor | src/app/events/page.tsx:16-18 | the page starts with query '', category 'All' and sort 'date', so no filter is active |
| EventsPage.EventsPage.HasActiveFilters | src/app/events/page.tsx:57 | `hasActiveFilters` holds exactly when the page state differs from the one `clearFilters` restores |
| EventsPage.EventsPage.SetQuery | src/app/events/page.tsx:117 | the search box sets the query and nothing else |
| EventsPage.EventsPage.SelectCategory | src/app/events/page.tsx:147-161 | a category button sets the category and nothing else |
| EventsPage.EventsPage.SetSort | src/app/events/page.tsx:180-193 | a sort button sets the order and nothing else |
| EventsPage.EventsPage.ClearFilters | src/app/events/page.tsx:51-57 | clearing resets to '', 'All' and 'date', after which no filter is active |
| EventsPage.EventsPage.Shown | src/app/events/page.tsx:21-49 | the rendered list is a permutation of the current selection (with no active filter, of the whole catalog), with dates non-decreasing for 'date' and attendee counts non-increasing for 'popular' |
| Header.LinkId | src/components/layout/Header.tsx:116 | `substring(1)` is the href without its first character |
| Header.NavLinkTargets | src/components/layout/Header.tsx:75-80 | four links; only Events is a route link; the hash links start with '#' and target features, pricing and about |
| Header.LocationOf | src/components/layout/Header.tsx:50-51 | a URL splits at its first '#' into a pathname and a hash. The hash is the rest from that '#' on, and empty when there is no '#' or nothing follows it |
| Header.HashScrollTarget | src/components/layout/Header.tsx:49-61 | on page load there is a scroll target exactly on `/` with a non-empty hash, and it is the hash without its '#' |
| Header.PushedHashScrollsOnArrival | src/components/layout/Header.tsx:26-29 | pushing `/#id` lands on `/` and scrolls to `id` (to nothing for an empty id) |
| Header.HeaderState.constructor | src/components/layout/Header.tsx:13-46 | on mount the menu is closed, the body overflow is 'unset' and `scrolled` reflects the current `scrollY` |
| Header.HeaderState.HandleScroll | src/components/layout/Header.tsx:37-39 | `scrolled` holds exactly when the fractional `scrollY` is past 50; nothing else changes |
| Header.HeaderState.SyncOverflow | src/components/layout/Header.tsx:64-69 | the body overflow becomes 'hidden' when the menu is open and 'unset' otherwise |
| Header.HeaderState.HandleNavClick | src/components/layout/Header.tsx:18-34 | a click always closes the menu. Off `/` it pushes `/#id` and does not scroll. On `/` it scrolls to `id` and does not navigate |
| Header.HeaderState.ToggleMenu | src/components/layout/Header.tsx:159 | the menu button flips the menu, and the overflow follows |
| Header.HeaderState.CloseMenu | src/components/layout/Header.tsx:190 | a route link in the mobile menu closes it, and the overflow is 'unset' |
| Header.HeaderState.Unmount | src/components/layout/Header.tsx:70-72 | the cleanup restores the overflow to 'unset' |

## Left out

- bcrypt internals are not modelled: salting, the cost function and constant-time comparison. Only soundness is assumed, as a precondition where it is needed.
- The database is not modelled. Prisma becomes a map keyed by email with a counter for ids. The race between the lookup and the insert of two concurrent registrations is not modelled, because it needs concurrency.
- The session, JWT and cookie machinery is not modelled, and neither are the internals of `signIn`, `signOut` and `useSession`. Their results are inputs.
- Authorizer.Authorize: a throwing lookup or `bcrypt.compare` is not modelled. The callback has no `catch`, so the exception passes to the session library, which is not part of this model.
- `formatEventDate` is locale formatting and is not modelled. Dates are year, month and day. `DateKey` orders them as `getTime` orders valid ISO dates.
- EventsPage.SortInPlace, EventsPage.SortedCopy, EventsPage.FilteredEvents, EventsPage.EventsPage.Shown: do not state that the sort is stable. The page's `sort` keeps equal-key events in catalog order, but the model only promises key order and a permutation.
- Header.LocationOf: models URLs without a query string. A `?query` before the `#` stays in the pathname here, whereas the browser splits it off; the URLs the header pushes (`/#id`) carry none.
- `toLowerCase` is modelled for ASCII letters only.
- Strings.Utf16Length: counts code units as JavaScript does for well-formed text. Lone surrogates cannot occur in a Dafny string, so they are not modelled.
- EventCard.AttendancePercentage: uses exact rationals, not floating point, so rounding at the 80% boundary is not modelled.
- Animation delays, `scrollIntoView`, the timers and the scroll listener registration are not modelled, because they are DOM and timing effects. A scroll becomes a `HandleScroll` call with the new `scrollY`.
- Header.HeaderState.HandleNavClick: returns the request to push or to scroll, not its effect. A missing element makes the scroll do nothing in the page.
- EventsPage.EventsPage.Shown: takes the catalog as an argument. The page always passes the mock catalog.
- LoginPage.LoginForm.Submit, RegisterPage.RegisterForm.Submit: the browser's `type="email"` format check is not modelled, because it follows the HTML standard's email grammar. The model demands only a non-empty email, so these over-approximate what the browser lets through. `required` and `minLength` are modelled as preconditions.
- The desktop route link in the header has no click handler, so nothing is modelled for it.
- Styling, the landing page, the footer, the layouts, the logo tables, design tokens and build configuration are not modelled, because they are presentation only.
- The test scaffolding and the database script are not modelled.

## Findings

| source | as written | input that shows it | evidently intended | confidence | as-written member | corrected member |
|---|---|---|---|---|---|---|
| src/components/events/EventCard.tsx:104 | `{event.maxAttendees && ...}` renders the number 0, which React prints, when the capacity is 0 | an event with `maxAttendees: 0` renders "`<count>` attending0" | show the spots-left text only for a positive capacity, as `attendancePercentage` does at line 30 | not executed | EventCard.ZeroCapacityPrintsStrayZero | EventCard.SpotsLeftFragment |

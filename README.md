# The Globalists — request decisions, modelled in Dafny

The Globalists is a marketplace for relocation services: citizenship,
residency, company incorporation, banking, insurance and shipping. Providers
publish services. Customers buy them and review them. This project models
the server-side decision code of the marketplace and proves properties of
it. That code is:

- the route guard in front of the login pages and the dashboard;
- the credential check and the JWT callback of sign-in;
- registration;
- service creation and listing, including the slug of a new service;
- review creation;
- search.

The database is an in-memory store, the class `Store.Db`. It holds one
sequence per table: users, providers, services, transactions and reviews.
Each route handler is a method that takes the store. Its `modifies` clause
names the one table the handler can write, so the frame shows that nothing
else changes. Every handler ends in an HTTP `Response(status, payload)`.
Its contract gives the status and payload for each branch of the source's
guard chain, in the source's order. It also gives the new table contents.

Files and modules:

- `common.dfy` (`Common`): `Option`, the three roles, ASCII case mapping.
- `store.dfy` (`Store`): the records, the lookups `findUnique`/`findFirst`
  as `Find`, the store class and its insertion methods, and the store
  invariant `Db.Valid`: unique emails, unique service slugs, one review
  per (user, service), and ratings in 1..5.
- `http.dfy` (`Schema`, `Http`): the issue lists of the schema library, the
  request body, and the response payloads.
- `middleware.dfy` (`Middleware`): the redirect decision, and the guard that
  applies it only to the paths its matcher covers.
- `auth.dfy` (`Auth`): `authorize`, the `jwt` callback on a token object,
  and the two run as one sign-in.
- `register.dfy` (`RegisterRoute`): POST /api/auth/register.
- `slug.dfy` (`Slug`): the slug normaliser.
- `query.dfy` (`Query`): what the store's `findMany` does with the
  `where`, `orderBy` and `take` these routes pass.
- `services.dfy` (`ServicesRoute`): GET and POST /api/services.
- `reviews.dfy` (`ReviewsRoute`): POST /api/reviews.
- `search.dfy` (`SearchRoute`): GET /api/search.

Code outside the repository becomes a function-typed parameter:

- `encodeURIComponent` becomes `encode`, assumed injective where a lemma needs it;
- `bcrypt.compare` becomes `verify`;
- `bcrypt.hash` becomes `hash`;
- zod's `.email()` and `.cuid()` become `isEmail` and `isCuid`.

Values the routes generate also come in as parameters:

- the new row ids (cuid);
- the random slug suffix;
- the creation time.

A query-string parameter is a string, and `""` stands for a missing one.
JavaScript treats both as false. A request body is `Unparseable` or
`Json(value)`. A missing body field is `None`, which the schema reports as
"Required". Every issue list follows the schema's field order.

## Model

| member | source | states |
|---|---|---|
| Middleware.IsAuth | src/middleware.ts:8-10 | A request is authenticated iff either session cookie name is present, whatever its value |
| Middleware.From | src/middleware.ts:22-25 | The page to return to: the path, followed by the query string when there is one |
| Middleware.LoginLocation | src/middleware.ts:28 | The login redirect: /auth/login?from= followed by the encoded page |
| Middleware.Decide | src/middleware.ts:4-33 | The middleware function on any path: with a session cookie, a path starting with /auth redirects to /dashboard. Without one, a /dashboard path redirects to /auth/login?from= plus the encoded origin. In every other case the request passes, and only then |
| Middleware.Guard | src/middleware.ts:4-37 | The guard as configured by its matcher, which covers /auth, /dashboard and the paths below them. With a session cookie, a matched auth path redirects to /dashboard. Without one, a matched dashboard path redirects to the login location for its origin. Every other request passes, and only then |
| Middleware.AuthorsNotGuarded | src/middleware.ts:35-37 | /authors and /dashboards are not matched: they pass the guard although the decision function alone would redirect them |
| Middleware.GuardRedirectTargetsPass | src/middleware.ts:16-37 | Following either redirect of the guard with the same cookies reaches a matched page that passes |
| Middleware.PrefixesExclusive | src/middleware.ts:12-13 | No path starts with both /auth and /dashboard, so at most one redirect rule fires |
| Middleware.OtherPathsPass | src/middleware.ts:12-32 | A path under neither prefix always passes |
| Middleware.OwnAreaPasses | src/middleware.ts:16-32 | A logged-in user on the dashboard passes, and so does an anonymous user on an auth page |
| Middleware.CookieValuesIrrelevant | src/middleware.ts:8-10 | Two requests that agree on which session cookies are present get the same decision, whatever the cookie values and other cookies |
| Middleware.FromDeterminesRequest | src/middleware.ts:22-25 | For a path without "?" and a query string that is empty or starts with "?", `from` determines both: equal `from` values come from the same path and the same query string |
| Middleware.RedirectTargetsPass | src/middleware.ts:16-30 | Following either redirect with the same cookies leads to a page that passes: no redirect loop |
| Middleware.LoginLocationDeterminesFrom | src/middleware.ts:27-29 | With an injective encoder, equal login redirects come from equal origins |
| Middleware.LoginRedirectDeterminesRequest | src/middleware.ts:21-29 | With an injective encoder, the login redirect identifies the requested dashboard path and query string exactly |
| Store.ParseCategory | src/app/api/services/route.ts:7-14 | Exactly the six category names parse, each to its own category |
| Store.Find | src/app/api/reviews/route.ts:28-30 | None iff no row satisfies the condition; otherwise the first row that does |
| Store.HasPurchased | src/app/api/reviews/route.ts:37-42 | Some transaction has the caller as buyer and the given service |
| Store.HasReviewed | src/app/api/reviews/route.ts:52-57 | Some review is by the caller about the given service |
| Store.FindUserByEmailUnique | src/app/api/auth/register/route.ts:20-22 | With unique emails, the lookup of a user's email finds that user |
| Store.Db.CreateUser | src/app/api/auth/register/route.ts:35-48 | Appends the user to the user table and keeps the invariant when the email is new; no other table changes |
| Store.Db.CreateService | src/app/api/services/route.ts:90-107 | Appends the service to the service table when no stored service has its slug (the slug column is unique), keeping slugs unique and the rest of the invariant |
| Store.Db.CreateReview | src/app/api/reviews/route.ts:66-79 | Appends the review when the pair is not yet reviewed and the rating is 1..5, keeping one review per pair |
| Schema.CheckString | src/app/api/auth/register/route.ts:7 | No issue iff the field is present and passes its check; otherwise exactly one issue, "Required" when absent |
| Schema.CheckMinLength | src/app/api/auth/register/route.ts:8-9 | No issue iff the field is present and long enough; otherwise one issue with the field's message |
| Auth.Authorize | src/lib/auth.ts:18-48 | Missing email or password is rejected with "Email a heslo jsou povinné" before any lookup. Every other rejection, including an unknown email and a user whose stored password is missing or empty, says "Neplatné přihlašovací údaje". Authorized iff the user the lookup finds has a non-empty stored password that verifies, and the result is exactly that user's id, email, name, role and image |
| Auth.UnknownEmailLikeWrongPassword | src/lib/auth.ts:28-39 | An unknown email and a wrong password give the identical rejection |
| Auth.AuthorizeUniqueUser | src/lib/auth.ts:23-47 | With unique emails, sign-in succeeds for a user's email iff that user has a non-empty stored hash that verifies the password, and returns that user's claims |
| Auth.Token.Jwt | src/lib/auth.ts:52-58 | With a user, the token's role and id become the user's. Without one, the token is unchanged. No other claim changes |
| Auth.SignIn | src/lib/auth.ts:18-58 | The outcome is `authorize`'s. A rejection leaves the token unchanged. A success stores in the token the role and id of the authorised user, the one the email lookup finds |
| RegisterRoute.RegisterIssues | src/app/api/auth/register/route.ts:6-10 | No issue iff the body is accepted. The first issue is the email's (missing or invalid), then the password's (under 8), then the name's (under 2) |
| RegisterRoute.NewCustomer | src/app/api/auth/register/route.ts:35-41 | The inserted row: the new id, the email, the hashed password, the name, role CUSTOMER, no image |
| RegisterRoute.Post | src/app/api/auth/register/route.ts:12-81 | An unparseable body gives 500. A rejected body gives 400 with the first message and all issues. A taken email gives 409. Otherwise 201 and exactly one CUSTOMER user is appended, whatever role was sent, with the password hashed. The response shows id, email, name and role only. Every non-201 leaves the users unchanged, and emails stay unique |
| RegisterRoute.RegisterThenSignIn | src/app/api/auth/register/route.ts:32-48 | After registering, signing in with the same email and password succeeds as that CUSTOMER, given a non-empty hash that the password check accepts |
| RegisterRoute.RegisteredEmailTaken | src/app/api/auth/register/route.ts:20-29 | Once an email is registered, registering it again finds it taken |
| Slug.Collapse | src/app/api/services/route.ts:86 | The result is [a-z0-9-] only, has no "--", is empty iff the input is, starts with "-" iff the input starts outside [a-z0-9], and keeps every letter and digit in order |
| Slug.CollapseReplacesRuns | src/app/api/services/route.ts:86 | Collapsing equals replacing every character outside [a-z0-9] by "-" and then dropping each "-" that follows another, so each run becomes exactly one "-" in its place |
| Slug.TrimDashes | src/app/api/services/route.ts:87 | Removes one "-" at the start, then one "-" at the end |
| Slug.TrimDashesCorrect | src/app/api/services/route.ts:87 | Trimming one "-" at each end of a collapsed string gives a well-formed base and loses no letter or digit |
| Slug.SlugBase | src/app/api/services/route.ts:84-87 | The base is [a-z0-9-] only, with no "--" and no "-" at either end, and holds exactly the letters and digits of the lower-cased title. It equals the lower-cased title with each run outside [a-z0-9] replaced by one "-" and one "-" trimmed at each end |
| Slug.Slug | src/app/api/services/route.ts:84-88 | The slug is the base, then "-", then the suffix of at most six base-36 digits, all in [a-z0-9-] |
| Slug.CollapseFixesBase | src/app/api/services/route.ts:86 | Collapsing leaves a string without "--" in [a-z0-9-] unchanged |
| Slug.SlugBaseIdempotent | src/app/api/services/route.ts:84-87 | Normalising a slug base again gives the same base |
| ServicesRoute.CheckCategory | src/app/api/services/route.ts:7-14 | No issue iff the category is one of the six; otherwise one category issue |
| ServicesRoute.CheckPositive | src/app/api/services/route.ts:17 | No issue iff the price is present and above 0 |
| ServicesRoute.CheckFeatures | src/app/api/services/route.ts:20 | No issue iff at least one feature is given |
| ServicesRoute.ServiceIssues | src/app/api/services/route.ts:6-23 | No issue iff the body is accepted: six categories, title 5+, description 50+, price above 0, country 2+, country code exactly 2, and 1+ features. A category failure is the first issue, and each failing field contributes its own message |
| ServicesRoute.Post | src/app/api/services/route.ts:60-124 | A caller that is not PROVIDER or ADMIN gets 401 before the body is read. No provider profile gives 404, also before validation. Then 500 for an unparseable body, 400 with the first message, 500 when a stored service already has the generated slug (the unique slug column makes the insert fail), or 201 with one DRAFT, non-promoted service appended. That service carries the caller's provider id, the upper-cased country code and the slug of its title. The table is unchanged otherwise |
| ServicesRoute.ListWhere | src/app/api/services/route.ts:32-37 | A service matches iff it is PUBLISHED and equals the given category and country code exactly |
| ServicesRoute.Get | src/app/api/services/route.ts:26-57 | 200 with exactly the listed services, each as often as the table holds it, promoted-first then newest-first |
| ServicesRoute.CreatedServiceNotListed | src/app/api/services/route.ts:105 | A service fresh from POST is a DRAFT, so no listing shows it |
| ServicesRoute.LowerCaseCountryMissesCreated | src/app/api/services/route.ts:36 | The listing does not upper-case its country filter, so a filter with a lower-case letter never equals a code stored by POST |
| ReviewsRoute.CheckRating | src/app/api/reviews/route.ts:8 | No issue iff the rating lies in 1..5; below 1 and above 5 give their own messages |
| ReviewsRoute.CheckComment | src/app/api/reviews/route.ts:9 | No issue iff the comment is absent or at least 10 characters |
| ReviewsRoute.ReviewIssues | src/app/api/reviews/route.ts:6-10 | No issue iff the body is accepted. A non-cuid service id is the first issue, and rating and comment failures are each reported |
| ReviewsRoute.Post | src/app/api/reviews/route.ts:13-92 | In order: a caller that is not a CUSTOMER gets 401, then an unparseable body 500, then a rejected body 400 with all issues, then a missing service 404, then no purchase 403, then an existing review 400. Otherwise 201 and exactly one PUBLISHED review is appended with the session's user id. Every non-201 leaves the reviews unchanged, and one review per pair is kept |
| ReviewsRoute.ReviewedAfterCreate | src/app/api/reviews/route.ts:52-64 | After a review is stored, the same user's next review of that service meets the duplicate check |
| Query.ContainsIgnoresNeedleCase | src/app/api/search/route.ts:15-21 | Case-insensitive containment does not depend on the case of the search text |
| Query.Filter | src/app/api/search/route.ts:42-59 | Keeps exactly the matching rows, each as often as the table holds it |
| Query.Insert | src/app/api/search/route.ts:57 | Inserting into a ranked sequence gives a ranked sequence with one more copy of the row |
| Query.OrderByRank | src/app/api/search/route.ts:57 | The result is promoted-first then newest-first, and a permutation of the input |
| Query.Take | src/app/api/search/route.ts:58 | Keeps the first min(n, length) rows |
| Query.TakeKeepsBest | src/app/api/search/route.ts:57-58 | The rows kept from a ranked sequence stay ranked, and each ranks before every row cut off |
| SearchRoute.BuildWhere | src/app/api/search/route.ts:13-40 | The `where` built step by step selects exactly the PUBLISHED services that satisfy every supplied condition: q in title, description or country ignoring case, exact category, country code equal to the upper-cased country, price at least min and at most max |
| SearchRoute.AverageOf | src/app/api/search/route.ts:62-68 | The (sum, count) of the ratings of a service's PUBLISHED reviews, from which the reported average is sum / count, or 0 without reviews |
| SearchRoute.RatingSumBounds | src/app/api/search/route.ts:62-68 | With ratings in 1..5, the sum of a service's n published ratings lies between n and 5n |
| SearchRoute.AverageAfterReview | src/app/api/search/route.ts:52-55 | A new review changes only its own service's (sum, count), and only if it is published, by its rating and by one |
| SearchRoute.WithRatings | src/app/api/search/route.ts:62-68 | Each service keeps its place and gets the (sum, count) of its published reviews |
| SearchRoute.Select | src/app/api/search/route.ts:42-59 | The rows of the query: the matches, ordered promoted-first then newest-first, cut to the first 50 |
| SearchRoute.SelectCorrect | src/app/api/search/route.ts:42-59 | At most 50 rows, all matching, none more often than stored. Below 50, every match is there. The rows are ranked, and each ranks before every match left out |
| SearchRoute.Get | src/app/api/search/route.ts:4-81 | 200, `count` equals the number of results, and at most 50 results. They satisfy the search, are ranked, and rank before every match left out. Below 50, all matches are returned. Each result carries its service's published-review (sum, count), and on a valid store count <= sum <= 5 * count |

## Left out

- SearchRoute.Get: reports the average rating as a (sum, count) pair rather than the floating-point quotient sum / count, which is 0 for no reviews. Prices and ratings are integers throughout; zod accepts non-integer numbers and the search parses prices with `parseFloat`, which is not modelled (a non-numeric price string is not modelled either).
- SearchRoute.Get: the 500 response after a database failure is not modelled. That includes the one from an unknown category string, which the database rejects as an invalid enum value. Here such a category matches no service.
- ServicesRoute.Get: an unknown category string gives 200 with an empty list here. In the source the database rejects it as an invalid enum value and the route answers 500. Other database failures are not modelled either.
- The provider fields and review ratings that `include` attaches to listed and searched services are not part of the response model. Neither is the reviewer's name returned with a new review.
- ServicesRoute.Post: features and requirements are stored as sequences, not as their JSON text.
- RegisterRoute.Post: the development-only `debug` field of the 500 response is not modelled.
- The redirect locations are paths; the request's origin that `new URL` puts in front is not modelled.
- A JSON body that is not an object, or a field of the wrong JSON type, is not modelled; every field is either absent or of its schema type.
- Case mapping and `contains` ... `insensitive` are ASCII-only; string lengths count characters, not UTF-16 code units.
- The NextAuth `session` callback (src/lib/auth.ts:59-65) is not modelled: two of its statements run together without a separator, so it does not do what its layout suggests.
- JWT signing, expiry and cookie handling belong to the authentication library and are not part of this model.
- Check-then-insert races between concurrent registrations or reviews, and the database's unique constraints that would catch them, are not modelled. The slug of a new service is checked against the table at insert time, in the same step.
- Math.random, cuid generation and the clock are parameters (the slug suffix, the new ids, the creation time).
- The single-service route src/app/api/services/[id]/route.ts, the pages, components, scripts and seed data are not part of this model.

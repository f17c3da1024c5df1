# Financial dashboard: session, record cache, requests and form validation

A model of the sequential logic under the financial dashboard's React UI,
with the browser, React and the network abstracted away:

- **Record cache** (`FinancialContext`): the `FinancialProvider` holds the
  analysis records, newest first, and mirrors them to `localStorage` under
  `financialData`. Mounting rehydrates the list, and `addFinancialData`
  prepends one record and rewrites the snapshot. Serialisation is a
  canonical JSON encoding of the record fields kept here (`Json`). Its round
  trip `Parse(Stringify(rs)) == Some(rs)` is proved.
- **Session** (`AuthContext`): the `AuthProvider`'s `user` and `isLoading`,
  and the bearer token under `token` in the same store. `checkAuth`, `login`
  and `logout` are pure step functions over a `Session` value. The class
  methods are proved to follow them. Each backend reply is an input.
- **Requests** (`Api`): `fetchAPI`'s option and header merge, the bearer
  token it attaches, the way a reply becomes a value or an error, and the
  endpoint, method and body of every exported wrapper.
- **Validation** (`NewRecordFormSchema`, `NewRecordForm`, `Zod`): the exported
  numeric schema, with integer years in `[1900, currentYear]`, and the
  string-length schema the form actually uses. Both report issues per field.
- `LocalStorage` is one `Store` object, a `map<string, string>`, shared by
  both providers. `Js` holds the JavaScript semantics the model relies on:
  value shapes, string truthiness, UTF-16 `length` and integer rendering.

Behaviour of the code that is easy to expect otherwise:

- A validation call that fails, including one answered with 401, is only
  logged. The stored token is kept, because `fetchAPI` throws on a non-ok
  status and the `catch` does not remove it. Only an ok reply with a falsy
  body removes the token.
- `login` does not check for a `jwt`. A reply without one stores the text
  "undefined", which is then sent as the bearer token.
- A stored snapshot that does not parse makes the load effect throw. There
  is no fallback to an empty list.
- The form validates with the string-length schema: "abcd" is an
  acceptable year. The numeric year schema exists but is not wired to the
  form.
- `fetchAPI` reads the body before it checks `ok`. A non-JSON body therefore
  fails as a parse error even on an error status. On an error status with a
  JSON body, the error branch reads the body a second time, and that read
  rejects; see "## Findings".

## Model

| member | source | states |
|---|---|---|
| `FinancialContext.FinancialProvider.constructor` | context/FinancialContext.tsx:43-45 | before any load, the record list is empty and there is no user |
| `FinancialContext.LoadOutcomeOf` | context/FinancialContext.tsx:47-52 | a missing or empty snapshot is skipped; otherwise the list becomes the parse, or the effect throws if it does not parse |
| `FinancialContext.FinancialProvider.LoadEffect` | context/FinancialContext.tsx:47-52 | the list is replaced by the parsed snapshot exactly when one was loaded, and is unchanged otherwise; the store and the user are not written |
| `FinancialContext.FinancialProvider.AddFinancialData` | context/FinancialContext.tsx:54-58 | the new list is `[r] + old`; the stored snapshot is the serialisation of exactly that list; every other store key and the user are unchanged |
| `FinancialContext.FinancialProvider.SetUser` | context/FinancialContext.tsx:44 | sets the context's user and leaves the records alone |
| `FinancialContext.ReloadReproduces` | context/FinancialContext.tsx:47-57 | whatever else is stored, the snapshot written for a list loads back as that same ordered list |
| `FinancialContext.AddThenRemount` | context/FinancialContext.tsx:47-57 | after an add, a provider freshly mounted on the same store rehydrates exactly the first provider's list, with the new record first |
| `Json.Stringify` | context/FinancialContext.tsx:57 | the stored snapshot is never the empty string, so it always counts as present on reload (even for `[]`) |
| `Json.RoundTrip` | context/FinancialContext.tsx:50-57 | parsing the serialisation of a record list gives back the same list in the same order |
| `Json.StringifyInjective` | context/FinancialContext.tsx:57 | two different record lists are never stored as the same text |
| `Json.Parse` | context/FinancialContext.tsx:50 | only a text starting with `[` is read as a list, and only `[]` reads as the empty list; its inverse property is `Json.RoundTrip` |
| `LocalStorage.Lookup` | context/AuthContext.tsx:30 | `getItem` yields a value exactly when the key is stored, and then the stored value |
| `LocalStorage.Store.GetItem` | context/FinancialContext.tsx:48 | reads a key without changing the store |
| `LocalStorage.Store.SetItem` | context/FinancialContext.tsx:57 | writes one key; every other key keeps its value |
| `LocalStorage.Store.RemoveItem` | context/AuthContext.tsx:38 | deletes one key; every other key keeps its value |
| `Api.BuildRequest` | lib/api.ts:3-28 | the URL is `API_URL` followed by the endpoint; the caller's method and body are kept; `Content-Type` is the caller's if given, else `application/json`; a truthy token forces `Authorization: Bearer <token>`; every other header is the caller's, unchanged |
| `Api.NoTokenPassesThrough` | lib/api.ts:20-26 | with no token or an empty one, the headers are the defaults overridden by the caller's, with nothing added |
| `Api.Interpret` | lib/api.ts:28-36 | the call succeeds exactly for an ok reply with a JSON body, returning that body; a non-ok JSON reply fails with the rejection of the second body read (`res.text()` after `res.json()`); an unreadable body or a transport failure fails as such |
| `Api.FixedMessageUnreachable` | lib/api.ts:29-33 | as written, no reply makes `fetchAPI` throw 'An error occurred while fetching the data.' |
| `Api.InterpretIntended` | lib/api.ts:31-33 | every error status fails with 'An error occurred while fetching the data.', whatever its body; only an ok reply with a JSON body succeeds |
| `Api.IntendedAgreesOnSuccess` | lib/api.ts:28-36 | apart from error statuses, the intended reading and the code as written give the same outcome |
| `Api.FetchApi` | lib/api.ts:3-37 | the request goes to `API_URL` + endpoint with the caller's method and body and, with a truthy token, `Authorization: Bearer <token>`; the call succeeds exactly for an ok reply with a JSON body, and never fails with the fixed message |
| `Api.CreateAnalisisRequest` | lib/api.ts:43-52 | `createAnalisis` POSTs `{symbol: activo, year1: inicio, year2: fin}` as JSON to `/api/analisis`, and the three fields can be read back from the payload |
| `Api.WrapperRoutes` | lib/api.ts:39-67 | `authApi` POSTs its data to `/api/auth/local`; `getAnalisis`, `validateToken` and `searchActivos` use the default method with no body, on `/api/analisis`, `/api/users/me` and `/api/search?query=` followed by the encoded query |
| `AuthContext.AuthProvider.constructor` | context/AuthContext.tsx:24-25 | initially there is no user and `isLoading` is true |
| `AuthContext.AuthProvider.CheckAuth` | context/AuthContext.tsx:29-45 | sends the validation request exactly when a truthy token is stored, and leaves the session as `CheckAuthStep` gives it |
| `AuthContext.CheckAuthStep` | context/AuthContext.tsx:29-45 | loading always ends; the token is removed exactly when a truthy token was stored and the reply is ok with a falsy body; the user changes only to the user an ok reply carries |
| `AuthContext.CheckAuthWithoutToken` | context/AuthContext.tsx:30-44 | with no token, nothing is sent, the store and user are unchanged and loading ends |
| `AuthContext.CheckAuthSendsToken` | context/AuthContext.tsx:30-34 | a stored token goes to `/api/users/me` as `Bearer <token>` |
| `AuthContext.CheckAuthAccepted` | context/AuthContext.tsx:34-36 | a user in the reply becomes the session user and the token stays |
| `AuthContext.CheckAuthFalsyReply` | context/AuthContext.tsx:37-38 | a falsy reply removes the token and nothing else, and sets no user |
| `AuthContext.CheckAuthCallFailed` | context/AuthContext.tsx:40-42 | a failed call (network, unreadable body, or error status such as 401) keeps the token and the user, and nothing is propagated |
| `AuthContext.CheckAuthEndsLoading` | context/AuthContext.tsx:44 | `isLoading` is false after `checkAuth` on every branch |
| `AuthContext.AuthProvider.Login` | context/AuthContext.tsx:50-60 | sends the credentials with the currently stored token, and leaves the session and the thrown error as `LoginStep` gives them |
| `AuthContext.LoginStep` | context/AuthContext.tsx:50-60 | nothing is thrown exactly when the reply is ok with a JSON body; then `token` holds its `jwt` (or "undefined") and the user is its user; on a throw the session is unchanged; an error status with a JSON body re-throws the second-read rejection |
| `AuthContext.LoginSucceeded` | context/AuthContext.tsx:52-55 | on success the `jwt` is stored under `token`, the user comes from the reply, no other key changes and nothing is thrown |
| `AuthContext.LoginWithoutJwt` | context/AuthContext.tsx:53-54 | a reply without `jwt` is accepted; "undefined" is stored and then sent as the bearer token |
| `AuthContext.LoginFailed` | context/AuthContext.tsx:56-59 | a failed login re-throws the call's error and leaves token and user unchanged |
| `AuthContext.LoginSendsStoredToken` | context/AuthContext.tsx:52 | the login POST to `/api/auth/local` carries any token already stored |
| `AuthContext.AuthProvider.Logout` | context/AuthContext.tsx:62-65 | leaves the session as `LogoutStep` gives it |
| `AuthContext.LogoutStep` | context/AuthContext.tsx:62-65 | there is no token and no user afterwards; every other key and the loading flag are unchanged |
| `AuthContext.LogoutIdempotent` | context/AuthContext.tsx:62-65 | after logout there is no token and no user, every other key is unchanged, and a second logout changes nothing |
| `Js.Utf16Length` | components/NewRecordForm.tsx:12-14 | a string's JavaScript length lies between its character count and twice that |
| `Zod.StringMin` | components/NewRecordForm.tsx:12-14 | a string passes exactly when its UTF-16 length reaches the minimum; a non-string gets only a type error; every issue is on the checked field |
| `Zod.IssuesAtThree` | validation/newRecordFormSchema.tsx:3-15 | when issues are built field by field, filtering by a field gives back exactly that field's part |
| `NewRecordFormSchema.YearIssues` | validation/newRecordFormSchema.tsx:5-14 | a year passes exactly when it is an integer in `[1900, currentYear]`; a missing year gets only a type error with zod's default message, any other non-number (null and NaN included) only the type error with the schema's message; a number gets the integer, minimum and maximum issues exactly when it fails each check |
| `NewRecordFormSchema.SafeParse` | validation/newRecordFormSchema.tsx:3-15 | accepts exactly a non-empty `activo` and two valid years, and outputs the same values; otherwise returns the non-empty issue list |
| `NewRecordFormSchema.FieldScoped` | validation/newRecordFormSchema.tsx:3-15 | the issues on each field are exactly that field's own check, whatever the other fields hold |
| `NewRecordFormSchema.EndBeforeStartAccepted` | validation/newRecordFormSchema.tsx:3-15 | with no rule between the years, `fin < inicio` is accepted when both are in range |
| `NewRecordFormSchema.BoundsInclusive` | validation/newRecordFormSchema.tsx:8-13 | 1900 and the current year pass; 1899 and the next year fail |
| `NewRecordFormSchema.StartBelow1900Rejected` | validation/newRecordFormSchema.tsx:8 | a start year of 1800 is refused with the minimum-year issue on `inicio` |
| `NewRecordForm.Validate` | components/NewRecordForm.tsx:11-15 | accepts exactly a non-empty `activo` and `inicio`/`fin` of UTF-16 length at least 4, and returns the values unchanged |
| `NewRecordForm.Submitted` | components/NewRecordForm.tsx:31-33 | `onSubmit` is called exactly when the values validate, and receives them unchanged |
| `NewRecordForm.FieldScoped` | components/NewRecordForm.tsx:11-15 | each field's issues are exactly its own length check; no rule links `inicio` and `fin` |
| `NewRecordForm.UntouchedFormFails` | components/NewRecordForm.tsx:24-28 | the default empty values fail on all three fields, with the schema's three messages |
| `NewRecordForm.AnyFourCharactersPass` | components/NewRecordForm.tsx:13-14 | any four characters pass as a year, digits or not |
| `NewRecordForm.LettersPassAsYear` | components/NewRecordForm.tsx:13 | "abcd" is accepted as a year |
| `NewRecordForm.CodeUnitLength` | components/NewRecordForm.tsx:13-14 | length counts UTF-16 code units: two astral characters make a long-enough year, while one does not |

## Left out

- Rendering, routing, theming and view state (`app/`, `Sidebar`, `TopBar`). This includes the dashboard's selected record and its passing form values to `addFinancialData`.
- `lib/dateUtils.ts`: it depends on locale-specific JavaScript `Date` formatting.
- The nested `resultado` metrics, the timestamps and `locale` of a record. `Record` keeps `id`, `documentId`, `activo`, `inicio` and `fin`.
- `fetch`, `res.json()`, `res.text()` and `console.error` are I/O. The request is an output and the reply an input.
- `encodeURIComponent`: `searchActivos` takes the query already encoded.
- `API_URL` comes from the environment. It is a parameter, and when it is unset it renders as "undefined".
- React scheduling: hooks, effects, asynchronous state updates, stale closures and interleaved async operations. Each operation is one atomic step on the latest state.
- Json.Parse: accepts only the compact text `Stringify` produces. Other well-formed JSON that `JSON.parse` would accept (whitespace, other key orders, extra keys, non-array values) is treated as malformed. Control characters are written raw, not as `\u` escapes.
- Api.BuildRequest: caller headers are taken as a plain object. A `Headers` instance or a pair list, which the spread would drop, is not modelled. Header names are compared exactly, as object keys are.
- JavaScript numbers are finite reals plus NaN. Infinities and `-0` are not modelled.
- Zod: the root-level type error for a non-object input is not modelled, and zod's default messages (such as "Required" for a missing value) are `None`.
- The text of the error `res.text()` rejects with on a body already read is browser-specific; it is the constant `BodyAlreadyUsed`.
- AuthContext.LoginStep: a null reply body (which makes the destructuring throw) and a non-string `jwt` are not modelled.
- The debounced search with last-call-wins and an analysis-request pipeline that validates, calls the backend and caches the result do not exist in this code, so they are not modelled.

## Findings

| source | as written | input that shows it | evidently intended | confidence | as-written member | corrected member |
|---|---|---|---|---|---|---|
| lib/api.ts:29-33 | the body is consumed by `res.json()` before `ok` is checked, and the error branch then calls `res.text()` on it, which rejects; `fetchAPI` throws that rejection and never reaches its fixed message | a 400 or 401 reply with a JSON body, such as a wrong password at login: `Interpret(Received(false, Some(b))) == Failure(BodyAlreadyUsed)` | every error status throws 'An error occurred while fetching the data.' | high, not executed | `Api.FixedMessageUnreachable` | `Api.InterpretIntended` |

The sessions (`AuthContext`) are modelled on `Api.Interpret`, the code as
written, because the error a failed login re-throws reaches the login page.
`Api.InterpretIntended` is the reading the error branch was written for.

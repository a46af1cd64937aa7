# SkillBridge browser client: session, slices and page rules in Dafny

This project models the sequential core of the SkillBridge job-board
browser client and proves properties of the model. The client is a React
and redux application. The modelled core has four parts:

- **Session handling.**
  - The shared axios client's request interceptor attaches the stored
    access token as a bearer credential (section 2.1 of RFC 6750).
  - Its response interceptor refreshes the tokens once on a 401 and
    replays the request.
  - The authentication API wrappers normalise and store the tokens a
    reply carries, and clear them on logout.
  - The authentication context tracks the signed-in user.
  - The `auth` slice's thunks keep their own normaliser and their own
    storage writes.
- **The redux reducers** of the `auth`, `jobs` and `stacks` slices. This
  includes the stacks pagination normalisation, which reconciles `total`
  with `total_count`.
- **The site context.** Its `mapSettings` and the list updaters of its
  add, update and delete callbacks.
- **Page rules.**
  - The hired-candidates filter, selection toggle, export choice and CSV
    text.
  - The post-login route chosen from the e-mail address.
  - The stacks list's view precedence, tile fallbacks and 60-character
    description preview.

The model writes JavaScript's value semantics out explicitly (`JsValues`):

- a primitive is `Undefined | Null | Str | Num | Bool`;
- a plain object is a `map<string, Value>` whose missing keys read as
  `undefined`;
- truthiness, `||` and `??` are functions;
- `String(v)` is `ToJsString`, which is what `localStorage.setItem`
  stores;
- `includes` is `Includes`.

Backend replies are inputs of type `Reply<B>`: either a returned body or
the error axios throws. localStorage is a `Storage` pair of optional
strings. The page location and the axios default header are plain fields.

The response interceptor is an explicit state machine (`ApiClient.Step`)
with the phases Sending, Received, Refreshing and Settled. A rank
decreases on every step, and this rank bounds every run. Each reducer is a
pure function from a state and an action to the next state. A thunk is a
function from the reply it awaited to the action it dispatches.

Modules, one per file: `JsValues`, `Collections` (`filter`, `findIndex`,
`map`, `join`, `split`), `Http`, `Session`, `AuthApi`, `ApiClient`,
`Thunks`, `Records`, `AuthSlice`, `JobsSlice`, `StacksSlice`,
`SiteContext`, `AuthContext`, `HiredCandidates`, `LoginPage`,
`StacksList`.

Tokens are normalised in two places that do not agree: the API wrappers
(src/api/auth.ts:71-83, "Handle both token formats") take the flat pair
unless its access token is falsy, while the thunks
(src/store/slices/authSlice.ts:31-38, "Normalize token formats") resolve
each token through its own `??` chain. Two consequences matter:

- The two token normalisers genuinely differ. `Session.NormalisersDisagreeOnEmptyAccess`
  and `AuthSlice.StoredAndSliceTokensDiverge` show inputs on which they
  part ways.
- After a successful `login` or `register` thunk, localStorage holds what
  both writes left behind. The API wrapper writes first and the thunk
  writes second.

## Model

| member | source | states |
|---|---|---|
| JsValues.Includes | src/pages/public/LoginPage.tsx:26-28 | `s.includes(sub)` holds exactly when `sub` occurs in `s` at some index |
| JsValues.IncludesTransitive | src/pages/public/LoginPage.tsx:26-29 | an address containing "superadmin" also contains "admin", which is why the super-admin test must come first |
| JsValues.OrText | src/store/slices/authSlice.ts:43 | `v \|\| ''` yields a truthy value's `String()` text, which is never empty (a truthy string itself), and '' for any falsy value |
| Collections.Filter | src/store/slices/jobsSlice.ts:218 | a filtered list holds exactly the elements that pass, each as often as in the input, and never grows |
| Collections.FilterAppend | src/store/slices/jobsSlice.ts:218 | filtering keeps relative order: it distributes over concatenation |
| Collections.FindIndex | src/store/slices/jobsSlice.ts:198 | `findIndex` answers the first passing index, or -1 when no element passes |
| Collections.ReplaceFirst | src/store/slices/jobsSlice.ts:198-201 | replacing element by element equals assigning at the `findIndex` position when there is a match, and leaves the list alone when there is none |
| Collections.MapWhere | src/contexts/SiteContext.tsx:138 | the conditional `map` keeps the length and rewrites exactly the elements that match |
| Collections.SplitJoin | src/pages/admin/HiredCandidates.tsx:38-49 | lines joined with a separator they do not contain split back into the same lines |
| Session.FlatFirst | src/api/auth.ts:72-78 | both tokens come from one shape, never a mix; the flat pair wins whenever its access token is truthy; the result's access token is truthy exactly when some shape offers one |
| Session.Chain | src/store/slices/authSlice.ts:32-33 | each token is the first non-nullish of its flat, nested and bare keys, chosen independently of the other |
| Session.StoreTruthy | src/store/slices/authSlice.ts:35-38 | `access_token` changes only for a truthy access token; `refresh_token` changes only when both tokens are truthy |
| Session.ChainMixesShapes | src/store/slices/authSlice.ts:32-33 | the chain can take access from the flat shape and refresh from the nested one, where the wrapper's normaliser keeps the flat pair |
| Session.NormalisersDisagreeOnEmptyAccess | src/api/auth.ts:75-78 | an empty flat access token beside a nested one: the wrapper takes the nested pair, the chain keeps the empty string |
| Session.NormalisersAgreeOnSingleShape | src/store/slices/authSlice.ts:32-33 | on a reply in one pure shape with string tokens, the two normalisers choose the same pair |
| AuthApi.SessionCall | src/api/auth.ts:69-103 | the body comes back unmodified; storage changes only for a reply with a truthy access token in some shape; the flat pair is stored when the flat access is truthy, and the nested pair otherwise |
| AuthApi.Logout | src/api/auth.ts:105-112 | both entries are removed whatever the backend answered, and a backend failure still reaches the caller |
| AuthApi.MissingFlatRefreshStoresUndefined | src/api/auth.ts:80-83 | a flat access token without a flat refresh token stores the text "undefined" as the refresh token, even when a nested refresh token exists |
| ApiClient.AttachBearer | src/api/client.ts:14-20 | with a non-empty stored token the header is exactly "Bearer " + token; otherwise the request is unchanged |
| ApiClient.Step | src/api/client.ts:23-65 | every step outside Settled lowers the rank; only a send grows the sent list, by the intercepted request; only a refresh grows the refresh list; the send and refresh budgets are never exceeded |
| ApiClient.Run | src/api/client.ts:23-65 | every run settles, keeps what was already sent as a prefix, and stays within the remaining budgets |
| ApiClient.Dispatch | src/api/client.ts:28-29 | one call reaches the original endpoint at most twice and the refresh endpoint at most once; its first send carries the stored token |
| ApiClient.RunStaysOnEndpoint | src/api/client.ts:49-52 | a replay goes to the same endpoint as the original request |
| ApiClient.PassThrough | src/api/client.ts:28 | a success, a non-401 error or a 401 on a retried request reaches the caller unchanged; storage, location and default header are untouched |
| ApiClient.NoRefreshToken | src/api/client.ts:32-33 | with no stored refresh token the original 401 reaches the caller; nothing is cleared and there is no redirect |
| ApiClient.RefreshThrows | src/api/client.ts:55-59 | a thrown refresh removes both tokens, moves the page to /login and rejects with the refresh error, not the 401 |
| ApiClient.RefreshWithoutAccess | src/api/client.ts:45 | a refresh reply without a truthy access token rejects with the original 401; storage and location stay as they were |
| ApiClient.RefreshAndReplay | src/api/client.ts:45-52 | the new pair is stored, the replay is marked retried and carries "Bearer " + the new token, and the caller gets the replay's result, even a failure, with nothing cleared |
| ApiClient.AlwaysUnauthorized | src/api/client.ts:28-29 | against a backend that answers every request with 401, the call still rejects after at most two sends |
| ApiClient.DispatchStaysOnEndpoint | src/api/client.ts:52 | every request a call sends targets the caller's endpoint |
| Thunks.Settle | src/store/slices/jobsSlice.ts:42-55 | a thunk fulfils exactly when the reply reports success, with its data; a reply that reports failure rejects with the reply; a throw rejects with the error body or the fallback text |
| Thunks.RejectionMessage | src/store/slices/jobsSlice.ts:153-156 | the error is the payload's non-empty message, or the default; it is never empty when the default is not |
| Thunks.TransportFailureUsesDefault | src/store/slices/jobsSlice.ts:37 | a throw without a response body ends with the reducer's default message, because a plain string has no `message` |
| Records.Merge | src/contexts/SiteContext.tsx:138 | the spread keeps every key of both objects, and the patch's value wins on a shared key |
| Records.ReplaceById | src/store/slices/jobsSlice.ts:196-204 | only the first record with the reply's id is replaced; the length is kept; with no match the list is unchanged |
| Records.RemoveById | src/store/slices/jobsSlice.ts:216-220 | no record with the id survives; every other record survives as often as before |
| Records.MergeById | src/contexts/SiteContext.tsx:138 | records with the id are merged with the patch; every other record and the length are kept |
| Records.RemoveKeepsOrder | src/store/slices/stacksSlice.ts:197-201 | removal keeps the survivors in their original order |
| Records.RemoveAbsentId | src/store/slices/stacksSlice.ts:199 | removing an id that no record carries changes nothing |
| Records.RemoveAfterMerge | src/contexts/SiteContext.tsx:138-149 | deleting after merging a patch that keeps the id removes the same records as deleting directly |
| AuthSlice.Reduce | src/store/slices/authSlice.ts:147-264 | `setTokens` stores the given pair, holds it as the slice's tokens and authenticates; nothing else touches storage; a pending case only raises loading and clears the error; every settlement lowers loading; login and register take the payload's user and tokens and authenticate; getMe takes the user and authenticates; the profile cases replace only the profile; logout returns to the initial state; a rejection leaves user, profile and tokens alone and records a non-empty error; `isAuthenticated` moves only on the cases that open or end a session |
| AuthSlice.LastLifecycle | src/store/slices/authSlice.ts:157-264 | picks the last thunk action of a history, with no thunk action after it |
| AuthSlice.LoadingTracksLastThunk | src/store/slices/authSlice.ts:160-263 | after any history of actions, loading is true exactly when the most recent thunk action was a pending one |
| AuthSlice.SessionThunk | src/store/slices/authSlice.ts:25-87 | the thunk fulfils exactly for a success with data, carrying the reply's user and the chained tokens, with '' for a missing token; a reply without `success` is rejected with the reply itself (its `message`); a success without data is rejected with the fixed login or register text; a throw is rejected with the error body or that text; after a success, storage holds the chained access token when it is truthy, the chained refresh token when both are truthy, and otherwise what the wrapper's flat-first write left |
| AuthSlice.LogoutThunk | src/store/slices/authSlice.ts:128-141 | whatever the backend answers, both entries are removed and the thunk fulfils |
| AuthSlice.GetMeThunk | src/store/slices/authSlice.ts:89-99 | fulfils exactly for a successful reply, with its data; a reply that reports failure is rejected with the reply itself; a throw is rejected with the error's response body or 'Failed to fetch user' |
| AuthSlice.ThunkRejectionMessages | src/store/slices/authSlice.ts:95-97 | a getMe or profile reply reporting failure with a message leaves that message as the slice's error; a throw without a response body leaves the case's default |
| AuthSlice.ProfileThunk | src/store/slices/authSlice.ts:101-126 | fulfils exactly for a successful reply, with its data, under the matching case; a reply that reports failure is rejected with the reply itself, a throw with the response body or the operation's fixed text, under the matching operation |
| AuthSlice.LogoutAlwaysResets | src/store/slices/authSlice.ts:252-259 | logging out ends in the initial state with both entries removed, whatever the backend did |
| AuthSlice.SessionThunkAuthenticates | src/store/slices/authSlice.ts:164-170 | a successful sign-in leaves the slice authenticated, not loading, without error, holding the reply's user and the chained tokens |
| AuthSlice.RejectionsAndSignOut | src/store/slices/authSlice.ts:171-244 | a rejected login, register or getMe signs out; a rejected profile fetch or update keeps `isAuthenticated`; the error is the payload's message or the default |
| AuthSlice.StoredAndSliceTokensDiverge | src/store/slices/authSlice.ts:32-43 | storage can hold a nested access token while the slice keeps '' as its access token |
| JobsSlice.Reduce | src/store/slices/jobsSlice.ts:136-264 | pending cases change only loading and error; a rejection changes only loading and error, recording `payload?.message` or the case's default; create appends exactly one job at the end; list takes the reply's data and pagination or their defaults; getJob sets the current job to the fetched one and leaves the list; update, publish and close replace by id and set the current job; delete removes by id; no other case touches the current job; only list changes the pagination |
| JobsSlice.RewriteTouchesFirstMatchOnly | src/store/slices/jobsSlice.ts:196-204 | a rewrite keeps the length, leaves jobs with other ids alone, changes nothing when no id matches, and always sets the current job |
| JobsSlice.DeleteRemovesEveryMatch | src/store/slices/jobsSlice.ts:216-220 | no job with the id remains, and every other job does |
| JobsSlice.TextPayloadUsesDefault | src/store/slices/jobsSlice.ts:153-156 | a plain-text rejection payload records the default message |
| JobsSlice.RejectionRecordsBackendMessage | src/store/slices/jobsSlice.ts:42-55 | a failed reply's message, or a thrown call's response-body message, becomes the slice's error; without either, the case's default |
| StacksSlice.Normalise | src/store/slices/stacksSlice.ts:124-131 | no field of the result is nullish; each field keeps a non-nullish reply value; page defaults to 1, page_size to 10 and total_pages to 0 |
| StacksSlice.TotalsReconciled | src/store/slices/stacksSlice.ts:128-129 | when one total is supplied, both equal it; when neither is, both are 0; the totals differ exactly when the reply supplied two different ones |
| StacksSlice.NormaliseIdempotent | src/store/slices/stacksSlice.ts:124-131 | a normalised record normalises to itself, and a reply without pagination gives the initial record |
| StacksSlice.Reduce | src/store/slices/stacksSlice.ts:110-205 | pending cases change only loading and error; a rejection changes only loading and error, recording `payload?.message` or the case's default; list takes the data and normalises the pagination; getStack sets the current stack and leaves the list; create appends exactly one stack; update replaces by id and sets the current stack; delete removes by id; no other case touches the current stack; only list changes the pagination |
| StacksSlice.CreateThenDeleteRestores | src/store/slices/stacksSlice.ts:161-201 | creating a stack with a fresh id and then deleting that id gives back the original list |
| StacksSlice.UpdateReplacesListedStack | src/store/slices/stacksSlice.ts:177-185 | an update naming a listed id puts the reply at the first such position, keeping the length |
| SiteContext.TextField | src/contexts/SiteContext.tsx:73-81 | a settings text field is the reply's value when truthy and '' otherwise |
| SiteContext.SocialLink | src/contexts/SiteContext.tsx:83-85 | a social link prefers a truthy flat key, then the nested object's entry, else stays undefined |
| SiteContext.MapSettings | src/contexts/SiteContext.tsx:71-88 | every text field defaults to '' and every social link prefers the flat key |
| SiteContext.MappedTextSettled | src/contexts/SiteContext.tsx:73-81 | a mapped text field is never nullish: it is truthy or '' |
| SiteContext.MapSettingsIdempotent | src/contexts/SiteContext.tsx:71-88 | mapping a mapped record again changes nothing |
| SiteContext.MapSettingsDefaultsAndPrecedence | src/contexts/SiteContext.tsx:73-85 | an empty reply maps to '' and missing links; a flat link beats a nested one |
| SiteContext.Add | src/contexts/SiteContext.tsx:124-132 | the record is appended only when the reply reports success; a thrown call is rethrown with the list unchanged |
| SiteContext.Update | src/contexts/SiteContext.tsx:134-144 | on success every record with the id is merged with the reply's data, and the others and the length are kept; any other outcome leaves the list alone; a throw is rethrown |
| SiteContext.Delete | src/contexts/SiteContext.tsx:146-154 | on success every record with the id is removed; any other outcome leaves the list alone; a throw is rethrown |
| SiteContext.UpdateApplication | src/contexts/SiteContext.tsx:199-211 | without a truthy status no call is made and nothing changes; otherwise the status call's reply is merged as an update |
| SiteContext.DeleteInvite | src/contexts/SiteContext.tsx:227-234 | once the cancel call returns, the invites with the id are removed without looking at a success flag; a throw is rethrown with the list unchanged |
| SiteContext.UnsuccessfulRepliesChangeNothing | src/contexts/SiteContext.tsx:127-149 | a reply reporting failure changes no list and throws nothing, except for `deleteInvite`, which removes anyway |
| SiteContext.AddThenDelete | src/contexts/SiteContext.tsx:157-187 | adding a record and deleting its id leaves the records of other ids in order; with a fresh id the list is restored |
| SiteContext.DeleteAfterUpdate | src/contexts/SiteContext.tsx:167-187 | deleting after an id-preserving update removes what deleting directly would |
| AuthContext.InitAuth | src/contexts/AuthContext.tsx:34-52 | a fetch happens exactly when a non-empty access token is stored; a thrown fetch removes both entries; a success takes the user; loading ends false in every case |
| AuthContext.FailureMessage | src/contexts/AuthContext.tsx:65 | the backend's message wins over the error's own message, which wins over the fixed text; the message is never empty |
| AuthContext.SignInCall | src/contexts/AuthContext.tsx:54-90 | the call succeeds exactly for a success with data and then sets the user without error; any failure keeps the user, records the rethrown non-empty message, and a reply reporting failure yields the fixed message; loading ends false |
| AuthContext.LogoutCall | src/contexts/AuthContext.tsx:92-100 | the user is dropped and storage cleared whatever the backend answered |
| AuthContext.RefreshUser | src/contexts/AuthContext.tsx:102-111 | only a successful reply replaces the user; anything else leaves the state as it was |
| AuthContext.SignInAuthentication | src/contexts/AuthContext.tsx:117 | a successful sign-in with a user authenticates; a failed one leaves authentication as it was; a reply reporting failure shows the fixed message, not the backend's |
| AuthContext.LogoutSignsOut | src/contexts/AuthContext.tsx:92-100 | after logout nobody is authenticated, and the outcome does not depend on the backend's answer |
| AuthContext.MessagePrecedence | src/contexts/AuthContext.tsx:65-67 | the backend's message, then the error's message, then the fixed text |
| AuthContext.MountAndRefreshKeepSession | src/contexts/AuthContext.tsx:35-48 | a mount without a stored token never fetches and ends signed out; a thrown user refresh keeps authentication as it was |
| HiredCandidates.HiredApps | src/pages/admin/HiredCandidates.tsx:25 | the hired list holds exactly the applications with status 'hired', each as often as before |
| HiredCandidates.HiredKeepsOrder | src/pages/admin/HiredCandidates.tsx:25 | the hired list keeps the applications' order |
| HiredCandidates.Toggle | src/pages/admin/HiredCandidates.tsx:58-64 | a selected id loses every occurrence and the other ids keep their order and multiplicity; an unselected id is appended |
| HiredCandidates.ToggleTwiceRestores | src/pages/admin/HiredCandidates.tsx:58-64 | toggling flips membership of the id only, and toggling an unselected id twice restores the selection exactly |
| HiredCandidates.ExportSet | src/pages/admin/HiredCandidates.tsx:33-35 | with a selection, the export holds the selected applications of any status, each as often as in the list; without one, it is the hired list |
| HiredCandidates.ExportKeepsOrder | src/pages/admin/HiredCandidates.tsx:33-35 | the export keeps application order: the export of a concatenation is the export of each part, in turn |
| HiredCandidates.ExportDisabled | src/pages/admin/HiredCandidates.tsx:73 | the button is disabled exactly when no application is hired |
| HiredCandidates.Fields | src/pages/admin/HiredCandidates.tsx:40-47 | the seven fields in column order; a missing phone or rating becomes '' |
| HiredCandidates.HeaderIsColumns | src/pages/admin/HiredCandidates.tsx:37-39 | the header line splits back into the seven column titles |
| HiredCandidates.CsvLines | src/pages/admin/HiredCandidates.tsx:38-49 | the CSV is the header line followed by exactly one line per exported application, in order |
| HiredCandidates.LineFields | src/pages/admin/HiredCandidates.tsx:40-48 | a line with plain fields splits into exactly seven double-quoted fields; a missing phone or rating is `""` |
| LoginPage.Route | src/pages/public/LoginPage.tsx:26-31 | "superadmin" in the address leads to /admin; "admin" without "superadmin" leads to /stack-admin; any other address leads to /dashboard |
| LoginPage.Submit | src/pages/public/LoginPage.tsx:17-38 | the start clears the error and raises loading; success navigates exactly once by the route; failure never navigates and shows the Error's message or 'Invalid credentials'; loading ends false |
| LoginPage.SubmitThroughContext | src/pages/public/LoginPage.tsx:22-34 | wired to the context, the page shows the context's recorded non-empty message and navigates exactly when the context signed in |
| StacksList.Preview | src/components/StacksListWithRedux.tsx:33 | an empty or absent description previews as 'No description'; one of at most 60 characters previews unchanged |
| StacksList.PreviewBounds | src/components/StacksListWithRedux.tsx:33 | a preview is at most 63 characters long; a long description becomes its first 60 characters and '...'; a preview starts with the description |
| StacksList.TileOf | src/components/StacksListWithRedux.tsx:29-30 | the colour falls back to '#3b82f6' and the tooltip falls back to the stack's name |
| StacksList.ViewOf | src/components/StacksListWithRedux.tsx:14-24 | loading takes precedence over a non-empty error, and the error over the empty notice or the grid |
| StacksList.ViewFollowsSlice | src/components/StacksListWithRedux.tsx:14-15 | a pending list shows the spinner, a rejection shows the error, and a fulfilled list shows its items or the notice |

## Left out

- HTTP transport, the axios instances and base URL. Backend replies are
  inputs, and a reply is the outcome after both interceptors have run.
  How the API wrappers' calls pass through the refresh protocol is not
  composed; `ApiClient` models that protocol on its own.
- The axios default `Authorization` header is recorded in `commonAuthorization`.
  How axios merges it into later requests is not modelled. A stored token
  overwrites the merged header, but nothing removes it: once a refresh has
  set it, a logout clears storage without reloading the page, and later
  requests still carry the stale `Bearer` header. `ApiClient.AttachBearer`
  models only the interceptor's own write.
- Concurrency. Simultaneous 401s each run their own refresh, and the
  client does no coalescing. Each call is modelled alone.
- React plumbing: hooks, effects, rendering, `console` logging, and the
  `Export (n)` button label.
- The export's blob, download link and the `toISOString` file name.
  `toLocaleDateString` is the parameter `localDate`.
- CSV escaping is modelled as written: quotes are not doubled, as section
  2 of RFC 4180 would require.
- Floating point. Numbers are integers, so a fractional rating is not
  represented.
- JavaScript strings count UTF-16 code units. `StacksList.Preview` counts
  characters.
- `updateSettings`, `addInvite`, `fetchData` and `fetchApplications` in
  the site context. They change no list through an updater; they replace
  the whole state or only log.
- The thin endpoint wrappers (`applications.ts`, `admins.ts`, `users.ts`,
  `jobs.ts`, `tasks.ts`, `dashboard.ts`, `stacks.ts`, `settings.ts`). So
  are `Seekers.tsx`, `LoginWithRedux.tsx`, `JobsListWithRedux.tsx`,
  `useRedux.ts`, `store/index.ts`, the dummy-data profile lookup of the
  hired-candidates page and the live-backend script `API_INTEGRATION_TEST.js`.
  The jobs slice calls `publish` and `close` endpoints that the jobs
  wrapper does not define. The model takes their outcome as an input, like
  any other reply.
- A created or updated record that is not an object (`push(undefined)`).
  Payload records are plain objects here.
- AuthSlice.SessionThunk: a truthy token that is not a string is kept in
  the slice as its `String()` text, where the code keeps the value itself.
  The backend sends tokens as strings.
- Thunks.RejectionMessage: a truthy `message` that is not a string is
  stored as its `String()` text. The reducers keep the value itself in
  `error`. Backend messages are strings.
- AuthContext.FailureMessage: a truthy backend `message` that is not a
  string becomes its `String()` text. `setError` keeps the value itself.
  Backend messages are strings.
- AuthContext.SignInCall: the TypeError raised by a reply without `data`
  carries one fixed message. The engine's wording for `null` and
  `undefined` data is not distinguished.

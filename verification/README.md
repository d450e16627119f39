# builditdev session, storage and GitHub sign-in core, in Dafny

This project models the state-keeping core of the builditdev desktop app, a
Nuxt front end running under Tauri:

- **`useTauriStoreLoad`** is the string-keyed adapter over the Tauri store
  plugin. It supports `get`, `set`, `remove` and `clear`, and saves after each
  write when `autoSave` is set.
- **Two user stores share `users.bin`:**
  - `useUserStore` keeps one user array under `'users'`, with a unique-email
    rule.
  - `useUserState` keeps one serialized record per email key. It handles
    profile merge, email change and password change, with its
    `currentUser`/`isLoading`/`error` state.
- **Two session holders** mirror a user into `localStorage['currentUser']`:
  `useCurrentUser` and the module-wide `useAuthState`.
- **The GitHub OAuth flow (`useAuth`):**
  - the popup `login`;
  - the `handleAuthCallback` chain: listener removal, origin check, error and
    code checks, code exchange, identity fetch, then session or forced logout;
  - restore on mount;
  - `fetchRepos`.
- **The token relay `POST /api/auth/github`.**
- **The GitHub REST helpers (`useGitHubApi`):** headers, `.git` stripping,
  URLs, 404 mapping, listing normalisation and base64 content.
- **The navigation catalog (`usePages`):** route filter and category grouping.
- **The route guard (`middleware/auth`).**
- **The store dump for JSONata (`utils/jsonataGenerator`).**
- **The fluid-cursor settings (`useFluidSettings`).**

Modelling conventions:

- **JSON.** `JSON.stringify`/`JSON.parse` are modelled by `Js.Text`.
  - Stringified text is `Serialized(v)` and parses back to `v`.
  - Any other string is `Malformed`, and parsing it throws a `SyntaxError`.
  - The empty string is the only falsy text.
- **Exceptions** are `Js.Exn`: an `Error` with its message, or a non-`Error`
  value.
- **Async results.** Promise settlement is `Js.Outcome`, and results with
  errors are `Js.Result`.
- **Browser storage.** Each `localStorage` key is a `Browser.StorageItem`
  object. Composables that use the same key share that object.
- **Plugin, network and page I/O are parameters:**
  - a Tauri read or write either succeeds or fails;
  - `fetch` either rejects or answers with a status and a body;
  - the popup is open or blocked;
  - a message arrives or not;
  - `atob` and `JSON.parse` of stored values are function parameters.
- **Side effects of `useAuth`.** Everything the flow does outside its own
  state goes into an ordered `trace` of effects: listener changes, requests,
  notifications, closing the popup and navigation.
- **Vue watchers** are run right after the assignment they observe.
- **Client-only guards.** `window` and `import.meta.client` are taken as
  present.

- In `usePages`, a route with an empty or missing `meta.category` is placed
  in the "other" group: `route.meta.category || "other"` is never empty, so
  the early return at `app/composables/pages.ts:16` cannot happen
  (`Pages.CategoryOf`).
- `login()` registers the same `handleAuthCallback` function each time, and
  the DOM ignores a duplicate registration, so `listening` is a flag.

## Model

| member | source | states |
|---|---|---|
| TauriStore.MutationOutcome | app/composables/useTauriStore.ts:23-57 | a mutation rejects exactly when the write fails, or when saving was due and the save fails, and then with the plugin's own error (errors are rethrown, unlike `get`) |
| TauriStore.Store.Get | app/composables/useTauriStore.ts:13-21 | the stored value for a present key, null for an absent one, and null as well when the plugin fails |
| TauriStore.Store.Set | app/composables/useTauriStore.ts:23-33 | the key gets the value unless the write fails; every other key reads as before; the file equals memory after a successful write with `autoSave`, and is untouched otherwise |
| TauriStore.Store.Remove | app/composables/useTauriStore.ts:35-45 | the key is gone (reads as null) unless the write fails; other keys unchanged; saved as for `set` |
| TauriStore.Store.Clear | app/composables/useTauriStore.ts:47-57 | the store is empty unless the write fails; saved as for `set` |
| TauriStore.Store.Load | app/composables/useTauriStore.ts:10-11 | memory and file start equal, with the given `autoSave` |
| TauriStore.SetThenGet | app/composables/useTauriStore.ts:13-33 | `set(k, v)` then `get(k)` gives `v` whenever the write went through, and with `autoSave` the file equals memory |
| TauriStore.ClearThenGet | app/composables/useTauriStore.ts:47-57 | after a `clear` that went through, every key reads as null |
| UserStore.UsersOf | app/composables/useUserStore.ts:18-19 | the stored array when the value under `'users'` is one, `[]` when it is missing or not an array |
| UserStore.ListRead | app/composables/useUserStore.ts:16-24 | `getUsers` over the store: a failed read is swallowed into `[]` |
| UserStore.UserList.GetUsers | app/composables/useUserStore.ts:16-24 | `[]` on a failed read, a missing key or a non-array value; the stored array otherwise |
| UserStore.CredentialsIndex | app/composables/useUserStore.ts:44 | the index of the first user whose email and password both match, or -1 exactly when none does |
| UserStore.UserList.FindUser | app/composables/useUserStore.ts:41-49 | the first listed user that matches both credentials (which matters once two users share an email), and null exactly when no listed user does |
| UserStore.EmailIndex | app/composables/useUserStore.ts:54 | the first index with the email, or -1 exactly when no user has it |
| UserStore.UserList.AddUser | app/composables/useUserStore.ts:26-39 | rejects with 'User already exists' and writes nothing on a duplicate email; otherwise stores the old list plus the user (a failed read stores `[user]`) |
| UserStore.AddKeepsEmailsUnique | app/composables/useUserStore.ts:30-34 | appending a user with a fresh email to a list with unique emails keeps them unique |
| UserStore.UpdatedUser | app/composables/useUserStore.ts:61-67 | the update's fields override; username, email and password fall back to the existing values when the update leaves them out |
| UserStore.UserList.UpdateUser | app/composables/useUserStore.ts:51-75 | rejects with 'User not found' and writes nothing when no user has the email; otherwise stores the list with the first match replaced by the updated record |
| UserStore.UpdateTouchesOneEntry | app/composables/useUserStore.ts:69-70 | the updated list has the same length, the same entries at every other index, and the merged record at the matched index |
| UserStore.UpdateCanDuplicateEmails | app/composables/useUserStore.ts:61-67 | a concrete list with unique emails where an email update leaves two users with one email: the new email is not re-checked |
| Users.Spread | app/composables/useUserState.ts:65-68 | `{ ...u, ...patch }`: each field the patch sets overrides, every other field is kept |
| Users.SpreadNoChanges | app/composables/useUserState.ts:65-68 | spreading an empty patch copies the record |
| Users.SpreadIdempotent | app/composables/useUserState.ts:65-68 | spreading the same patch twice equals spreading it once |
| UserState.Classify | app/composables/useUserState.ts:58-66 | null and the empty string read as not found; a serialized record parses to that record; an array or malformed text makes the parse throw |
| UserState.ReadStored | app/composables/useUserState.ts:57-63 | a failed read or a missing key reads as not found; a found record is the one stored under the email |
| UserState.State.constructor | app/composables/useUserState.ts:13-16 | a new `useUserState()` starts with no user, not loading and no error; the initial `loadFromLocalStorage()` call at line 130 is modelled separately by UserState.State.LoadFromLocalStorage |
| UserState.State.LoadFromLocalStorage | app/composables/useUserState.ts:19-24 | a non-empty stored user becomes `currentUser`; an absent or empty one changes nothing; a malformed one throws |
| UserState.State.SaveUser | app/composables/useUserState.ts:27-47 | `'currentUser'` and `currentUser` are set first; the record is stored under the user's email; the result is true exactly when that write settled, else false with the error's message or 'Failed to save user'; `isLoading` ends false |
| UserState.State.UpdateProfile | app/composables/useUserState.ts:50-89 | no signed-in email: false, nothing touched; not found: false with 'User not found'; an email change: false with the TypeError of `userStore.delete`; otherwise the merged record is stored under the unchanged email and becomes `currentUser` and `'currentUser'`, or false with the write's error; `isLoading` ends false |
| UserState.State.UpdateProfileMovingKey | app/composables/useUserState.ts:50-89 | the corrected `updateProfile`, case by case: without a session nothing changes; a missing record or an unparsable one fails with its own error and changes nothing; with the same email the merged record is written and `ok` is the write's outcome; with a new email `ok` holds exactly when both the removal of the old key and the write of the new one succeed, the old key is gone unless its removal failed, and the new key is present exactly when its write succeeded; on success `currentUser` and `'currentUser'` hold the merged record, on failure both are left as they were |
| UserState.State.UpdatePassword | app/composables/useUserState.ts:92-127 | no signed-in email, not found, or a wrong current password: false with the matching error and no write; otherwise the record is stored with only the password changed; `currentUser` and `'currentUser'` are never touched |
| UserState.PasswordChangeOnlyTouchesPassword | app/composables/useUserState.ts:114-117 | the written record is the stored one with only `password` replaced |
| CurrentUser.WithGithub | app/composables/useCurrentUser.ts:36-40 | the user marked connected with the token, every other field kept |
| CurrentUser.WithGithubIdempotent | app/composables/useCurrentUser.ts:34-43 | connecting twice with the same token equals connecting once |
| CurrentUser.Holder.constructor | app/composables/useCurrentUser.ts:11-48 | starts with no user and runs `loadUser` |
| CurrentUser.Holder.LoadUser | app/composables/useCurrentUser.ts:14-27 | a stored record becomes `user` and stays mirrored; a malformed one is removed and `user` becomes null; an absent or empty key leaves `user` as it was |
| CurrentUser.Holder.Logout | app/composables/useCurrentUser.ts:29-32 | the key is removed and `user` is null |
| CurrentUser.Holder.ConnectGithub | app/composables/useCurrentUser.ts:34-43 | without a user nothing changes; with one, `user` becomes the connected record and storage holds it |
| AuthState.Hydrate | app/composables/useAuthState.ts:12-22 | the module's initial user: the parsed stored record, or null for an absent, empty or malformed value; it never throws |
| AuthState.Session.constructor | app/composables/useAuthState.ts:10-22 | `currentUser` starts as the hydrated value and storage is left as it was |
| AuthState.Session.IsLoggedIn | app/composables/useAuthState.ts:24 | true exactly when `currentUser` is non-null |
| AuthState.Session.Sync | app/composables/useAuthState.ts:37-43 | the watcher: storage holds the serialized user, or no key for null |
| AuthState.Session.Assign | app/composables/useAuthState.ts:37-43 | after any assignment and the watcher, the held and stored user agree |
| AuthState.Session.Login | app/composables/useAuthState.ts:26-29 | `currentUser` is the user, storage holds it serialized, and the session reads as logged in |
| AuthState.Session.Logout | app/composables/useAuthState.ts:31-34 | `currentUser` is null, the key is gone, and the session reads as logged out |
| AuthState.HydrateAfterSync | app/composables/useAuthState.ts:12-43 | hydrating from what the watcher stored restores the same user |
| AuthFlow.SignIn | app/composables/useAuth.js:57-100 | the exchange-and-identity chain succeeds exactly when both responses are ok and parse, with the relay's token and the GitHub user; a non-ok exchange or identity response fails with its status text in the message |
| AuthFlow.Requests | app/composables/useAuth.js:60-86 | the exchange request always goes out first; the identity request follows exactly when a token body was read, and it carries `token <access_token>` from that body |
| AuthFlow.Ending | app/composables/useAuth.js:119-147 | success: exactly one notification, a "Success" one, first and navigation to the dashboard last; failure: one "Error" notification with the error's message or the fallback, and no navigation; the popup is closed exactly when the event has a source |
| AuthFlow.RepoToken | app/composables/useAuth.js:211 | the local user's GitHub token when it is set, else the OAuth token |
| AuthFlow.Auth.Restore | app/composables/useAuth.js:199-207 | authenticated with the stored token and user only when both keys are truthy; a malformed `gh_user` throws after the token was taken |
| AuthFlow.RestoreAfterSignIn | app/composables/useAuth.js:100-207 | what a sign-in stores, a later `useAuth()` restores: a truthy token gives back the same user and the same token; a missing token is stored as the text "undefined" and restores as that text; an empty token does not restore a session |
| AuthFlow.Auth.constructor | app/composables/useAuth.js:6-12 | a new `useAuth()` starts signed out, with no user, no token, no message listener and no effects |
| AuthFlow.Auth.Logout | app/composables/useAuth.js:19-27 | not authenticated, no user, no token, and both keys removed |
| AuthFlow.Auth.HandleAuthCallback | app/composables/useAuth.js:29-149 | the listener is removed before any check; a foreign origin, a missing code or an `error` field make no request, and an error field gives exactly one Error notification with its text; null data throws; after the exchange, success records the token and user in the refs and both keys and connects the local user, with `'currentUser'` holding its serialized copy (untouched when there is no local user), while any failure logs out, even an existing session; the session invariant is kept |
| AuthFlow.Auth.RecordSession | app/composables/useAuth.js:104-117 | the refs and both keys hold the token and user, the local user (if any) is marked connected and `'currentUser'` holds its serialized copy, a missing local user leaves `'currentUser'` as it was, and the session invariant holds |
| AuthFlow.Auth.CompleteSignIn | app/composables/useAuth.js:57-148 | requests, then the success or failure ending, in trace order; success records the session, the connected local user and its serialized copy in `'currentUser'`, while failure logs out and leaves the local user untouched |
| AuthFlow.Auth.Login | app/composables/useAuth.js:151-196 | a blocked popup throws before any listener is registered; otherwise the promise always rejects with 'Authentication window was closed', also after a successful sign-in, and the listener ends removed |
| AuthFlow.Auth.FetchRepos | app/composables/useAuth.js:209-237 | with `page` 1 and `perPage` 10 by default: no usable token gives `[]` and no request; a failed, non-ok or unparseable response gives `[]` and one Error notification; otherwise the parsed list |
| TokenRelay.Relay | server/api/auth/github.post.ts:3-46 | a falsy code gives 'No code provided'; a non-ok upstream gives 'Failed to exchange code for token'; an upstream `error` gives `error_description`, else `error`; success returns only the token; read, network and parse failures carry their message, else the fallback |
| TokenRelay.Fail | server/api/auth/github.post.ts:39-44 | every caught error becomes status 500 with `error.message`, or 'Failed to authenticate with GitHub' when that is empty |
| TokenRelay.FailuresAre500WithMessage | server/api/auth/github.post.ts:39-44 | every failure is a 500 with a non-empty message |
| TokenRelay.SucceedsExactlyWhen | server/api/auth/github.post.ts:8-38 | the route answers with a token exactly when it had a code and GitHub answered ok without `error` |
| GitHubApi.GetHeaders | app/composables/useGitHubApi.js:12-24 | `Accept` always; `Authorization` from the OAuth token when truthy, else from the configured token when truthy, else absent |
| GitHubApi.CleanName | app/composables/useGitHubApi.js:30 | one trailing `.git` is removed; a name not ending in `.git` is unchanged |
| GitHubApi.CleanNameOfSuffixed | app/composables/useGitHubApi.js:30 | any name with `.git` appended cleans back to that name |
| GitHubApi.CleanNameStripsOnlyOne | app/composables/useGitHubApi.js:30 | `a.git.git` cleans to `a.git` |
| GitHubApi.ContentsUrl | app/composables/useGitHubApi.js:58-60 | ends in `/contents/<path>` for a non-empty path and in `/contents` otherwise |
| GitHubApi.Checked | app/composables/useGitHubApi.js:36-45 | a 404 maps to the not-found error before any other status check; another non-ok status throws GitHub's message or the fallback; an ok status yields the parsed body |
| GitHubApi.FetchRepoInfo | app/composables/useGitHubApi.js:27-50 | the request goes to the repository URL; 404: the repository-not-found error naming owner and cleaned name; ok: the body as received; other errors carry a non-empty message |
| GitHubApi.AsList | app/composables/useGitHubApi.js:78 | an array is returned as is; a single object is wrapped in a one-element list |
| GitHubApi.FetchRepoContents | app/composables/useGitHubApi.js:53-83 | the request goes to the contents URL of `path` (the root by default); 404: the path-not-found error; ok: the listing, or the single object as a one-element list |
| GitHubApi.FetchFileContent | app/composables/useGitHubApi.js:86-114 | the request goes to the file URL of `path`; 404: the file-not-found error; ok: the content decoded only when `encoding` is "base64", otherwise the raw content |
| GitHubApi.FileUrl | app/composables/useGitHubApi.js:91 | always ends in `/contents/<path>`, also for an empty path, and equals the listing URL for a non-empty one |
| GitHubApi.NotFoundIgnoresBody | app/composables/useGitHubApi.js:36-38 | a 404 gives the same failure whatever the body holds, for all three requests |
| Pages.VisibleRoutes | app/composables/pages.ts:5-12 | only routes passing the filter remain, and every passing route remains: a route named exactly "index" or "all", or whose name contains "auth-callback", "organizations-ComponentForm" or "organizations-name", never appears |
| Pages.VisibleRoutesCounts | app/composables/pages.ts:5-12 | the filter keeps each visible route as many times as the router lists it and drops every other route |
| Pages.VisibleRoutesAppend | app/composables/pages.ts:5-12 | the filter keeps router order: filtering two lists one after the other gives the two filtered lists one after the other |
| Pages.CategoryOf | app/composables/pages.ts:15-16 | the category, or "other" when it is empty or missing; never empty, so the early return cannot happen |
| Pages.ChildOf | app/composables/pages.ts:27-32 | label `meta.name` else `route.name`, icon falling back to 'i-lucide-file', description and link from the route |
| Pages.IconOf | app/composables/pages.ts:21 | the configured category icon, else 'i-lucide-folder' |
| Pages.FirstOf | app/composables/pages.ts:18-25 | an index holding a route of the category, or the list length when there is none |
| Pages.FirstOfIsFirst | app/composables/pages.ts:18-25 | no earlier route has the category, so the group is created by the category's first route |
| Pages.ChildrenIn | app/composables/pages.ts:27-32 | empty exactly when no route has the category |
| Pages.AddRoute | app/composables/pages.ts:14-35 | the callback with its two writes (create the group, then write it back with the new child) performs exactly one step of the reduce |
| Pages.GroupRoutes | app/composables/pages.ts:14-35 | the loop's accumulator ends as the reduce over all the routes |
| Pages.UsePages | app/composables/pages.ts:5-37 | `pages` is `Object.values` of the reduce over the visible routes |
| Pages.GroupedContents | app/composables/pages.ts:14-35 | a group exists exactly for each category that occurs; it has its configured label and icon, the first route's path, and one child per route of the category in route order |
| Pages.GroupedOrder | app/composables/pages.ts:18-27 | groups appear in the order in which their categories first occur |
| Pages.GroupedTotal | app/composables/pages.ts:14-37 | every route is one child of one group: the children add up to the number of routes |
| Pages.CatalogCoversVisibleRoutes | app/composables/pages.ts:5-37 | the catalog lists every visible route exactly once in total |
| AuthMiddleware.Guard | app/middleware/auth.ts:7-15 | signed out and not on '/': redirect to '/'; signed in on '/login' or '/signup': redirect to '/dashboard'; every other case proceeds, so a signed-out visitor on '/' is never redirected |
| AuthMiddleware.RedirectTargetProceeds | app/middleware/auth.ts:7-15 | a redirect target is always let through, so there is never a second redirect |
| AuthMiddleware.UserRefNamed | app/composables/useCurrentUser.ts:50-55 | the object `useCurrentUser` returns has a user ref only under `user` |
| AuthMiddleware.GuardAsWritten | app/middleware/auth.ts:4-9 | as written, the guard reads `currentUser` from that object |
| AuthMiddleware.GuardAsWrittenAlwaysThrows | app/middleware/auth.ts:4-7 | as written, every navigation throws a TypeError |
| AuthMiddleware.GuardCorrected | app/middleware/auth.ts:4-15 | reading the `user` ref, the guard decides as `Guard` does |
| StoreDump.Decode | utils/jsonataGenerator.ts:26-32 | the parsed value when the stored value parses, the raw value otherwise |
| StoreDump.GenerateStoreDataAsWritten | utils/jsonataGenerator.ts:18-45 | a load failure is rethrown |
| StoreDump.GenerateStoreDataAsWrittenNeverSucceeds | utils/jsonataGenerator.ts:23 | as written, every call rejects, with the TypeError of `store.entries` once the store has loaded |
| StoreDump.GenerateStoreData | utils/jsonataGenerator.ts:18-45 | the loop builds the object of decoded entries; the result names the store and carries the timestamp; a load failure is rethrown |
| StoreDump.DumpLists | utils/jsonataGenerator.ts:25-34 | one data key per stored key, in listing order, holding the parsed value or else the raw value |
| StoreDump.ConvertToJsonata | utils/jsonataGenerator.ts:47-56 | store and timestamp are kept; one `{ key, value }` per data key in key order, with `value` the data's value |
| StoreDump.ConvertRoundTrip | utils/jsonataGenerator.ts:51-54 | rebuilding an object from the JSONata entries gives back the dump's data |
| StoreDump.All | utils/jsonataGenerator.ts:64-66 | all values in order when every dump succeeds; otherwise a rejection with the reason of a failed one |
| StoreDump.GenerateAllStoreDataAsWritten | utils/jsonataGenerator.ts:58-76 | as written, the whole call always rejects |
| StoreDump.GenerateAllStoreData | utils/jsonataGenerator.ts:58-76 | succeeds exactly when all three stores load, with its own timestamp and the dumps of "profiles", "users" and "organizations" in that order, each under the timestamp its own call read; otherwise rejects with a failing store's error |
| JsObject.Put | utils/jsonataGenerator.ts:28-31 | `acc[key] = v` overwrites in place for a known key and appends a new key last |
| JsObject.Entries | utils/jsonataGenerator.ts:51 | `Object.entries` lists each key with its value, in key order |
| JsObject.Values | app/composables/pages.ts:37 | `Object.values` lists the values in key order |
| JsObject.FromEntries | utils/jsonataGenerator.ts:25-34 | the reduce's object has exactly the keys of the entries |
| JsObject.FromEntriesOfEntries | utils/jsonataGenerator.ts:51-54 | rebuilding an object from its own entries gives it back |
| JsObject.EntriesOfFromEntries | utils/jsonataGenerator.ts:25-34 | entries with distinct keys come back unchanged, in order, from the object built from them |
| FluidSettings.InitialSettings | app/composables/useFluidSettings.ts:50-52 | the stored record when present, the defaults when absent or empty, and the parse error otherwise |
| FluidSettings.Merge | app/composables/useFluidSettings.ts:64-66 | patched fields take the patch's values; all other fields are kept |
| FluidSettings.MergeEmpty | app/composables/useFluidSettings.ts:64-66 | an empty patch changes nothing |
| FluidSettings.MergeIdempotent | app/composables/useFluidSettings.ts:64-66 | applying a patch twice equals applying it once |
| FluidSettings.Load | app/composables/useFluidSettings.ts:50-61 | the settings start from the initial record and storage is not written until the first change |
| FluidSettings.Fluid.UpdateSettings | app/composables/useFluidSettings.ts:55-66 | the settings are the merge of the old settings and the patch, and storage holds them serialized |
| FluidSettings.Fluid.ResetSettings | app/composables/useFluidSettings.ts:55-70 | the settings equal the defaults, and storage holds them serialized |
| Browser.SendNotification | app/composables/useTauriNotificationSendNotification.ts:8-13 | the notification has the given title and the body, or '' when the body is missing |
| Js.InstanceMessage | app/composables/useUserState.ts:42 | the message of an `Error`, the fallback for any other thrown value |
| Js.MessageOr | server/api/auth/github.post.ts:43 | the error's message when it is non-empty, else the fallback, so never empty when the fallback is not |

## Left out

- **I/O is reduced to its outcomes.** Console logging, the OAuth popup's
  size, position and URL, and the `setTimeout`/`setInterval` timing are not
  modelled. `login` only distinguishes "blocked" from "opened", and an opened
  popup at most delivers one message before it closes or times out.
- **Network requests.** Requests are recorded as trace effects or URLs.
  Their other headers, HTTP method and body encoding are not modelled.
- GitHubApi.GetHeaders: the headers it computes are not tied to the
  requests. `fetch` receives only the URL, so the model does not state that
  each request carries these headers.
- **Plugin failures.**
  - `Store.load` itself failing is not modelled for the user stores: they
    work on one already-loaded store, although the source loads `users.bin`
    again on every call.
  - A failing `localStorage` write (quota) is not modelled.
- **JSON values.**
  - Only the distinction between stringified text and other text is
    modelled.
  - `undefined` versus `null` versus a missing property inside records is
    not modelled.
  - An optional field is `None` when unset.
  - Key order for integer-like keys in JS objects (which JS lists first) is
    not modelled.
- **`useFluidCursorState`.** It only toggles a flag and forwards settings to
  a WebGL component.
- **The fluid defaults** are kept as opaque values, and no arithmetic is
  done on them. JS numbers are written as Dafny reals.
- **Timestamps** (`new Date().toISOString()`) are parameters. `generateAllStoreData` reads the clock once per store dump and once more for its own result. The model passes these readings as a function of the call's position, and does not constrain how they relate to each other.
- StoreDump.All: with several failures, `Promise.all` rejects with whichever
  store fails first in time; the model takes the first in list order.
- StoreDump.GenerateStoreData: the corrected dump reads the plugin's own
  entry listing, passed in as a parameter, because the adapter has no
  `entries`. The listing's order is the plugin's.
- AuthFlow.Auth.Login: its contract states the flow's outcome for one
  delivered message, but not the interleaving of several `login` calls.
- Vue reactivity: the three session holders are separate objects over a
  shared storage key. Changes made by one holder do not reach another
  holder's in-memory ref until it reloads.
- Pages.GroupedContents and JsObject.Put: keys that collide with `Object.prototype` members are not modelled. Objects are treated as plain dictionaries. In JS, `acc[category]` for a category such as "constructor" or "toString" finds the inherited member, so `usePages` throws on the `children.push`. Likewise, `acc["__proto__"] = v` in the store dump sets the prototype instead of adding a key. The contracts hold for keys that are not names of `Object.prototype` members.

## Findings

| source | as written | input that shows it | evidently intended | confidence | as-written member | corrected member |
|---|---|---|---|---|---|---|
| app/composables/useUserState.ts:72 | `userStore.delete(email)`; the adapter exposes `remove`, not `delete` | any `updateProfile({ email })` with a new, non-empty email for a signed-in user whose record exists | remove the old key, then store the merged record under the new email | high (not executed) | UserState.State.UpdateProfile | UserState.State.UpdateProfileMovingKey |
| utils/jsonataGenerator.ts:23 | `store.entries()`; the adapter returns only `get`, `set`, `remove` and `clear` | any `generateStoreData("users")` once the store has loaded; hence every `generateAllStoreData()` | list the store's entries and dump them | high (not executed) | StoreDump.GenerateStoreDataAsWritten | StoreDump.GenerateStoreData |
| app/middleware/auth.ts:4 | destructures `currentUser` from `useCurrentUser()`, which returns `user` | any navigation to a page that uses the `auth` middleware, signed in or not | read the `user` ref and decide on it | high (not executed) | AuthMiddleware.GuardAsWritten | AuthMiddleware.GuardCorrected |

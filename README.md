# Mutumwa chat client: verified model of its state and string logic

This project models the parts of the Mutumwa chat front end (a Next.js client
for n8n webhooks) that behave like small state machines or string and list
transformations. Each part is stated in Dafny and proved against a
specification:

- the passcode gate with its attempt counter, lockout and sign-in expiry,
  persisted in browser storage (`Auth`);
- the login form's countdown, `m:ss` formatting, submit guards and
  failure messages (`Login`);
- the profile editor's ordered field map: load, save, cancel, field and
  array edits, and drag reordering (`Profile`);
- the application context: new chat, reset, loading and deleting sessions,
  the message conversion and the sidebar thread upsert (`App`, with the
  shared records in `ChatTypes`);
- the user-id cookie: parsing `document.cookie`, and the string written when
  setting or clearing it (`UserManager`);
- the chat-history route: picking the table, mapping rows to messages and
  the response counts (`MessagesRoute`);
- the theme provider (`ThemeContext`) and the domain provider
  (`DomainContext`).

`Js` gathers the JavaScript semantics these pieces rely on:
- `String.prototype.trim`, `split` and `startsWith`;
- decimal `toString` and `parseInt`, including `NaN`;
- a JSON value type.

Time, fresh UUIDs and the results of fetches and queries are parameters.
Browser storage is a `map` field. React state setters are modelled as
ordered updates of class fields, and each handler as one atomic transition.

The gate's restore logic is modelled as written, including one quirk. When a
stored lockout has expired, the restore step removes the attempts key but
still sets the count from the value it read before the removal. So after a
reload, one wrong passcode locks the gate again
(`Auth.RelockAfterExpiredLockout`).

## Model

| member | source | states |
|---|---|---|
| Auth.KeysDistinct | app/contexts/AuthContext.tsx:34-37 | The four storage keys are pairwise distinct. |
| Auth.Restore | app/contexts/AuthContext.tsx:31-77 | After `checkAuth`: loading is off; locked out iff already locked or the stored lockout end is in the future; signed in iff already signed in or the stored marker is "authenticated" and the stored expiry is in the future; storage only loses keys. |
| Auth.LoginStep | app/contexts/AuthContext.tsx:79-116 | While locked, nothing changes and the result is false. True iff the passcode is the configured one, which zeroes the count, lifts the lockout, removes the attempts and lockout keys and stores the marker and `now + 86400000`. A wrong passcode stores the incremented count; reaching 5 locks until `now + 900000`. |
| Auth.LoginStepFrame | app/contexts/AuthContext.tsx:84-108 | A sign-in keeps the lockout end time, ends with exactly the old keys minus the attempts and lockout keys plus the two sign-in keys, and keeps every other value. A locking failure ends with exactly the old keys plus the attempts and lockout keys and keeps every other value. |
| Auth.LogoutStep | app/contexts/AuthContext.tsx:118-122 | Only the sign-in flag and the two sign-in keys change; every other key and field is kept. |
| Auth.SignInSurvivesReload | app/contexts/AuthContext.tsx:56-68 | After a successful sign-in at `t`, a reload at `t'` is signed in iff `t' < t + 24h`; otherwise both sign-in keys are removed. |
| Auth.RestoreStoredLockout | app/contexts/AuthContext.tsx:36-54 | For a stored lockout end and count: before the end the restore is locked until that end; afterwards it is unlocked, both keys are gone, and the stored count is still loaded. |
| Auth.LockoutSurvivesReload | app/contexts/AuthContext.tsx:36-54 | After the locking failure at `t`, a reload before `t + 15min` is locked until that same end; a later one removes the lockout and attempts keys yet restores the stale count. |
| Auth.RelockAfterExpiredLockout | app/contexts/AuthContext.tsx:100-115 | After an expired lockout and a reload, a single wrong passcode locks for another 15 minutes. |
| Auth.LogoutKeepsLockout | app/contexts/AuthContext.tsx:118-122 | After logout, the next restore is signed out and has the same lockout and count as before. |
| Auth.RestoreIdempotent | app/contexts/AuthContext.tsx:31-77 | Running the restore logic twice equals running it once. |
| Auth.AuthProvider.constructor | app/contexts/AuthContext.tsx:23-28 | Initial state: signed out, loading, count 0, not locked, over the given storage. |
| Auth.AuthProvider.CheckAuth | app/contexts/AuthContext.tsx:31-77 | The fields and storage become `Restore` of the old state. |
| Auth.AuthProvider.CheckLockout | app/contexts/AuthContext.tsx:40-49 | The lockout step of `checkAuth`. |
| Auth.AuthProvider.LoadAttempts | app/contexts/AuthContext.tsx:51-54 | The attempt-count step of `checkAuth`. |
| Auth.AuthProvider.CheckSignIn | app/contexts/AuthContext.tsx:56-68 | The sign-in step of `checkAuth`. |
| Auth.AuthProvider.Login | app/contexts/AuthContext.tsx:79-116 | The new state and result are those of `LoginStep`. |
| Auth.AuthProvider.Logout | app/contexts/AuthContext.tsx:118-122 | The new state is that of `LogoutStep`. |
| Login.PadStart | components/login-page.tsx:49 | `padStart`: the length is the original or the target, whichever is longer; the original is the suffix and the prefix is the fill character. |
| Login.Seconds | components/login-page.tsx:48 | The seconds field is below 60. |
| Login.PaddedSeconds | components/login-page.tsx:48-49 | The padded seconds have exactly two digits that read back as the seconds. |
| Login.FormatTimeSplitsSeconds | components/login-page.tsx:46-50 | minutes * 60 + seconds equals the whole seconds in `ms`. |
| Login.ReadClockOfFormatTime | components/login-page.tsx:46-50 | Reading `m:ss` back gives the whole seconds of `ms`. |
| Login.FormatFullLockout | components/login-page.tsx:46-50 | The full lockout formats as "15:00". |
| Login.Countdown | components/login-page.tsx:33 | The countdown is zero iff the end has passed, and otherwise the time left until the end. |
| Login.FailureMessage | components/login-page.tsx:74-79 | Locked message iff `maxAttempts - attemptCount - 1 <= 0`; otherwise the invalid message with that remaining count. |
| Login.InvalidWording | components/login-page.tsx:78 | The invalid message's wording, with "attempt" plural for every count except 1. |
| Login.FailureMessageAgreesWithGate | components/login-page.tsx:74-76 | With the gate's limit, the form reports the lock on exactly the failure that makes the gate lock. |
| Login.LoginForm.constructor | components/login-page.tsx:24-27 | Empty passcode, no error, not loading, no time remaining. |
| Login.LoginForm.Tick | components/login-page.tsx:30-44 | The remaining time becomes the countdown; reload iff it reached zero. |
| Login.LoginForm.Submit | components/login-page.tsx:52-84 | Locked: sets the lock message and never calls `onLogin`. Blank passcode: sets "Please enter a passcode" and never calls it. Otherwise calls it with the passcode; on failure sets the failure message and clears the passcode; loading ends off. |
| Profile.IndexOf | components/profile-modal.tsx:176-177 | `indexOf`: the first index holding the element, or -1 exactly when it is absent. |
| Profile.SpliceStart | components/profile-modal.tsx:179-180 | `splice`'s start index: within bounds, and equal to the given start when that is in range. |
| Profile.SpliceRemove | components/profile-modal.tsx:142 | `splice(i, 1)`: one element fewer when the resolved start is in range; the elements before it stay and the ones after it move down by one. |
| Profile.SpliceRemoveMultiset | components/profile-modal.tsx:179 | Removing the element at an index keeps every other element with its multiplicity. |
| Profile.SpliceRemoveInserted | components/profile-modal.tsx:179-180 | Removing the element just inserted at an index gives back the sequence. |
| Profile.SpliceInsert | components/profile-modal.tsx:180 | `splice(i, 0, x)` puts `x` at the resolved start; the result is a permutation of the input plus `x`. |
| Profile.RemoveAll | components/profile-modal.tsx:153 | The filter removes every occurrence of the key and keeps every other element, with multiplicity. |
| Profile.RemoveAllConcat | components/profile-modal.tsx:153 | The filter distributes over concatenation, so the relative order of the kept keys is unchanged. |
| Profile.Keys | components/profile-modal.tsx:59 | `Object.keys`: one key per entry, in order. |
| Profile.ToMap | components/profile-modal.tsx:58 | The map has exactly the entries' keys, and each value when the keys are distinct. |
| Profile.Assign | components/profile-modal.tsx:77 | Assigning an existing key keeps the key order and replaces its value; a new key is appended. |
| Profile.OrderedMemoryShape | components/profile-modal.tsx:74-79 | The saved object has distinct keys, exactly the `fieldOrder` keys present in the edited map, in `fieldOrder` order, with the edited values. |
| Profile.SaveUneditedIsIdentity | components/profile-modal.tsx:74-79 | Saving an unreordered, unedited object rebuilds it exactly. |
| Profile.SaveAfterLoadIsIdentity | components/profile-modal.tsx:55-59 | Loading and saving without edits returns the loaded working memory. |
| Profile.ReorderMoves | components/profile-modal.tsx:174-183 | Dragging `d` over `t` gives a permutation with `d` at `t`'s old index; removing `d` from both orders leaves the same sequence. |
| Profile.SetItem | components/profile-modal.tsx:132-133 | Index assignment replaces only that element, extending with holes (null) past the end. |
| Profile.RemoveItem | components/profile-modal.tsx:141-142 | Exactly element `i` is removed; an index past the end changes nothing. |
| Profile.ProfileModal.constructor | components/profile-modal.tsx:42-66 | The editor starts empty, not editing, with no error. |
| Profile.ProfileModal.FetchCompleted | components/profile-modal.tsx:42-66 | On success, the memory is loaded, the edited map is its working memory (or empty) and the order is its keys. On failure, the error is set and nothing else changes. |
| Profile.ProfileModal.BuildOrderedMemory | components/profile-modal.tsx:74-79 | The loop builds `OrderedMemory` of the order and the edited map: distinct keys, the order's keys present in the map, with the map's values. |
| Profile.ProfileModal.Save | components/profile-modal.tsx:68-105 | Sends the ordered object. On success, reloads and leaves editing; if the reload fails, its error is shown; if the save fails, "Failed to save changes" is shown and nothing else changes. |
| Profile.ProfileModal.Cancel | components/profile-modal.tsx:107-114 | Resets the edited map and the order to the loaded memory, leaves editing and clears both new-field inputs. |
| Profile.ProfileModal.FieldChange | components/profile-modal.tsx:116-121 | Only key `k` of the edited map changes. |
| Profile.ProfileModal.ArrayItemAdd | components/profile-modal.tsx:123-129 | The key's array (or [] when missing) gains one "" at the end. |
| Profile.ProfileModal.ArrayItemChange | components/profile-modal.tsx:131-138 | The key's array has element `i` set to the value. |
| Profile.ProfileModal.ArrayItemDelete | components/profile-modal.tsx:140-147 | The key's array loses element `i`. |
| Profile.ProfileModal.DeleteField | components/profile-modal.tsx:149-154 | The key leaves the map and every occurrence leaves the order; nothing else changes. |
| Profile.ProfileModal.AddNewField | components/profile-modal.tsx:156-166 | A blank key changes nothing. Otherwise the untrimmed key gets the value, is appended to the order without de-duplication, and both inputs are cleared. |
| Profile.ProfileModal.DragStart | components/profile-modal.tsx:168-170 | The dragged key is recorded. |
| Profile.ProfileModal.DragOver | components/profile-modal.tsx:172-184 | With a dragged key different from the target, the order becomes its reordering; otherwise it is unchanged. |
| Profile.ProfileModal.DragEnd | components/profile-modal.tsx:186-188 | No key is being dragged. |
| App.ConvertMessages | app/contexts/AppContext.tsx:101-106 | Same length and order; id to id, content to text, role type to sender, creation time to timestamp. |
| App.ConvertMessagesConcat | app/contexts/AppContext.tsx:101-106 | The conversion works message by message (it distributes over concatenation). |
| App.RowsReachChat | app/contexts/AppContext.tsx:98-108 | Every database row, mapped as the `database/init` route maps it and then converted as `loadSession` converts messages, becomes one chat message in order, with its content, the role its type decides, and an id that parses back to the row id. |
| App.FindSession | app/contexts/AppContext.tsx:193 | `findIndex`: the first session with the id, or -1 exactly when there is none. |
| App.NewThreadTitle | app/contexts/AppContext.tsx:210 | The given title; or else the message if at most 50 characters; or else its first 50 characters followed by "...". |
| App.UpsertThread | app/contexts/AppContext.tsx:191-218 | If the id is present, only its first match is replaced (title kept when none is given, new last message, count + 1) and the length is unchanged. Otherwise a new thread with count 1 is prepended. |
| App.UpsertKeepsIdsUnique | app/contexts/AppContext.tsx:191-218 | Upserting keeps thread ids unique, and afterwards the thread is found with the new last message. |
| App.SecondMessageUpdatesInPlace | app/contexts/AppContext.tsx:193-215 | The second message to a new thread updates that thread at the top instead of adding another, keeping the title and counting 2. |
| App.AppState.constructor | app/contexts/AppContext.tsx:63-73 | A non-empty stored session id is reused; otherwise the fresh id becomes current and is stored. |
| App.AppState.StartNewChat | app/contexts/AppContext.tsx:83-89 | Messages emptied, the fresh id current and stored; the landing flag and sessions unchanged. |
| App.AppState.ResetApp | app/contexts/AppContext.tsx:75-81 | As a new chat, and the landing page shown. |
| App.AppState.LoadSession | app/contexts/AppContext.tsx:91-146 | The session becomes current and stored, the landing page is hidden, and messages are the converted fetch result, or empty when the fetch threw. |
| App.AppState.DeleteSession | app/contexts/AppContext.tsx:147-166 | The refreshed list replaces the sessions; only deleting the current session starts a new chat; loading ends off. |
| App.AppState.RefreshSessions | app/contexts/AppContext.tsx:168-182 | The fetched list replaces the sessions when it arrives; loading ends off. |
| App.AppState.UpdateActiveThreadInSidebar | app/contexts/AppContext.tsx:191-218 | The sessions become their upsert. |
| UserManager.CookieNameIsToken | lib/user-manager.ts:4 | The cookie name is an RFC 6265 token. |
| UserManager.FindPrefixed | lib/user-manager.ts:13-15 | `find`: the first string with the prefix, or -1 exactly when there is none. |
| UserManager.FindNamed | lib/user-manager.ts:12-15 | The first segment whose trimmed form starts with `name=`. |
| UserManager.PrefixedHasEquals | lib/user-manager.ts:14-18 | A matched segment contains '='. |
| UserManager.ValueOf | lib/user-manager.ts:18 | `split('=')[1]`: the text between the first '=' and the next one, so it holds no '='. |
| UserManager.ReadCookie | lib/user-manager.ts:12-20 | No value iff no segment matches; a value holds neither '=' nor ';'. |
| UserManager.ValueOfPair | lib/user-manager.ts:18 | From `name=value`, with no '=' in either, the value is read back. |
| UserManager.CookieString | lib/user-manager.ts:35 | Starts with `mutumwa_user_id=<id>; expires=<date>` and ends with `; path=/; SameSite=Lax`. |
| UserManager.FirstSegmentNames | lib/user-manager.ts:12-15 | In a written cookie string, the first segment is the only one that can match the name. |
| UserManager.WrittenReadsBack | lib/user-manager.ts:12-20 | Parsing `name=value;...` for that name yields the value when it has no '=' or ';'. |
| UserManager.CookieStringReadsBack | lib/user-manager.ts:17-20 | Parsing the string `setUserId` writes yields the id when it has no '=' or ';'. |
| UserManager.FindCookie | lib/user-manager.ts:35 | The first stored cookie called `name`, or -1 exactly when there is none. |
| UserManager.Store | lib/user-manager.ts:35 | Writing a cookie replaces the one with that name in place, or appends it; others are untouched. |
| UserManager.Forget | lib/user-manager.ts:42 | Writing the expired cookie removes every cookie with that name and keeps the others. |
| UserManager.ForgetConcat | lib/user-manager.ts:42 | Removing the expired cookie distributes over concatenation, so the remaining cookies keep their relative order. |
| UserManager.StoreWellFormed | lib/user-manager.ts:35 | Writing a token-named cookie keeps the store well formed. |
| UserManager.ForgetWellFormed | lib/user-manager.ts:42 | Removing cookies keeps the store well formed. |
| UserManager.PairMatches | lib/user-manager.ts:14 | A cookie's pair starts with `name=` iff the cookie has that name. |
| UserManager.PairTrim | lib/user-manager.ts:14 | Trimming a pair, with or without the separator's space, gives the pair. |
| UserManager.PairHasNoSeparator | lib/user-manager.ts:12 | A pair holds no ';'. |
| UserManager.SegmentTrim | lib/user-manager.ts:12-14 | Each segment of the header trims to its cookie's pair. |
| UserManager.SplitHeader | lib/user-manager.ts:12 | Splitting a non-empty header on ';' gives exactly its segments. |
| UserManager.FindNamedSegment | lib/user-manager.ts:12-15 | The matched segment is the stored cookie with that name. |
| UserManager.ReadEmptyHeader | lib/user-manager.ts:12-15 | An empty `document.cookie` holds no user id. |
| UserManager.ValueOfSegment | lib/user-manager.ts:18 | A segment's value is its cookie's value when neither holds '='. |
| UserManager.ReadHeader | lib/user-manager.ts:12-20 | Parsing a well-formed store finds the named cookie, and its value when that has no '='. |
| UserManager.ReadBackAfterSet | lib/user-manager.ts:17-20 | After `setUserId(id)`, `getUserId` reads `id` back when it has no '=' or ';'. |
| UserManager.NothingAfterClear | lib/user-manager.ts:39-43 | After `clearUserId`, no user id is found. |
| UserManager.Browser.constructor | lib/user-manager.ts:6-8 | A browser, with or without a window, over the given store. |
| UserManager.Browser.SetUserId | lib/user-manager.ts:29-36 | Without a window nothing happens; otherwise the cookie string is written and stored. |
| UserManager.Browser.ClearUserId | lib/user-manager.ts:39-43 | Without a window nothing happens; otherwise the expiring string is written and the cookie is removed. |
| UserManager.Browser.GetUserId | lib/user-manager.ts:8-26 | Without a window: "". With a cookie: its value, and nothing is written. Otherwise: the fresh id, which is also written. |
| MessagesRoute.DomainOf | app/api/database/init/route.ts:20 | The domain parameter, or "default" when it is missing or empty. |
| MessagesRoute.TableName | app/api/database/init/route.ts:30-36 | "zesa" and "praz" select their own tables; every other domain selects the general table. |
| MessagesRoute.RoleOf | app/api/database/init/route.ts:54-55 | The user role iff the type is "human" or "user". |
| MessagesRoute.RoleName | app/api/database/init/route.ts:54 | "user" iff the user role. |
| MessagesRoute.MapRow | app/api/database/init/route.ts:50-59 | id and uuid are both the row id as a string; role and role type agree with the type; the content is kept; the creation time falls back to now; token count 0 and processed. |
| MessagesRoute.MapRows | app/api/database/init/route.ts:50-59 | Succeeds iff every row has a message; preserves count and order, mapping each row. |
| MessagesRoute.Get | app/api/database/init/route.ts:17-81 | A missing session id gives 400 "Session ID is required". A thrown query or mapping gives an empty list with counts 0. Otherwise the mapped rows, with both counts equal to their number. |
| MessagesRoute.MappedIdReadsBack | app/api/database/init/route.ts:51 | A mapped id parses back to the row id. |
| ThemeContext.Name | app/contexts/ThemeContext.tsx:68 | "light" iff light and "dark" iff dark. |
| ThemeContext.Parse | app/contexts/ThemeContext.tsx:35 | A theme exactly for the stored strings "light" and "dark". |
| ThemeContext.ParseName | app/contexts/ThemeContext.tsx:72 | A saved theme name parses back to the theme. |
| ThemeContext.InitialTheme | app/contexts/ThemeContext.tsx:31-53 | A stored "light" or "dark" wins; otherwise the system preference decides; otherwise the default. |
| ThemeContext.Toggle | app/contexts/ThemeContext.tsx:94-96 | Toggling always changes the theme. |
| ThemeContext.ToggleTwice | app/contexts/ThemeContext.tsx:94-96 | Toggling twice is the identity. |
| ThemeContext.OnStorageEvent | app/contexts/ThemeContext.tsx:80-84 | The theme takes the event's value only when the key matches and the value is "light" or "dark". |
| ThemeContext.RemoveThemeClasses | app/contexts/ThemeContext.tsx:57 | Removes exactly the "light" and "dark" classes. |
| ThemeContext.AppliedClassIsUnique | app/contexts/ThemeContext.tsx:57-58 | After applying, the root holds the current theme's class, once, not the other one, and every other class it held. |
| ThemeContext.Lookup | app/contexts/ThemeContext.tsx:34 | `getItem`: the stored value, or none exactly when the key is absent. |
| ThemeContext.SavedThemeRestores | app/contexts/ThemeContext.tsx:31-53 | A saved theme is the next mount's theme, whatever the system prefers. |
| ThemeContext.ThemeProvider.constructor | app/contexts/ThemeContext.tsx:21-27 | The default theme, not mounted. |
| ThemeContext.ThemeProvider.Mount | app/contexts/ThemeContext.tsx:55-59 | The initial theme is chosen and applied to the root; mounted. |
| ThemeContext.ThemeProvider.ApplyTheme | app/contexts/ThemeContext.tsx:62-76 | Once mounted, the theme is applied to the root and saved; before, nothing changes. |
| ThemeContext.ThemeProvider.ToggleTheme | app/contexts/ThemeContext.tsx:94-96 | The theme becomes its toggle. |
| ThemeContext.ThemeProvider.SetTheme | app/contexts/ThemeContext.tsx:90-92 | The theme becomes the given one. |
| ThemeContext.ThemeProvider.StorageChanged | app/contexts/ThemeContext.tsx:79-88 | The theme follows the storage-event rule. |
| DomainContext.DomainValuesDistinct | app/contexts/DomainContext.tsx:18-25 | Three domains with distinct values; the first, the initial selection, is "general". |
| DomainContext.FindDomain | app/contexts/DomainContext.tsx:33 | A listed domain with the value, found exactly when one exists. |
| DomainContext.Property | app/contexts/DomainContext.tsx:32-33 | A parsed object's property exists exactly when some entry has that key, and is one of its values. |
| DomainContext.Restore | app/contexts/DomainContext.tsx:28-41 | Only a stored object whose string value names a listed domain changes the selection, to that domain. Nothing stored, unparsable text, and unknown or missing values leave it unchanged. |
| DomainContext.SaveThenRestore | app/contexts/DomainContext.tsx:32-46 | Saving any listed domain and then restoring, from any selection, selects it. |
| DomainContext.DomainProvider.constructor | app/contexts/DomainContext.tsx:25 | The first domain is selected, which is listed. |
| DomainContext.DomainProvider.Mount | app/contexts/DomainContext.tsx:28-41 | The selection becomes its restore from storage and stays listed. |
| DomainContext.DomainProvider.Save | app/contexts/DomainContext.tsx:44-46 | The stored value becomes the selected domain's JSON. |
| DomainContext.DomainProvider.SetSelectedDomain | app/contexts/DomainContext.tsx:25 | The selection becomes the given domain, and stays listed when that one is. |
| Js.TrimEmptyIffBlank | components/login-page.tsx:60 | A trimmed string is empty iff every character is whitespace. |
| Js.JoinSplit | lib/user-manager.ts:12 | Joining the parts of a split gives back the string. |
| Js.SplitJoin | lib/user-manager.ts:12 | Splitting parts that do not contain the separator, once joined, gives back the parts. |
| Js.ParseIntOfIntToString | app/contexts/AuthContext.tsx:41 | `parseInt` of a stored decimal number reads it back. |
| Js.ParseIntOfNumberToString | app/contexts/AuthContext.tsx:53 | `parseInt` of a stored count (possibly NaN) reads it back. |

## Left out

- The webhook stream reader and the chat page that builds the assistant reply are not part of this model.
- Rendering: all JSX and layout, the route gating of `app/layout.tsx`, and the `render*` helpers of the profile modal.
- Media: voice input and the recording visualiser (MediaRecorder, AudioContext, canvas, floating point).
- The database and fetch layers are not modelled: `pool.query`, `lib/database.ts`, the fetch calls of `lib/session-manager.ts`, and the threads, user-memory and transcribe routes. Their results (or their failure) are parameters. `getAllSessions` and `fetchSessionMessages` return `[]` on failure, and the fetch-delete request is not modelled.
- `app/api/sessions/[sessionId]/messages/route.ts`, the route `fetchSessionMessages` (and so `loadSession`) calls, is not part of this model. It reads the table `<domain>.chats`, defaults the domain to "general" rather than "default", and always stamps `created_at` with the current time. Its id, content and role mapping (lines 45-54) is the same as the `database/init` route's, so `App.RowsReachChat` uses that route's mapping.
- `refreshSessionsForDomain` only forwards to `refreshSessions` and has no member of its own.
- Time, timers and reload: `Date.now` is a parameter; `setTimeout`, `setInterval` and `window.location.reload` are left out (`Tick` returns whether the page would reload).
- Dates are kept as the strings the server sends; `new Date(...)` parsing is left out.
- Fresh UUIDs are parameters.
- React scheduling, effect ordering and stale closures are left out; each handler is one atomic transition of its fields.
- LanguageContext and the configuration files.
- Auth.Restore: reads `Date.now()` once, although `checkAuth` reads it twice; the two reads are treated as one instant.
- Js.ParseInt: models decimal digits only; hexadecimal prefixes and numbers beyond 2^53 are left out.
- Exceptions thrown by `localStorage` are left out in `Auth` and `DomainContext`; in `ThemeContext` a failing read is an absent value (`None`).
- Profile.CurrentArray: a key whose value is not an array counts as `[]`; the spread of a non-array value in the source is not modelled.
- Profile.Keys: a JavaScript object lists integer-like keys first, in numeric order; the model keeps insertion order for every key.
- `slice` is over `seq<char>`, not UTF-16 code units.
- UserManager.Store: the cookie store keeps cookies in order of first setting; `path` and expiry dates are not modelled. Clearing removes the cookie at once rather than after its expiry date.
- Login.Submit: the attempt count is an integer, so a `NaN` count on the login page is not modelled.
- MessagesRoute.DbRow: a null row id (which would make `id.toString()` throw) is not modelled; ids are integers.
- After the first `return`, `app/api/database/init/route.ts` has a second, unreachable `return` (lines 67-71). It has no member.
- The passcode check runs only on the client. The model states its state machine and makes no security claim.

# MTAA study client — a Dafny model of its logic

The client is a React Native app for a study platform. Users sign in, take tests, read notifications, manage friends and groups, and chat with their group. This project models the parts of the client that decide something, as pure Dafny functions over immutable datatypes. It then proves the properties the code promises about them.

- **The authenticated request gateway** (`src/utils/apiClient.ts`) and **the session manager** (`src/context/AuthContext.tsx`). These are the header merge, URL resolution and 401 handling. A request that meets a 401 while no refresh runs leads a token refresh. Requests that meet a 401 during a refresh wait in a FIFO queue. When the refresh settles, the queue is drained and the leader either retries once or fails. Module `Coordinator` composes the gateway (`Gateway`) with the session (`Auth`) into a transition system driven by explicit events: "this call's first attempt came back", "the refresh endpoint answered", and a screen calling `login` or `logout`.
- **The form rules and outcomes** of these screens:
  - login (`Login`) and registration (`Register`);
  - the profile-settings dialog (`SettingsProfile`);
  - group renaming and group creation (`Groups`).
  The username and password rules are shared in `Forms`.
- **The level arithmetic.** `getLevel` and `calculateXpProgress` on the profile screen, and the identical `getLevel` of the group profile, are both `Levels.Level`. `Math.sqrt` is modelled by an exact integer square root.
- **The list and state machines:**
  - the notification list and its unread counter (`Notifications`);
  - the friend and group search (`Friends`);
  - the test session with its answer map, navigation and submission (`Quiz`), and the results screen that reads the submission back (`Results`);
  - the group chat (`Chat`);
  - the reconnecting notification socket (`WebSocket`);
  - the theme and contrast provider and its stored settings (`Theme`);
  - the subject list with its re-entrancy guard (`Study`);
  - the group profile's permissions and avatar loading (`Groups`).
- **The configuration.** The tablet breakpoint (`Device`) and the endpoint URL builders (`ApiConfig`).

The JavaScript semantics the rules depend on are written out in `Text` and `Json`:
- truthiness of a string-or-null;
- `length`, which counts UTF-16 code units, so a character outside the Basic Multilingual Plane counts twice;
- `Array.prototype.filter`;
- `trim` with the ECMAScript whitespace set;
- `replace` with a string pattern (first occurrence) versus an anchored regex;
- `parseInt`, `toString` and `padStart`;
- object spread as map update;
- an `undefined` property dropped from `JSON.stringify`.

Network answers, socket events, storage contents, the system colour scheme and the connectivity flag are inputs of the functions. Requests and frames the client sends are outputs.

The nine colour roles are fields of one `Theme.Palette` datatype. So the light and dark palettes, and every merge with a contrast patch, always carry all nine keys (src/theme/colors.tsx:1-25).

## Model

| member | source | states |
|---|---|---|
| ApiConfig.BaseUrlFor | src/config/apiConfig.tsx:3-9 | every platform branch yields the same `http` address |
| ApiConfig.Url | src/config/apiConfig.tsx:12-88 | every endpoint URL starts with the base address, hence with `http`, and continues with that endpoint's own path |
| ApiConfig.SharedUrls | src/config/apiConfig.tsx:23-66 | add/remove friend, group detail/delete, group create/all and the three own-avatar endpoints share a URL and differ only in the HTTP method |
| ApiConfig.RemoveMemberExtendsJoin | src/config/apiConfig.tsx:35-38 | removing a member addresses the group's join URL followed by `/` and the user id |
| ApiConfig.BuildPath | src/config/apiConfig.tsx:16-85 | each single-id builder puts its id verbatim between two fixed texts |
| ApiConfig.IdBuildersInjective | src/config/apiConfig.tsx:16-85 | two ids give the same URL under a single-id builder only if they are equal |
| Auth.LoadToken | src/context/AuthContext.tsx:30-37 | at start-up the in-memory token is taken from storage only when a non-empty one is saved; nothing else changes |
| Auth.Login | src/context/AuthContext.tsx:40-44 | both tokens are stored as given, without validation, and the access token becomes the in-memory token |
| Auth.LoginSurvivesRestart | src/context/AuthContext.tsx:30-44 | after a login and a restart, start-up restores the access token and the refresh token is still stored |
| Auth.Logout | src/context/AuthContext.tsx:47-67 | the server is called only while a token is held; afterwards both stored tokens and the in-memory token are gone on every path |
| Auth.LogoutIdempotent | src/context/AuthContext.tsx:47-67 | a second logout changes nothing and calls no server |
| Auth.BeginRefresh | src/context/AuthContext.tsx:73-111 | a refresh already running means wait, with no storage read and no call; no stored refresh token means logout and null, with no call; otherwise the flag is raised and exactly one call to the refresh endpoint is made |
| Auth.FinishRefresh | src/context/AuthContext.tsx:117-145 | only `ok && success && accessToken` yields the new token, which is stored and held, and the refresh token is replaced only when one is supplied; every other reply logs out and yields null; the flag ends lowered |
| Auth.PollRefresh | src/context/AuthContext.tsx:76-84 | a waiting caller is answered exactly when the running refresh has finished, and gets the session's token |
| Auth.RefreshTokenContract | src/context/AuthContext.tsx:70-146 | a `refreshToken()` call makes at most one refresh-endpoint call, none while another refresh runs or when no refresh token is stored, and never leaves the flag raised |
| Auth.PollerSeesRefreshResult | src/context/AuthContext.tsx:76-84 | a caller that waited on a refresh receives exactly what that refresh returned |
| Gateway.BuildHeaders | src/utils/apiClient.ts:26-30 | the caller's headers, then `Content-Type: application/json` overriding any caller value, then the bearer exactly when a token is held |
| Gateway.RetryHeaders | src/utils/apiClient.ts:87-91 | the leader's retry always carries the bearer of the new token and otherwise keeps the caller's headers |
| Gateway.RetryHeadersAgree | src/utils/apiClient.ts:87-91 | for a non-empty token, the retry's headers equal those of a first attempt made with that token |
| Gateway.ResolveUrl | src/utils/apiClient.ts:40 | a URL starting with `http` is used unchanged; any other is prefixed with the base address |
| Gateway.ResolveUrlIdempotent | src/utils/apiClient.ts:40 | resolving twice is resolving once |
| Gateway.EndpointUrlsPassThrough | src/utils/apiClient.ts:94 | every configured endpoint passes through resolution unchanged |
| Gateway.Get | src/utils/apiClient.ts:119-121 | `get` sets only the method and keeps the caller's headers and body |
| Gateway.Del | src/utils/apiClient.ts:147-149 | `del` sets only the method and keeps the caller's headers and body |
| Gateway.WithPayload | src/utils/apiClient.ts:123-145 | `post`, `put` and `patch` set the method and replace the body with the JSON payload |
| Gateway.FirstFetch | src/utils/apiClient.ts:39-42 | the first attempt goes to the resolved URL with the caller's method and body and the merged headers |
| Gateway.RetryFetch | src/utils/apiClient.ts:93-96 | the leader's retry is a plain fetch to the resolved URL carrying the new bearer |
| Gateway.RetryIsFreshAttempt | src/utils/apiClient.ts:87-96 | the leader's retry is exactly the first attempt a caller holding the new token would make |
| Gateway.OnFirstOutcome | src/utils/apiClient.ts:47-115 | a non-401 answer is returned unchanged and a transport error is rethrown, both leaving the gateway alone; a 401 during a refresh is appended to the queue; a 401 while idle raises the flag and makes the call the leader |
| Gateway.ProcessQueue | src/utils/apiClient.ts:8-19 | every queued waiter is settled exactly once, in queue order, all with the same outcome |
| Gateway.OnRefreshSettled | src/utils/apiClient.ts:78-108 | the flag is lowered and the queue emptied; with a token every waiter resolves with it and the leader retries once, otherwise every waiter and the leader fail with the refresh error |
| Coordinator.Start | src/utils/apiClient.ts:5-6 | a started client is idle with an empty queue and satisfies the coordination invariant |
| Coordinator.Resume | src/utils/apiClient.ts:58-61 | a resolved waiter starts over as the same request; as written with the token its closure captured, corrected with the token the queue delivered |
| Coordinator.Settle | src/utils/apiClient.ts:78-108 | once the refresh settles the gateway is idle and every waiter plus the leader gets exactly one outcome |
| Coordinator.StepPreservesInv | src/utils/apiClient.ts:47-108 | each event, including a login or logout, keeps the gateway flag, the leader, the session flag and the queue in step: a queue exists only during a refresh |
| Coordinator.RunPreservesInv | src/utils/apiClient.ts:47-108 | the invariant holds after any sequence of events |
| Coordinator.StepRefreshCalls | src/utils/apiClient.ts:52-75 | an event adds at most one refresh-endpoint call, none while a refresh runs, and one only when the event starts a refresh |
| Coordinator.OneRefreshPerEpisode | src/utils/apiClient.ts:52-66 | until the refresh endpoint answers, any number of further first-attempt outcomes, logins and logouts add no refresh call |
| Coordinator.RunAppend | src/utils/apiClient.ts:47-108 | running two event sequences one after the other is running their concatenation, with the outputs in order |
| Coordinator.SignOutMidEpisodeIsUndone | src/context/AuthContext.tsx:47-145 | a logout during a refresh clears the session but does not end the episode, and a refresh that then succeeds stores and holds its token again |
| Coordinator.LateUnauthorizedWaits | src/utils/apiClient.ts:52-57 | a 401 during a refresh appends exactly that call to the queue, makes no network call and reports it as queued |
| Coordinator.FirstUnauthorizedLeads | src/utils/apiClient.ts:69-75 | a 401 while idle starts an episode with exactly one refresh call when a refresh token is stored, or settles at once as a failure when none is |
| Coordinator.SuccessSettles | src/utils/apiClient.ts:80-96 | a successful refresh leaves the session holding the new token, resumes every waiter and ends with the leader's single retry |
| Coordinator.FailureSettles | src/utils/apiClient.ts:97-108 | a failed refresh leaves the session logged out, and every waiter and the leader fail with the same error |
| Coordinator.CorrectedResumeUsesNewToken | src/utils/apiClient.ts:58-61 | with the correction a resumed waiter's next attempt carries the new bearer |
| Coordinator.TwoUnauthorizedOneRefresh | src/utils/apiClient.ts:52-96 | two calls rejected with 401 in one episode cause a single refresh call, and the session ends holding the new token |
| Coordinator.AsWrittenResumeSendsExpiredToken | src/utils/apiClient.ts:58-61 | as written, the resumed waiter's next attempt carries the expired bearer its closure captured |
| Coordinator.AsWrittenSecondRefresh | src/utils/apiClient.ts:58-61 | as written, when the server rejects that expired bearer, the resumed call leads a second refresh right after the first |
| Coordinator.CorrectedResumeSendsFreshToken | src/utils/apiClient.ts:58-61 | with the correction the same episode resumes the waiter with the new bearer |
| Device.IsTablet | src/utils/deviceUtils.ts:5-11 | tablet exactly when the longer side reaches 1000, inclusive |
| Device.IsTabletSymmetric | src/utils/deviceUtils.ts:10 | rotating the window never changes the answer |
| Device.IsTabletMonotone | src/utils/deviceUtils.ts:10 | growing the window never turns a tablet into a phone |
| Device.InitResponsive | src/utils/deviceUtils.ts:15-18 | the hook starts with the same criterion applied to the first size |
| Device.OnDimensionsChange | src/utils/deviceUtils.ts:20-22 | after a resize the hook holds what a fresh start at the new size would |
| Json.OptionalField | src/screens/CreateGroupScreen.tsx:47 | an `undefined` property contributes no key to the serialised object |
| Json.Lookup | src/screens/CreateGroupScreen.tsx:45-48 | reading a key back finds it exactly when the object has it, with the value stored under it |
| Json.Frame | src/services/WebSocketService.tsx:125-127 | a socket frame is an object whose `event` and `data` properties read back as given |
| Json.OptStr | src/screens/GroupChatScreen.tsx:106-109 | a missing user id serialises as `null`, a present one as its string |
| Lists.Filter | src/screens/MessagesScreen.tsx:162-164 | `filter` keeps exactly the items the test accepts, never more items than it was given, returns an empty list unchanged, and returns the list unchanged when every item passes |
| Lists.FilterAppend | src/screens/MessagesScreen.tsx:162-164 | filtering a concatenation is concatenating the filtered parts, which with the one-item case fixes order and multiplicity |
| Lists.FilterIdempotent | src/screens/FriendsScreen.tsx:462 | filtering twice by the same id is filtering once |
| Text.Trim | src/screens/GroupChatScreen.tsx:148 | the trimmed text is the input without its leading and trailing whitespace: every character before and after it is whitespace, it is empty exactly when the input is all whitespace, and otherwise it starts and ends with a non-space |
| Text.TrimIdempotent | src/screens/GroupChatScreen.tsx:153 | trimming twice is trimming once |
| Text.JsLength | src/screens/LoginScreen.tsx:45 | `.length` counts UTF-16 code units: between one and two per character, and exactly one per character when none lies outside the Basic Multilingual Plane |
| Text.JsLengthAppend | src/screens/LoginScreen.tsx:45 | the length of a concatenation is the sum of the lengths |
| Text.AstralCharCountsTwice | src/screens/FriendsScreen.tsx:96 | one emoji is one character but has length 2 |
| Text.RemoveFirst | src/screens/TestResultsScreen.tsx:58 | a one-character `replace` removes exactly one occurrence when there is one, and nothing otherwise |
| Text.ReplaceFirst | src/services/WebSocketService.tsx:28 | a string-pattern `replace` at the start of the text swaps the prefix |
| Text.ReplacePrefix | src/screens/GroupChatScreen.tsx:95 | an anchored replace swaps the prefix when the text starts with it, and leaves the text unchanged otherwise |
| Text.ReplaceFirstReachesPastStart | src/services/WebSocketService.tsx:28 | the two replacements differ: only the unanchored one rewrites a later occurrence |
| Text.NatToString | src/screens/TestScreen.tsx:216 | a whole number prints as the shortest decimal numeral: no leading zero except for 0 itself |
| Text.DecimalRoundTrip | src/screens/TestScreen.tsx:216 | reading the printed numeral gives the number back |
| Text.PadStart2Value | src/screens/TestScreen.tsx:249 | zero-padding a numeral to two places keeps its value |
| Text.ParseIntOfNumeral | src/screens/TestResultsScreen.tsx:58 | `parseInt` of a numeral followed by a non-digit yields the numeral's value |
| Forms.WordPatternMeansWordChars | src/screens/LoginScreen.tsx:40 | the anchored pattern `^[a-zA-Z0-9_]*$` accepts exactly the strings made of word characters |
| Forms.UsernameRulesAgree | src/screens/SettingsProfileScreen.tsx:170 | the settings rule with its extra blank check accepts exactly the names login and registration accept |
| Forms.ErrorsFor | src/screens/LoginScreen.tsx:33-51 | the error map has one entry per failing check, carrying that check's message, and nothing else |
| Forms.ClearOnEdit | src/screens/LoginScreen.tsx:135-163 | typing into a field removes that field's error and leaves every other error as it was |
| Forms.FourEmojiPassword | src/screens/LoginScreen.tsx:45 | four emoji, four characters but length 8, make an acceptable password |
| Login.Validate | src/screens/LoginScreen.tsx:33-51 | the username error appears exactly when the name is not 3 to 32 word characters, and the password error exactly when the password is empty or its `length` is under 8 code units; both are independent |
| Login.Edit | src/screens/LoginScreen.tsx:135-163 | typing changes only that field's text and error |
| Login.LoginFetch | src/screens/LoginScreen.tsx:62-68 | the request is a POST of exactly `{name, password}` to the login endpoint |
| Login.HandleLogin | src/screens/LoginScreen.tsx:53-109 | an invalid form sends nothing; 404 means "user not found" without a session; sign-in happens exactly on `ok` with an access token, with a missing refresh token stored as `''`; otherwise the server's message or the default is shown; loading ends lowered after a request |
| Login.SendsOnlyValidCredentials | src/screens/LoginScreen.tsx:54-56 | a request is sent exactly when both credentials satisfy the rules |
| Login.SignInWithoutRefreshTokenCannotRefresh | src/screens/LoginScreen.tsx:85-88 | a sign-in whose answer carries no refresh token stores `''`, so the next refresh logs out without calling the server |
| Login.EmptySubmission | src/screens/LoginScreen.tsx:54-56 | submitting the empty form sends nothing and shows "Invalid username format" and the password message |
| Register.Validate | src/screens/RegisterScreen.tsx:33-54 | the three checks (username rule, password `length` of at least 8 code units, confirmation equal) are independent, each with its own message |
| Register.ValidExactly | src/screens/RegisterScreen.tsx:53 | the form is accepted exactly when all three checks pass |
| Register.Edit | src/screens/RegisterScreen.tsx:128-179 | typing into one field changes only that field and clears only its error |
| Register.RegisterFetch | src/screens/RegisterScreen.tsx:64-73 | the request is a POST of exactly `{name, password}`; the confirmation is not sent |
| Register.HandleRegister | src/screens/RegisterScreen.tsx:56-106 | an invalid form sends nothing; a JSON answer with `ok` registers; a missing connection or a body that is not JSON is a connection error; otherwise the server's message or the default is shown |
| Register.RegisteredNamesCanSignIn | src/screens/RegisterScreen.tsx:40-50 | a registration that is sent satisfies the login rules and has a matching confirmation |
| SettingsProfile.OpenModal | src/screens/SettingsProfileScreen.tsx:44-49 | the dialog opens with the given type and prefilled value, and the confirmation always cleared |
| SettingsProfile.NameAnswer | src/screens/SettingsProfileScreen.tsx:185-204 | success exactly on `ok`; "name taken" exactly for the server's plain-text message; every other answer is the generic error |
| SettingsProfile.HandleSave | src/screens/SettingsProfileScreen.tsx:165-245 | a name is sent only when valid and different from the current one; a password only when its `length` reaches 8 code units and it is confirmed, checked in that order; on success the shown name becomes the input and the dialog closes, and a changed password closes it too; the name changes and the dialog closes only on success; loading ends lowered on every path |
| SettingsProfile.SecondSaveIsLocal | src/screens/SettingsProfileScreen.tsx:174-178 | saving the accepted name again asks the server nothing and reports it unchanged |
| SettingsProfile.SentNamesAreUsernames | src/screens/SettingsProfileScreen.tsx:170 | a name the dialog sends is one that login and registration accept |
| Levels.Isqrt | src/screens/ProfileScreen.tsx:57 | the floor of the square root: its square fits under the number and the next square does not |
| Levels.IsqrtUnique | src/screens/ProfileScreen.tsx:57 | that root is the only number bracketing the input that way |
| Levels.WholeHundreds | src/screens/ProfileScreen.tsx:57 | comparing a square with `xp / 100` is comparing a hundred times the square with `xp` |
| Levels.Level | src/screens/ProfileScreen.tsx:56-58 | the level is at least 1 and its band 100·(l−1)² ≤ xp < 100·l² contains the experience |
| Levels.LevelIsBand | src/screens/GroupProfileScreen.tsx:211-213 | the level is exactly the band containing the experience; the group screen's formula is the same |
| Levels.LevelMonotone | src/screens/ProfileScreen.tsx:56-58 | more experience never means a lower level |
| Levels.RoundDiv | src/screens/ProfileScreen.tsx:66 | rounding a quotient lands within half a unit of it, with halves rounded up |
| Levels.BandProgress | src/screens/ProfileScreen.tsx:61-68 | the progress percentage stays within 0..100 and the XP still needed reaches the band's top exactly |
| Levels.XpProgress | src/screens/ProfileScreen.tsx:60-68 | progress is at most 100 %, and at least 1 XP is always needed to reach the next level's threshold |
| Levels.BandStart | src/screens/ProfileScreen.tsx:57-66 | at 100·k² the level is k+1, the bar is empty and the whole band is still to go |
| Levels.Shown | src/screens/ProfileScreen.tsx:245-248 | a loaded profile shows the computed level and progress |
| Levels.PlaceholderIsZeroXp | src/screens/ProfileScreen.tsx:245-248 | the placeholder before loading (level 1, 0 %, 100 XP to go) is what zero experience shows |
| Quiz.Get | src/screens/TestScreen.tsx:299 | the stored answer is found exactly when the question has an entry |
| Quiz.Put | src/screens/TestScreen.tsx:145-148 | writing keeps every key in place and adds the question at the end only when it is new |
| Quiz.GetPut | src/screens/TestScreen.tsx:145-148 | after writing, the question reads the new answer and every other question reads what it read before |
| Quiz.PutKeepsUnique | src/screens/TestScreen.tsx:145-148 | writing never duplicates a question |
| Quiz.PutOverwrites | src/screens/TestScreen.tsx:145-148 | a later choice for a question replaces the earlier one |
| Quiz.SelectAnswer | src/screens/TestScreen.tsx:138-153 | only the current question's entry is set or overwritten; with no current question nothing happens |
| Quiz.PressNext | src/screens/TestScreen.tsx:155-168 | the button does nothing without an answer; otherwise it advances by one before the last question and submits on the last |
| Quiz.SelectKeepsAnswered | src/screens/TestScreen.tsx:138-153 | every question before the current one stays answered |
| Quiz.PressKeepsAnswered | src/screens/TestScreen.tsx:155-168 | advancing keeps every earlier question answered |
| Quiz.SubmitCoversAllQuestions | src/screens/TestScreen.tsx:164-167 | the test is submitted only with an answer for every question |
| Quiz.FetchAnswers | src/screens/TestScreen.tsx:94-112 | one answers request per question, in order; a question whose request fails keeps its place with no answers; a thrown request ends the load |
| Quiz.LoadTest | src/screens/TestScreen.tsx:58-136 | a missing test id, a rejected or empty question list and a thrown request each end in their own error; a load succeeds exactly when every request gets a body, and the questions keep their order |
| Quiz.LoadedStartsAnswered | src/screens/TestScreen.tsx:85-117 | a loaded test has questions, so the session starts on a real question |
| Quiz.AnswerItems | src/screens/TestScreen.tsx:181-184 | one `{questionId, answerId}` object per selected entry, in order |
| Quiz.Submit | src/screens/TestScreen.tsx:179-243 | results are shown exactly when the evaluation succeeds with data, and then the save is sent; a failed save still shows the results with an empty id; otherwise the rejection or failure message is shown |
| Quiz.ResultsReadSubmission | src/screens/TestResultsScreen.tsx:58-63 | the results screen reads the elapsed seconds back and shows them as its clock, its counts add up to the total and its retry reopens the same test |
| Quiz.ClockReadsBack | src/screens/TestScreen.tsx:246-250 | the clock ends in `:` and two digits under 60, and minutes·60 + seconds is the elapsed time |
| Results.TimeSpentRoundTrip | src/screens/TestResultsScreen.tsx:58 | the `"Ns"` the test screen writes parses back to N |
| Results.NoDigitsIsZero | src/screens/TestResultsScreen.tsx:58 | a time text without digits reads as 0 seconds |
| Results.FormatMinSecReadsBack | src/screens/TestResultsScreen.tsx:61-65 | the unpadded `Xm Ys` text reads back as whole minutes and fewer than 60 seconds that add up to the time |
| Results.ScoreColorOf | src/screens/TestResultsScreen.tsx:68-72 | for any percentage, fractions included: green exactly from 80, yellow exactly from 50 below 80, red exactly below 50 |
| Results.FractionalScoreStaysBelow | src/screens/TestResultsScreen.tsx:68-72 | 79.5 is yellow and 49.9 is red: a fraction does not round up into the next band |
| Results.ScoreColorMonotone | src/screens/TestResultsScreen.tsx:68-72 | a better score never gets a worse colour |
| Results.Summarise | src/screens/TestResultsScreen.tsx:21-114 | the correct count is the score and the incorrect count is total minus score, so they add up to the total; the incorrect list appears exactly when it is present and non-empty; the clock is `formatTime` of the seconds read from `timeSpent` |
| Results.TryAgain | src/screens/TestResultsScreen.tsx:50-55 | retrying opens the same test |
| Notifications.MarkOne | src/screens/MessagesScreen.tsx:95-99 | items with the id become read and every other item is unchanged |
| Notifications.MarkEvery | src/screens/MessagesScreen.tsx:126-128 | every item becomes read and nothing else changes |
| Notifications.Without | src/screens/MessagesScreen.tsx:162-164 | exactly the items with the id are removed, and a list without the id comes back unchanged |
| Notifications.Find | src/screens/MessagesScreen.tsx:161 | the first item with the id, and none exactly when no item has it |
| Notifications.UnreadAfterMarkOne | src/screens/MessagesScreen.tsx:95-100 | marking drops the unread count by the unread items that carried the id |
| Notifications.UnreadAfterMarkEvery | src/screens/MessagesScreen.tsx:126-129 | after marking all nothing is unread |
| Notifications.UnreadAfterWithout | src/screens/MessagesScreen.tsx:161-168 | deleting drops the unread count by the unread items that carried the id |
| Notifications.FetchList | src/screens/MessagesScreen.tsx:37-69 | without a token nothing is requested; only an `ok` and `success` answer replaces the list, and then the counter equals the number of unread items; the spinners stop on every path |
| Notifications.PullToRefresh | src/screens/MessagesScreen.tsx:76-79 | pulling runs the same load and ends with the refresh spinner down |
| Notifications.Decrement | src/screens/MessagesScreen.tsx:100 | the counter drops by one, floored at zero |
| Notifications.MarkAsRead | src/screens/MessagesScreen.tsx:81-111 | a PUT to the mark-read URL; only an accepted answer marks the item and decrements the counter, and the answer decides the result |
| Notifications.MarkAllAsRead | src/screens/MessagesScreen.tsx:113-145 | a PUT to the mark-all URL; only an accepted answer marks every item and zeroes the counter |
| Notifications.Delete | src/screens/MessagesScreen.tsx:148-179 | a DELETE of the item; only an accepted answer removes it, and the counter drops only if the first item with that id was unread |
| Notifications.View | src/screens/MessagesScreen.tsx:182-192 | viewing a read item sends nothing; an unread one is marked read first |
| Notifications.ViewKeepsCount | src/screens/MessagesScreen.tsx:182-192 | with unique ids, viewing an item of the list keeps the counter equal to the number of unread items |
| Notifications.MarkAllKeepsCount | src/screens/MessagesScreen.tsx:125-129 | mark-all keeps the counter right, and an accepted one makes it right whatever it was |
| Notifications.DeleteKeepsCount | src/screens/MessagesScreen.tsx:160-168 | with unique ids, deleting keeps the counter equal to the number of unread items |
| Notifications.DeleteKeepsUniqueIds | src/screens/MessagesScreen.tsx:162-164 | deleting keeps ids unique, so the counter stays right over any sequence of deletions |
| Notifications.CounterNonNegative | src/screens/MessagesScreen.tsx:100-167 | no handler drives the counter below zero |
| Friends.Type | src/screens/FriendsScreen.tsx:90-104 | a search is scheduled for the typed text exactly when its `length` is at least 2 code units; a shorter text clears the results |
| Friends.SwitchTab | src/screens/FriendsScreen.tsx:80-86 | changing the tab clears the query and the results and cancels the pending search; pressing the current tab changes nothing |
| Friends.SearchFires | src/screens/FriendsScreen.tsx:107-148 | the pending search is sent only online and for a `length` of at least 2; offline clears the results; the results become the answer's array, or nothing on failure |
| Friends.ShortQueriesNeverSearch | src/screens/FriendsScreen.tsx:96-114 | a query whose `length` is under 2 code units never reaches the server and leaves no results |
| Friends.OneEmojiIsSearched | src/screens/FriendsScreen.tsx:96-114 | a single emoji has length 2, so it is scheduled and sent as a search |
| Friends.LoadFriends | src/screens/FriendsScreen.tsx:273-312 | offline or on failure the friend list is emptied; otherwise it is the answer's array |
| Friends.FindUser | src/screens/FriendsScreen.tsx:425 | the first search result with the id, and none exactly when no result has it |
| Friends.FlagFriend | src/screens/FriendsScreen.tsx:404-408 | only the results with the id gain the friend flag; order and the other results are unchanged |
| Friends.Add | src/screens/FriendsScreen.tsx:370-417 | nothing offline; a refused request changes nothing; an accepted one reloads the friends and flags the result |
| Friends.AddedUserIsFriend | src/screens/FriendsScreen.tsx:401-429 | after an accepted add the user counts as a friend, whatever the reload brought |
| Friends.Unfriend | src/screens/FriendsScreen.tsx:462 | exactly the friends with the id are removed, and a list without the id comes back unchanged |
| Friends.Remove | src/screens/FriendsScreen.tsx:431-470 | nothing offline or unconfirmed; a confirmed removal sends a DELETE and, if accepted, filters the friend out, leaving the search results alone |
| Friends.RemovedFriendStillFlagged | src/screens/FriendsScreen.tsx:420-462 | a removed friend whose search result still carries the flag still counts as a friend, though no longer in the list |
| Friends.MemberNoun | src/screens/FriendsScreen.tsx:927-931 | "člen" exactly for 1, "členovia" exactly for 2 to 4, "členov" otherwise |
| Friends.LoadCurrent | src/screens/FriendsScreen.tsx:701-760 | offline keeps the last known group; 404 means no group; a successful JSON answer sets the group to its `data`, or to none when `data` is missing; the group changes only from an answer |
| Friends.DropGroup | src/screens/FriendsScreen.tsx:791 | exactly the groups with the id are removed, and a list without the id comes back unchanged |
| Friends.SearchGroupsFor | src/screens/FriendsScreen.tsx:762-803 | sent only online, and for a member of a group only for a `length` of 2 or more; the results are exactly the answer's groups (none when `data` is not an array) without the user's own group, and a failure keeps the previous results |
| Friends.QueryChanged | src/screens/FriendsScreen.tsx:690-696 | queries whose `length` is under 2 clear the results; longer ones search |
| Friends.Join | src/screens/FriendsScreen.tsx:806-869 | refused without a request offline or when already in a group; otherwise a POST to the join URL; once accepted, the current group is reloaded and the search rerun; only a thrown rerun reports failure, a refused rerun keeps the results and still reports success, and a rerun with data shows it without the joined group |
| Friends.MembersNeverJoin | src/screens/FriendsScreen.tsx:816-823 | a member of a group never sends a join request |
| Chat.ChatUrlValue | src/screens/GroupChatScreen.tsx:95 | the chat socket goes to the configured host over `ws`, path `/ws` |
| Chat.SecureStaysSecure | src/screens/GroupChatScreen.tsx:95 | the anchored swap turns `https` into `wss` |
| Chat.Enter | src/screens/GroupChatScreen.tsx:39-48 | a freshly entered chat has no messages, no connection and no user |
| Chat.LoadUser | src/screens/GroupChatScreen.tsx:50-89 | offline and signed-out each show their error without a request; a successful answer with `data` sets the user id to `data.id`, even when it is missing, and shows no error; any other answer shows the load error; the user id changes only from such an answer |
| Chat.DataWithoutIdIsSilent | src/screens/GroupChatScreen.tsx:78-80 | a successful answer whose `data` has no `id` shows no error and leaves the user unknown, so no socket opens |
| Chat.OpenSocket | src/screens/GroupChatScreen.tsx:92-98 | a socket to the chat URL is opened exactly once the user id is known |
| Chat.OnOpen | src/screens/GroupChatScreen.tsx:100-112 | connected, the error cleared, and the join frame with group and user sent |
| Chat.OnError | src/screens/GroupChatScreen.tsx:114-118 | the connection error is shown and the chat disconnected |
| Chat.OnClose | src/screens/GroupChatScreen.tsx:135-138 | only the connected flag drops |
| Chat.OnMessage | src/screens/GroupChatScreen.tsx:120-133 | the history replaces the list (empty when absent), a new message is appended after the earlier ones unchanged, anything else leaves the room alone |
| Chat.ArrivalsAppend | src/screens/GroupChatScreen.tsx:126-128 | messages arriving one by one end up behind the list in arrival order |
| Chat.SendMessage | src/screens/GroupChatScreen.tsx:147-160 | a frame goes out exactly when the trimmed input is non-empty, the chat is connected and a socket exists; it carries the trimmed text and the input clears |
| Chat.SentTextIsTrimmed | src/screens/GroupChatScreen.tsx:148-153 | a whitespace-only input is never sent, and the text sent has no surrounding whitespace |
| Chat.Retry | src/screens/GroupChatScreen.tsx:193-201 | as written, the retry closes and forgets the socket and clears the error |
| Chat.AsWrittenRetryNeverReconnects | src/screens/GroupChatScreen.tsx:193-201 | as written, after a retry nothing typed is ever sent again |
| Chat.RetryCorrected | src/screens/GroupChatScreen.tsx:193-201 | corrected, the retry opens a new socket for a known user |
| Chat.CorrectedRetryReconnects | src/screens/GroupChatScreen.tsx:193-201 | corrected, once the new socket opens a non-blank message is sent again |
| WebSocket.NotificationsUrlValue | src/services/WebSocketService.tsx:28 | the notification socket goes to the configured host over `ws`, path `/notifications` |
| WebSocket.Connect | src/services/WebSocketService.tsx:21-34 | nothing while the socket is open; otherwise the user is remembered and exactly one socket is created |
| WebSocket.Send | src/services/WebSocketService.tsx:125-131 | a `{event, data}` frame is sent exactly when the socket is open, and dropped otherwise |
| WebSocket.OnOpen | src/services/WebSocketService.tsx:37-43 | connected, the attempts reset to 0, and notifications requested for the user |
| WebSocket.Delay | src/services/WebSocketService.tsx:111 | the back-off is 1000·2^k capped at 30000 |
| WebSocket.DelaySchedule | src/services/WebSocketService.tsx:107-118 | the five reconnect delays are 2000, 4000, 8000, 16000 and 30000 ms |
| WebSocket.DelayMonotone | src/services/WebSocketService.tsx:111 | delays never shrink from one attempt to the next |
| WebSocket.OnClose | src/services/WebSocketService.tsx:100-122 | disconnected; a held socket reads as closed and no socket stays none; a reconnect is scheduled with the next delay only while fewer than 5 attempts were made |
| WebSocket.OnTimer | src/services/WebSocketService.tsx:114-118 | the timer reconnects only if a user is still set |
| WebSocket.Disconnect | src/services/WebSocketService.tsx:139-153 | the timer, the socket, the connection and the user go, but the attempt count stays |
| WebSocket.MarkRead | src/services/WebSocketService.tsx:134-136 | a mark-read frame goes out exactly when the socket is open |
| WebSocket.OnMessage | src/services/WebSocketService.tsx:46-92 | a new notification raises one local notice; a non-empty history raises one for its first element; everything else raises none |
| WebSocket.AttemptsBounded | src/services/WebSocketService.tsx:107-122 | along any run the attempt count never passes 5 |
| WebSocket.ReconnectsBounded | src/services/WebSocketService.tsx:107-122 | without a successful open in between, at most 5 reconnects are ever scheduled |
| WebSocket.DisconnectedStaysDown | src/services/WebSocketService.tsx:114-153 | after `disconnect()` the close still schedules a timer, but that timer opens no socket, no socket is held, and a second `disconnect()` closes nothing |
| Theme.Spread | src/theme/ThemeContext.tsx:130-135 | each role the contrast patch sets wins; every other role keeps the base value |
| Theme.NormalIsBase | src/theme/ThemeContext.tsx:130-135 | normal contrast yields exactly the scheme's base palette |
| Theme.MediumKeepsAccents | src/theme/ThemeContext.tsx:27-41 | medium contrast keeps the secondary, tertiary, button-text and error colours and replaces background, card and border |
| Theme.HighReplacesAll | src/theme/ThemeContext.tsx:42-67 | high contrast replaces every role, so the result does not depend on the base; text and background are black and white |
| Theme.FollowSystem | src/theme/ThemeContext.tsx:110-114 | while the system is followed and its scheme is known, dark mode tracks it; otherwise nothing changes |
| Theme.Toggle | src/theme/ThemeContext.tsx:138-144 | toggling flips dark mode and stops following the system |
| Theme.ToggleTwice | src/theme/ThemeContext.tsx:138-144 | toggling twice restores the scheme, and the system effect never undoes a toggle |
| Theme.SetUseSystem | src/theme/ThemeContext.tsx:152-155 | turning system-following on adopts a known system scheme; turning it off keeps the scheme |
| Theme.SystemOverridesToggle | src/theme/ThemeContext.tsx:110-155 | turning system-following back on after a toggle gives the same state as if the toggle had never happened |
| Theme.SetContrast | src/theme/ThemeContext.tsx:152 | only the contrast level changes |
| Theme.ParseContrast | src/theme/ThemeContext.tsx:95-98 | a stored level is accepted exactly when it is normal, medium or high |
| Theme.Persist | src/theme/ThemeContext.tsx:117-127 | the three keys are written: the theme is `dark` exactly in dark mode, the system flag is `true` exactly when the system is followed, and the stored level parses back to the level |
| Theme.Fallback | src/theme/ThemeContext.tsx:99-105 | a failed load falls back to a known system scheme and otherwise keeps the state |
| Theme.Load | src/theme/ThemeContext.tsx:78-107 | a saved theme wins and a known system scheme is used only when none is saved; the system flag is taken when stored; an unknown level is ignored; a read that throws keeps what was applied before it and falls back |
| Theme.LoadPersistRoundTrip | src/theme/ThemeContext.tsx:78-127 | loading what was persisted gives back exactly the persisted settings, whatever the starting state and system scheme |
| Theme.UnknownContrastIgnored | src/theme/ThemeContext.tsx:95-98 | a stored level that names none of the three leaves the level unchanged |
| Groups.SaveName | src/screens/EditGroupNameScreen.tsx:32-68 | an unchanged untrimmed name goes back without a request; a blank one is refused; otherwise a PATCH with the trimmed name is sent and only an `ok` answer renames |
| Groups.SentNameIsTrimmed | src/screens/EditGroupNameScreen.tsx:52 | the name sent is never blank and has no surrounding whitespace |
| Groups.PaddedCurrentNameIsSent | src/screens/EditGroupNameScreen.tsx:33-52 | the equality check uses the untrimmed input, so the current name with a trailing space is sent, as the current name |
| Groups.CreateBody | src/screens/CreateGroupScreen.tsx:45-48 | the body holds the trimmed name, and the trimmed description only when it is not empty |
| Groups.CreateBodyReadsBack | src/screens/CreateGroupScreen.tsx:45-48 | the server reads back the trimmed name, and no description when a blank one was typed |
| Groups.CreateGroup | src/screens/CreateGroupScreen.tsx:31-68 | a blank name is refused without a request; otherwise the POST is sent and only an `ok` answer creates; a refusal reports the fixed message and a thrown error its own |
| Groups.Open | src/screens/GroupProfileScreen.tsx:71-97 | the profile opens loading, with no details and no avatars |
| Groups.FetchDetails | src/screens/GroupProfileScreen.tsx:99-129 | offline shows the alert without a request; the details change only from a successful answer with data; loading ends lowered on every path |
| Groups.AvatarIds | src/screens/GroupProfileScreen.tsx:132-142 | the avatars of the first three members are requested, in member order, and none for an empty or missing list |
| Groups.StoreAvatarsSpec | src/screens/GroupProfileScreen.tsx:174-177 | the avatar map changes only at requested ids, each of which gets the image that arrived for it |
| Groups.LoadAvatars | src/screens/GroupProfileScreen.tsx:132-148 | loading avatars changes only the avatar map and ends with the avatar spinner down |
| Groups.OnlyFirstThreeAvatars | src/screens/GroupProfileScreen.tsx:138-139 | a member below the third whose id is not among the first three gets no avatar loaded |
| Groups.RemoveMember | src/screens/GroupProfileScreen.tsx:215-247 | nothing unless the viewer owns the group; a confirmed removal sends a DELETE to the member URL and reports the answer |
| Groups.RemoveButtonAgreesWithGuard | src/screens/GroupProfileScreen.tsx:355 | every row showing the remove button can be removed; the owner's row never shows it; a non-owner can remove no one |
| Groups.OpenChat | src/screens/GroupProfileScreen.tsx:190-198 | the chat opens only once the details are known, with the group's name and members |
| Groups.OpenSettings | src/screens/GroupProfileScreen.tsx:200-208 | the settings open only once the details are known, with the ownership flag |
| Study.Begin | src/screens/StudyScreen.tsx:39-43 | a load already in flight makes a second one return at once; otherwise the flag and the spinner rise and the subjects request is sent |
| Study.Focus | src/screens/StudyScreen.tsx:25-37 | offline the error is shown and no load starts; online a load starts unless one is in flight |
| Study.Finish | src/screens/StudyScreen.tsx:45-67 | the flag and spinner drop on every path; a successful answer with data replaces the list, row by row in order, and clears the error; a rejection or a thrown request sets its own message and keeps the list |
| Study.OneLoadAtATime | src/screens/StudyScreen.tsx:33-43 | a focus during a load sends nothing, and once the load settles the next focus loads again |
| Study.Render | src/screens/StudyScreen.tsx:78-112 | the spinner shows exactly while loading; otherwise an error replaces the list |
| Study.ReconnectShowsSubjects | src/screens/StudyScreen.tsx:25-67 | a successful load after an offline focus clears the offline message and shows the loaded subjects |

## Left out

- Auth.PollRefresh: a waiter reads the live session flag and token. As written, the interval callback at src/context/AuthContext.tsx:76-84 reads the `isTokenRefreshing` and `token` captured by the render that started the wait, where the flag was up, so it never resolves. The model assumes the waiter sees the settled session, which is what the callback is evidently meant to do.
- Auth.PollerSeesRefreshResult: holds under the same live-read assumption as Auth.PollRefresh; the source as written gives a waiter nothing.
- Promises and the event loop are not modelled as such. Each `await` boundary is an explicit event, and a step reacts to one event atomically.
- React's closure capture is an explicit `snapshot` token on each gateway call. The token a screen holds is a parameter.
- The leader's plain retry `fetch` returning a rejected promise is not modelled. That rejection bypasses the inner handler at src/utils/apiClient.ts:103 and reaches the caller as a transport error.
- The refresh endpoint's answer is an input. So is every other response, socket event, storage read, connectivity flag and system colour scheme.
- The secure token store (src/utils/tokenStorage.tsx) is a record of its two entries. A failing store operation is not modelled.
- The interleaving of the theme's load effect with its save effect at start-up is not modelled. Both run when the provider mounts and race on storage; the model applies them one after the other.
- `Math.sqrt` and `Math.round` on floating point are replaced by an exact integer square root and half-up rounding of a rational. For whole experience values these agree with the floating-point result except where the float rounding itself errs.
- Dimensions are `real` numbers: the tablet rule has no rounding.
- `encodeURIComponent` of search queries is not modelled. A search call carries the raw query.
- Quiz.AnswerItems keeps insertion order. `Object.entries` puts integer-like keys first, and that reordering is not modelled.
- Results.Summarise: a negative time, which `parseInt` can produce from a crafted `timeSpent`, is shown as `0m 0s`. The screen would print the floor-division form.
- WebSocket.OnMessage: a `newNotification` frame without `data` throws inside the handler and is logged. Here it raises the default notice, as a frame with `data` and no message does.
- Chat.OnMessage: a `newMessage` frame without `data` appends `undefined` to the list. The model has no such message value.
- Notifications.FetchList: an `ok` and `success` answer whose `data` is missing is not modelled; the answer always carries a list. The screen would store `undefined` and then throw while counting.
- Screen `isMounted` guards and unmount cleanup are not modelled. They only stop state updates after the screen is gone.
- The loading flags of the rename and create screens are represented by the request being sent. The flag is raised exactly when a request goes out and lowered when it settles.
- Date formatting, `toLocaleDateString` and the message timestamps are not modelled.
- Image picking, avatar upload, blob-to-base64 conversion and shake detection are not modelled. An avatar arrives as an image-or-nothing input.
- The notification service, network context, offline notice and notification context are glue around platform APIs and are not modelled.
- Rendering, styling, navigation containers and accessibility announcements are not modelled. Where a screen navigates, the destination and its parameters are the output.
- The thin screens that only issue a request are not modelled: home, test selection, group settings, preferences and accessibility settings.

## Findings

| source | as written | input that shows it | evidently intended | confidence | as-written member | corrected member |
|---|---|---|---|---|---|---|
| src/utils/apiClient.ts:58-61 | a queued request resumed after a successful refresh calls `fetchWithAuth(url, options)` from the closure it was queued in, ignoring the `newToken` it was resolved with, so it sends the bearer captured before the refresh | two requests made with token `T0` both get 401; the first leads a refresh that returns `T1`; the second is resumed and sends `Bearer T0`; if the server rejects `T0` again, a second refresh starts immediately | the resumed request is sent with the refreshed token `newToken` | medium, not executed | Coordinator.AsWrittenSecondRefresh | Coordinator.CorrectedResumeSendsFreshToken |
| src/screens/GroupChatScreen.tsx:193-201 | the error banner's retry closes the socket, sets `wsRef.current` to null and clears the error ("Restart the effect"), but the socket effect depends only on `groupId` and `userId`, so no new socket is opened | a connection error, then pressing retry: `connected` is false and `wsRef.current` is null from then on, so `sendMessage` returns at its guard for every input | the retry re-runs the connection effect and opens a new socket | medium, not executed | Chat.AsWrittenRetryNeverReconnects | Chat.CorrectedRetryReconnects |

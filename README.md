# Gemini-style chat front end: a verified model of its core logic

This project models the logic under the user interface of a browser chat
client that has no backend. It covers these parts:

- **Store** (`store.dfy`): the application store. It holds authentication, the theme, the sidebar and typing flags, the chat collection and the active chat id. It is a class whose actions overwrite only the fields they name. Its invariant is "the active id is null or names an existing chat".
- **Pagination** (`pagination.dfy`): the chat pane's message window. It shows the last 20 messages per page and grows backwards on "load older". The page and fetch bookkeeping that the component's effects and handlers update is a class.
- **ChatList** (`chat_list.dfy`): the sidebar's case-insensitive search filter and the title it shows for each chat. The title keeps the operator-precedence quirk of the source.
- **Sidebar** (`sidebar.dfy`): the "New Chat" button.
- **ChatInput** (`chat_input.dfy`): the message composer. It covers:
  - the image picker's MIME check;
  - the submit rule and the user message it appends;
  - the typing flag;
  - the simulated AI reply that a timer appends later.
- **Validation** (`validation.dfy`): the phone-number and OTP schemas as predicates with the issues they report, and `validateData`'s error map.
- **Auth** (`auth.dfy`): the sign-in step machine (phone → OTP → logged in, and "Change number" back to phone) and the hard-coded OTP check.
- **Timing** (`timing.dfy`): `throttle` and `debounce` as state machines over an explicit clock.
- **CountryCodes** (`country_codes.dfy`): the country list pipeline. It builds the dial codes, drops entries without a root, sorts by dial code and keeps the first entry per dial code. It also models the loading/error outcome of the fetch.
- **Shared helpers**: `Wrappers` (`Option`), `Strings` (JavaScript `trim`, `toLowerCase`, `includes`, `startsWith`, and number-to-string for clock readings) and `Sequences` (subsequence and suffix).

Outside inputs are parameters:

- Clock readings (`Date.now()`) are `nat` parameters.
- `Math.random()` is a `real` in `[0, 1)`.
- Every `setTimeout` is an explicit "fire" event. Each such event is a method on the object that scheduled the timer.

## Model

| member | source | states |
|---|---|---|
| Store.InitialTheme | store/useAppStore.js:4-9 | the stored theme when one is stored and non-empty, "dark" otherwise |
| Store.ToggledTheme | store/useAppStore.js:28-35 | the result is "light" exactly when the old theme is "dark", and "dark" otherwise |
| Store.ToggleTwice | store/useAppStore.js:28-35 | toggling twice restores "dark" and "light"; any other value becomes "light" |
| Store.InitialStateValid | store/useAppStore.js:47-71 | the initial collection is the one chat "1", so the initial active id "1" exists and the ids are distinct |
| Store.MergeAuth | store/useAppStore.js:19-22 | a shallow merge: each key in the patch overwrites, and each absent key keeps its old value |
| Store.RemoveChat | store/useAppStore.js:86-88 | the result is an order-preserving subsequence with no chat of that id; every other chat stays; its length drops by the number of matching chats |
| Store.RemoveAbsentIsIdentity | store/useAppStore.js:86-88 | deleting an id that no chat has changes nothing |
| Store.RemoveKeepsUniqueIds | store/useAppStore.js:86-88 | deleting keeps chat ids pairwise distinct |
| Store.ActiveAfterDelete | store/useAppStore.js:89-99 | another chat's id stays active; deleting the active chat makes the first remaining chat active, or none if no chat is left |
| Store.DeleteKeepsActiveValid | store/useAppStore.js:84-100 | deleting any id preserves "the active id is null or exists" |
| Store.AppendToChat | store/useAppStore.js:103-110 | the chat count is unchanged; each chat with the id gets the message at its end; every other chat is identical |
| Store.AppendKeepsIds | store/useAppStore.js:103-110 | appending changes no chat id, so the active-id invariant and distinct ids are preserved |
| Store.AppendUnmatchedIsIdentity | store/useAppStore.js:103-110 | appending to an id that no chat has changes nothing |
| Store.AppendAllInOrder | store/useAppStore.js:103-110 | after a series of appends, a matching chat ends with exactly those messages, in order |
| Store.AddChatKeepsUniqueIds | store/useAppStore.js:77-81 | adding a chat whose id is new keeps ids distinct |
| Store.AppStore.constructor | store/useAppStore.js:4-71 | the initial state is logged out, with the stored-or-dark theme, both flags off, the one placeholder chat, and active id "1"; the invariant holds |
| Store.AppStore.SetAuthState | store/useAppStore.js:19-22 | the auth state becomes the merge of the old state and the patch; nothing else changes |
| Store.AppStore.ToggleTheme | store/useAppStore.js:28-35 | the theme flips and the new value is persisted |
| Store.AppStore.ToggleSidebar | store/useAppStore.js:39-40 | negates the sidebar flag |
| Store.AppStore.SetAiTyping | store/useAppStore.js:43-44 | the typing flag becomes the argument |
| Store.AppStore.SetActiveChatId | store/useAppStore.js:74 | stores the id unchecked; the invariant holds afterwards exactly when a chat has that id |
| Store.AppStore.AddChat | store/useAppStore.js:77-81 | the new chat is at index 0, the old chats follow in order, and the new chat is active |
| Store.AppStore.DeleteChat | store/useAppStore.js:84-100 | the collection becomes the filtered one and the active id follows the deletion rule; the invariant is kept, or restored when the active chat is deleted |
| Store.AppStore.AddMessage | store/useAppStore.js:103-110 | the collection becomes the appended one; the invariant and distinct ids are kept; the active id is unchanged |
| Pagination.ActiveMessages | components/ChatArea.js:14-20 | the messages of the first chat with the active id, or none when there is no active id or no such chat |
| Pagination.StartIndex | components/ChatArea.js:30-34 | `0 <= start <= total`; the start is 0 iff `total <= page*20`, and otherwise it is `total - page*20` |
| Pagination.Displayed | components/ChatArea.js:35 | a suffix of the messages, of length `min(total, page*20)` |
| Pagination.HasMore | components/ChatArea.js:36 | holds iff `total > page*20` |
| Pagination.CanLoadOlder | components/ChatArea.js:70-75 | holds iff there are more than `page*20` messages, the AI is not typing, the container is mounted and no fetch is in flight |
| Pagination.WindowGrowsBackwards | components/ChatArea.js:31-35 | a later page's window extends the earlier one towards older messages: the old window is a suffix of the new one |
| Pagination.NoActiveChatShowsNothing | components/ChatArea.js:20-36 | with no active chat, nothing is displayed and there is nothing more to load |
| Pagination.FortyFiveMessages | components/ChatArea.js:30-36 | 45 messages show 20, then 40, then all 45, and only the third page has nothing more |
| Pagination.AfterLoadNextPage | components/ChatArea.js:69-82 | without more messages, or while typing, or with no container, or during a fetch, nothing changes; otherwise the fetch flag is set, the height is saved, one page bump is scheduled, and the page is unchanged |
| Pagination.AfterScroll | components/ChatArea.js:85-93 | below the top threshold (scrollTop < 50) the result is exactly that of "load older"; at or above it nothing changes |
| Pagination.AfterPageTimer | components/ChatArea.js:78-80 | the page grows by one and one timer is consumed; the fetch flag, the saved height and the initial-load flag are untouched |
| Pagination.AfterMessageCountChange | components/ChatArea.js:39-59 | with a mounted container, a saved height clears the fetch flag and the height, and the first non-empty count ends the initial load; otherwise nothing changes |
| Pagination.AfterChatChange | components/ChatArea.js:62-66 | back to page 1 with a fresh initial load and no saved height; the fetch flag and pending timers stay |
| Pagination.AfterSwitch | components/ChatArea.js:39-66 | a chat switch resets to page 1 with a fresh initial load and no saved height. When the message count changed and a height was saved, the count effect runs first and ends the fetch; otherwise the fetch flag is kept |
| Pagination.SwitchKeepingCountStrandsFetch | components/ChatArea.js:62-66 | as written, a switch during a fetch to a chat with the same message count leaves the fetch flag set with no saved height |
| Pagination.StrandedIsPermanent | components/ChatArea.js:39-93 | from a flag set with no saved height, "load older" can never start, and the page timer, the count effect and any switch all keep that state |
| Pagination.AfterChatChangeIntended | components/ChatArea.js:62-66 | corrected: the reset also ends any fetch, so the flag is clear on the new chat |
| Pagination.IntendedSwitchAllowsLoading | components/ChatArea.js:62-75 | after the corrected reset, a chat with more than 20 messages can always load older ones |
| Pagination.FetchFlagClearedOnlyByCountChange | components/ChatArea.js:43-48 | during a fetch, loading, scrolling, the page timer and the reset effect on its own all leave the fetch flag set |
| Pagination.SecondLoadIsBlocked | components/ChatArea.js:39-82 | as written, after the first page bump the flag is still set, so a second "load older" does nothing although more messages exist |
| Pagination.StaleTimerBumpsNextChat | components/ChatArea.js:62-80 | a page timer scheduled before a switch to a chat of the same size bumps the new chat to page 2 |
| Pagination.AfterPageTimerAnchored | components/ChatArea.js:43-49 | corrected: the page bump also ends the fetch when a height was saved |
| Pagination.IntendedRoundsAdvance | components/ChatArea.js:69-82 | under the corrected rule, each "load older" round shows one more page until nothing older is left |
| Pagination.IntendedRoundsRevealAll | components/ChatArea.js:30-36 | under the corrected rule, `total/20` rounds reveal every message |
| Pagination.PaginationView.constructor | components/ChatArea.js:22-28 | page 1, no fetch, initial load, no saved height |
| Pagination.PaginationView.LoadNextPage | components/ChatArea.js:69-82 | the new state is `AfterLoadNextPage` of the old state |
| Pagination.PaginationView.HandleScroll | components/ChatArea.js:85-93 | the new state is `AfterScroll` of the old state |
| Pagination.PaginationView.FirePageTimer | components/ChatArea.js:78-80 | the new state is `AfterPageTimer` of the old state |
| Pagination.PaginationView.OnMessageCountChange | components/ChatArea.js:39-59 | the new state is `AfterMessageCountChange` of the old state |
| Pagination.PaginationView.OnActiveChatChange | components/ChatArea.js:62-66 | the new state is `AfterChatChange` of the old state |
| Pagination.PaginationView.SwitchChat | components/ChatArea.js:39-66 | the new state is `AfterSwitch` of the old state: the count effect when the count changed, then the reset effect |
| ChatList.Matches | components/ChatList.js:26-33 | a chat matches iff the lower-cased filter is empty, or occurs in its non-empty title, or occurs in its non-empty first message text; later messages are never consulted |
| ChatList.Filtered | components/ChatList.js:25-33 | an order-preserving subsequence of the chats that keeps exactly the chats that match, each as many times as it occurs in the input |
| ChatList.EmptyFilterMatchesAll | components/ChatList.js:25-32 | every chat matches the empty filter |
| ChatList.EmptyFilterKeepsAll | components/ChatList.js:26-33 | the empty filter returns the whole list, in order |
| ChatList.OnlyFirstMessageCounts | components/ChatList.js:29-31 | messages after the first never change whether a chat matches |
| ChatList.NoTextNoTitleMatchExcluded | components/ChatList.js:27-32 | a non-empty filter excludes a chat when its title does not match and its first text is empty or absent |
| ChatList.Truncated | components/ChatList.js:75-76 | the text itself if it has at most 25 characters; otherwise its first 25 characters followed by "..." |
| ChatList.DisplayTitle | components/ChatList.js:74-78 | with no messages the title is "undefined"; a non-empty first text gives its truncation; an empty first text falls back to the title, then "New Chat" |
| ChatList.NewChatListedAsUndefined | components/ChatList.js:74-78 | as written, a fresh "New Chat" is listed as "undefined" |
| ChatList.IntendedDisplayTitle | components/ChatList.js:74-78 | corrected: never empty; it is the truncated first text, or else the title, or else "New Chat" |
| ChatList.TitlesAgreeWithMessages | components/ChatList.js:74-78 | the two titles agree on every chat that has a message |
| Sidebar.NewChat | components/Sidebar.js:30-36 | the record has title "New Chat", no messages, the id clock reading as its decimal id, and the second reading as `createdAt` |
| Sidebar.NewChatIdsDistinct | components/Sidebar.js:30 | different clock readings give different ids |
| Sidebar.NewChatAfterEarlierChatsKeepsIds | components/Sidebar.js:30-37 | when every existing chat was created at an earlier reading, ids stay distinct after the add |
| Sidebar.HandleNewChat | components/Sidebar.js:29-39 | the new chat heads the list and is active, the sidebar ends closed, and the invariant holds |
| Strings.Trim | src/components/chat/ChatInput.js:66 | the slice of the input left after removing white space only: every character before it and after it is JavaScript white space, and it neither starts nor ends with white space; empty iff the input is all white space |
| Strings.NatToStringRoundTrip | components/Sidebar.js:30 | reading back the decimal string of a clock value gives the value |
| Strings.NatToStringInjective | components/Sidebar.js:30 | different numbers give different strings |
| ChatInput.ThinkingTime | src/components/chat/ChatInput.js:92-95 | the delay is an integer in [2000, 5000] |
| ChatInput.EveryDelayReachable | src/components/chat/ChatInput.js:92-95 | each delay in [2000, 5000] is drawn for some random value |
| ChatInput.SubmitAccepted | src/components/chat/ChatInput.js:68 | accepted iff an image is attached or the text has a character that is not white space |
| ChatInput.SubmitRule | src/components/chat/ChatInput.js:66-71 | white-space-only text without an image is refused; an image alone, or any non-space character, is accepted |
| ChatInput.UserMessage | src/components/chat/ChatInput.js:73-80 | role "user" with the trimmed text and the image; type "image" iff an image is attached; the id is the clock reading followed by "u" |
| ChatInput.ReplySubject | src/components/chat/ChatInput.js:103-105 | the user's text, or "the attached image" when the text is empty |
| ChatInput.ReplyText | src/components/chat/ChatInput.js:98-107 | starts with the image prefix iff an image was attached, and with the text prefix otherwise; it quotes the user's text or "the attached image" |
| ChatInput.AiReply | src/components/chat/ChatInput.js:109-115 | role "ai", type "text", no image, the reply text, and a timestamp 100 ms after the clock |
| ChatInput.IsImageType | src/components/chat/ChatInput.js:45 | holds iff the MIME type begins with "image/" |
| ChatInput.Composer.constructor | src/components/chat/ChatInput.js:35-36 | empty text, no image, no pending reply |
| ChatInput.Composer.EditText | src/components/chat/ChatInput.js:148 | the text becomes the argument; nothing else changes |
| ChatInput.Composer.ChangeImage | src/components/chat/ChatInput.js:42-55 | no file or a non-image file keeps the current image; an image file's data URI becomes the image |
| ChatInput.Composer.RemoveImage | src/components/chat/ChatInput.js:57-62 | the image is cleared |
| ChatInput.Composer.Submit | src/components/chat/ChatInput.js:64-95 | a refused submit changes nothing. An accepted one appends one user message to the given chat, clears the text and the image, sets the typing flag, and records one pending reply for that chat id |
| ChatInput.Composer.Send | src/components/chat/ChatInput.js:73-95 | the accepted branch, with the new state stated in full |
| ChatInput.Composer.FireReply | src/components/chat/ChatInput.js:97-119 | the reply goes to the chat id captured at submit time, whichever chat is active; the typing flag is cleared; the timer is consumed; the invariant is kept |
| Validation.ValidPhoneNumber | utils/validation.js:10-14 | 6 to 15 characters, all of them ASCII digits |
| Validation.ValidOtp | utils/validation.js:26-29 | exactly 6 characters, all of them ASCII digits |
| Validation.PhoneNumberIssues | utils/validation.js:10-14 | no issues iff 6 to 15 characters, all digits. Under "phoneNumber", each message (too short, too long, not digits) is present iff its check fails, no other message appears, and the digits message comes last |
| Validation.OtpIssues | utils/validation.js:26-29 | no issues iff exactly 6 characters, all digits. Under "otp", the length message is present iff the length is not 6, the digits message iff a non-digit occurs (and then last), and no other message appears |
| Validation.SchemaIssues | utils/validation.js:8-30 | the phone schema judges only `phoneNumber`, and the OTP schema only `otp` |
| Validation.FullPhoneNumberUnconstrained | utils/validation.js:19 | any `fullPhoneNumber` leaves the phone schema's verdict unchanged |
| Validation.Parse | utils/validation.js:35 | parsing succeeds iff there are no issues; otherwise it fails with those issues |
| Validation.IssueKey | utils/validation.js:41 | the first path element, or "undefined" for an empty path |
| Validation.Formatted | utils/validation.js:40-43 | the keys of the error map are exactly the first path elements of the issues |
| Validation.FormattedLastWins | utils/validation.js:40-43 | for each field, the message of its last issue is the one kept |
| Validation.FormatIssues | utils/validation.js:40-43 | the accumulator loop builds exactly the `Formatted` map |
| Validation.ValidateOutcome | utils/validation.js:33-51 | success with null errors iff the parse succeeded; a validation error gives the formatted map; any other error gives only the "general" message |
| Validation.ValidateData | utils/validation.js:33-51 | success iff the data meets the schema; otherwise there is one message per failing field |
| Validation.ShortNonDigitPhoneReportsDigitsRule | utils/validation.js:12-14 | a short number with a non-digit is reported only with the digits message |
| Validation.ShortDigitPhoneReportsLength | utils/validation.js:12-14 | a short number of digits is reported with the minimum-length message |
| Validation.FormattedOneKey | utils/validation.js:40-43 | issues that all share one key are reported as the last one's message under that key |
| Validation.PhoneReportedMessage | utils/validation.js:10-14 | every invalid phone number is reported with exactly one message: the digits message if a non-digit occurs, else the too-long message if over 15 characters, else the too-short message |
| Validation.OtpReportedMessage | utils/validation.js:26-29 | every invalid OTP is reported with exactly one message: the digits message if a non-digit occurs, else the length message |
| Auth.CurrentSchema | src/components/Auth/PhoneInputForm.js:18 | the phone schema in the phone step, the OTP schema otherwise |
| Auth.OtpAccepted | src/components/Auth/OTPForm.js:24 | only "123456" is accepted, and every accepted code passes the OTP schema |
| Auth.AcceptedOtpReachable | src/components/Auth/OTPForm.js:24-26 | "123456" passes the OTP schema, so an accepted code can reach the check |
| Auth.ValidOtpMayBeRefused | src/components/Auth/OTPForm.js:24-28 | some code that passes the schema is still refused |
| Auth.LoginPatch | src/components/Auth/PhoneInputForm.js:55-61 | merged into a logged-out state, it gives a logged-in state with the user (full number, "User") |
| Auth.LoginOverridesEverything | src/components/Auth/PhoneInputForm.js:55-61 | whatever the prior auth state, the result is logged in with that user |
| Auth.PhoneSignIn.constructor | src/components/Auth/PhoneInputForm.js:14-27 | the phone step with every field empty and no timers |
| Auth.PhoneSignIn.EditPhone | src/components/Auth/PhoneInput.js:69-98 | the national number and the full number become the arguments; nothing else changes |
| Auth.PhoneSignIn.EditOtp | src/components/Auth/OTPForm.js:37-49 | the OTP field becomes the argument; nothing else changes |
| Auth.PhoneSignIn.SubmitPhone | src/components/Auth/PhoneInputForm.js:36-53 | the send timer starts iff the resolver's schema accepts the fields, that is, iff the phone number is valid |
| Auth.PhoneSignIn.FireSendTimer | src/components/Auth/PhoneInputForm.js:41-52 | the step becomes "otp" unconditionally |
| Auth.PhoneSignIn.ChangeNumber | src/components/Auth/PhoneInputForm.js:74-77 | back to the phone step with every field reset to its default |
| Auth.PhoneSignIn.SubmitOtp | src/components/Auth/OTPForm.js:16-22 | the verification timer starts, with the code, iff the code passes the OTP schema |
| Auth.PhoneSignIn.FireVerifyTimer | src/components/Auth/OTPForm.js:22-31 | logs in once iff the code is "123456", and otherwise leaves auth unchanged; the timer resolves in both cases |
| Auth.PhoneSignIn.HandleSuccessfulVerification | src/components/Auth/PhoneInputForm.js:55-61 | logged in, with the user being the current full number and "User" |
| Timing.Throttled | utils/index.js:28-38 | the calls that run form a subsequence of the calls made |
| Timing.ThrottleSpacing | utils/index.js:29-36 | the first run is at least `limit` after time 0; consecutive runs are at least `limit` apart; with `limit >= 0`, any two runs are |
| Timing.ThrottleAdmits | utils/index.js:31-36 | a call runs iff `now - lastCall >= limit`; a dropped call changes nothing |
| Timing.FirstCall | utils/index.js:29-34 | the first call runs iff `now >= limit` |
| Timing.Throttler.constructor | utils/index.js:28-29 | `lastCall` starts at 0 with no runs |
| Timing.Throttler.Call | utils/index.js:30-37 | runs iff `now - lastCall >= limit`; a run sets `lastCall` to `now` and counts one run; a dropped call changes neither |
| Timing.FireAt | utils/index.js:16-18 | the timer goes off `delay` after the call, or at once for a negative delay |
| Timing.DebounceStep | utils/index.js:11-18 | a call replaces any pending invocation with its own arguments, due `delay` later; a due tick runs the pending one once |
| Timing.DebounceLatestWins | utils/index.js:10-18 | runs plus pending invocations never exceed calls; the pending invocation is the latest call's, with only ticks since |
| Timing.Debouncer.constructor | utils/index.js:9-10 | nothing pending, nothing run |
| Timing.Debouncer.Call | utils/index.js:11-18 | the pending invocation becomes this call's, due `delay` later |
| Timing.Debouncer.Tick | utils/index.js:16-18 | runs the pending invocation iff it is due, with its arguments |
| CountryCodes.FirstSuffix | hooks/useCountryCodes.js:31-34 | the first suffix, or "" when the list is missing or empty |
| CountryCodes.DialCode | hooks/useCountryCodes.js:30-38 | defined iff the root is present and non-empty; then it is the root followed by the first suffix (or "") |
| CountryCodes.ToCode | hooks/useCountryCodes.js:38-45 | a record with the common name, cca2, svg flag and dial code, exactly when there is a dial code |
| CountryCodes.ParseCountries | hooks/useCountryCodes.js:27-47 | every record comes from an input country with a dial code, and every such country gives its record |
| CountryCodes.ParseOneCountry | hooks/useCountryCodes.js:27-47 | a single country gives its record when it has a dial code, and nothing otherwise |
| CountryCodes.ParseCountriesAppend | hooks/useCountryCodes.js:27-47 | parsing a concatenation gives the records of each part in turn, so input order and one record per valid country are kept |
| CountryCodes.LessEqTotal | hooks/useCountryCodes.js:48 | the dial-code order is total |
| CountryCodes.LessEqTransitive | hooks/useCountryCodes.js:48 | the dial-code order is transitive |
| CountryCodes.LessEqAntisymmetric | hooks/useCountryCodes.js:48 | the dial-code order is antisymmetric |
| CountryCodes.SortByDialCode | hooks/useCountryCodes.js:48 | a permutation of the input in ascending dial-code order |
| CountryCodes.SortIsStable | hooks/useCountryCodes.js:48 | records with equal dial codes keep their input order |
| CountryCodes.KeepFirst | hooks/useCountryCodes.js:51-56 | never longer than the input, and the first record is always kept |
| CountryCodes.KeepFirstFacts | hooks/useCountryCodes.js:51-56 | the kept list is a subsequence with pairwise distinct dial codes, and every dial code survives |
| CountryCodes.KeepFirstSorted | hooks/useCountryCodes.js:48-58 | deduplicating a sorted list keeps it sorted |
| CountryCodes.KeepFirstEarliest | hooks/useCountryCodes.js:52-55 | each kept record is the earliest with its dial code |
| CountryCodes.CountryList | hooks/useCountryCodes.js:27-58 | the stored list: parse, then sort by dial code, then keep the first record per dial code |
| CountryCodes.CountryListSortedAndDistinct | hooks/useCountryCodes.js:48-58 | the output is in ascending dial-code order with distinct dial codes |
| CountryCodes.CountryListCoversInput | hooks/useCountryCodes.js:30-58 | every valid input dial code appears in the output |
| CountryCodes.CountryListFromInput | hooks/useCountryCodes.js:27-58 | every output record is built from an input country |
| CountryCodes.CountryListKeepsFirstOfInput | hooks/useCountryCodes.js:48-58 | each kept record is the first in input order with its dial code |
| CountryCodes.ObjectValues | hooks/useCountryCodes.js:58 | the values of the object, one per key, in key-insertion order |
| CountryCodes.UniqueByDialCode | hooks/useCountryCodes.js:51-58 | the object-filling loop returns exactly the keep-first deduplication |
| CountryCodes.ProcessCountries | hooks/useCountryCodes.js:27-58 | the processed data is the whole pipeline's output |
| CountryCodes.CountryCodesState.constructor | hooks/useCountryCodes.js:13-15 | no data, loading, no error |
| CountryCodes.CountryCodesState.FetchSettled | hooks/useCountryCodes.js:20-64 | loading always ends. Received data sets the list; a bad HTTP status sets "Failed to fetch country data"; any other failure sets its message; on failure the data is unchanged |

## Left out

- Rendering is not modelled: JSX, styling, icons, skeletons, the image preview, the typing indicator and the presentational components.
- DOM scrolling is not modelled: the scroll-anchoring arithmetic and `scrollIntoView` in components/ChatArea.js. Only the height being saved and cleared is modelled; the container's `scrollHeight` is a parameter.
- The 100 ms throttle around the chat pane's scroll handler is not composed with `Pagination.AfterScroll`. The throttle is modelled on its own in `Timing`.
- Toasts and console output have no statable effect and are not modelled.
- The country-data `fetch` and `response.json()` are not modelled. Their results are the `FetchOutcome` parameter, whose payload is the already-decoded country records.
- `localStorage` is the ghost field `storedTheme`. It is read once at start-up, so the constructor takes the stored value as a parameter.
- `FileReader` is asynchronous; `Composer.ChangeImage` treats the read as completing at once and takes the data URI as input.
- Clock readings, `Math.random()` and `setTimeout` are parameters and explicit fire events. The real timing of timers (which fires first) is left to the caller.
- The initial chat uses one clock reading for its messages' timestamps and its `createdAt`, where the source reads the clock three times.
- `CountryCodes.LessEq` replaces `localeCompare`, which depends on the locale. It is lexicographic order on Unicode code points, a total order, so sorting and deduplication are proved for it rather than for a locale collation.
- `CountryCodes.ObjectValues` gives the values in key-insertion order. JavaScript lists integer-like keys first, but dial codes start with "+", so this never applies.
- Keys that collide with `Object.prototype` members are not modelled.
- ChatInput.SecondsText: renders `thinkingTime / 1000` as JavaScript prints it for whole-millisecond delays, which are the only ones drawn. Its contract states only that the text is non-empty; the reply's prefix and quoted subject are what is proved.
- Zod and react-hook-form internals are reduced to the issue lists of `Validation`. The resolver is taken to use the current step's schema. The `isSubmitting` guard that disables the buttons during a pending timer is not modelled, so several timers may be pending.
- ChatList.Truncated: lengths and slices count Unicode code points, because a Dafny string is a sequence of Unicode scalar values. The source's `substring(0, 25)` and `length > 25` count UTF-16 code units. The two agree on text without characters outside the Basic Multilingual Plane. With emoji, the source cuts earlier and can leave half a surrogate pair.
- Validation.PhoneNumberIssues and Validation.OtpIssues count code points for zod's `min`, `max` and `length` checks, where zod counts UTF-16 code units. The verdict is the same because any character outside the BMP also fails the digits check; only which length messages are listed can differ.
- Timing.FireAt: `setTimeout` converts the delay to a 32-bit signed integer, so a delay of 2^31 ms or more fires at once. The model adds such delays in full.
- Unicode case mapping and Unicode white space beyond the JavaScript `trim` set are not modelled. `Strings.Lower` lowers ASCII letters only.
- A verification timer that fires after "Change number" logs in with the reset, empty full number. `Auth.PhoneSignIn.FireVerifyTimer` models this as written.
- src/App.jsx, components/Auth/AuthScreen.jsx, src/components/Auth/PhoneInput.js and components/DebouncedSearchBar.js are not part of this model. They use store members that do not exist, or are wiring only.
- Timing.ThrottleSpacing: pairwise spacing is stated for `limit >= 0` only. It needs no assumption on the clock, and for a negative limit with a non-decreasing clock it holds trivially. Consecutive spacing is stated for any limit.

## Findings

| source | as written | input that shows it | evidently intended | confidence | as-written member | corrected member |
|---|---|---|---|---|---|---|
| components/ChatArea.js:43-49, 78-80 | `isFetchingOlder` is cleared only by the effect keyed on the message count, and a page bump does not change that count | a chat with 45 messages: the first "load older" shows 40; the flag stays set, so a second one does nothing and 5 messages stay hidden until the message count changes (a new message arrives) | the fetch ends when the new page is displayed, so each "load older" reveals 20 more until all are shown | not executed | Pagination.SecondLoadIsBlocked | Pagination.AfterPageTimerAnchored |
| components/ChatArea.js:62-66 | the reset effect on a chat switch clears the saved height but not `isFetchingOlder` | during a fetch, switch to another chat with the same message count: the flag stays set with no saved height, and "load older" never works again while the pane is mounted | a chat switch ends any fetch of the previous chat | not executed | Pagination.SwitchKeepingCountStrandsFetch | Pagination.AfterChatChangeIntended |
| components/ChatList.js:74-78 | the concatenation binds before the logical-or fallbacks, so with no messages the left operand is `undefined + ""`, the truthy string "undefined" | a chat just created by "New Chat" (no messages) is listed as "undefined" | the truncated first text if there is one, else the title, else "New Chat" | not executed | ChatList.NewChatListedAsUndefined | ChatList.IntendedDisplayTitle |

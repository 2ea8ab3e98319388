# Encrypted chat front end — a verified Dafny model

This project models the client side of a Next.js chat application. The model covers:

- the realtime socket holder;
- the chat screen, with its list, open conversation, message bubbles, composer, demo and presence badge;
- the auth and profile Redux slices;
- the password field with its strength meter;
- the sign-up, sign-in, OTP, update-password and edit-profile forms;
- the profile part of the settings page.

Each source file becomes one Dafny module:

| module | source |
|---|---|
| `Realtime` | `lib/socket.ts` |
| `ChatPage` | `app/chat/page.tsx` |
| `ChatSidebar` | `components/chat/chat-sidebar.tsx` |
| `ChatInput` | `components/chat/chat-input.tsx` |
| `ChatMessage` | `components/chat/chat-message.tsx` |
| `ChatDemo` | `components/chat/chat-demo.tsx` |
| `StatusIndicator` | `components/chat/user-status-indicator.tsx` |
| `AuthSlice` | `lib/store/slices/auth-slice.ts` |
| `ProfileSlice` | `lib/store/slices/profile-slice.ts` |
| `PasswordInput` | `components/ui/password-input.tsx` |
| `SignupForm` | `components/auth/signup-form.tsx` |
| `SignupPage` | `app/signup/page.tsx` |
| `UpdatePassword` | `app/update-password/page.tsx` |
| `LoginForm` | `components/auth/login-form.tsx` |
| `VerifyOtpForm` | `components/auth/verify-otp-form.tsx` |
| `EditProfile` | `components/profile/edit-profile-form.tsx` |
| `SettingsPage` | `app/settings/page.tsx` |

Shared modules hold what several of these files repeat:

- `Wrappers`: an optional value.
- `Text`: the JavaScript string operations used. These are `\s` whitespace, `trim`, ASCII `toLowerCase`, `includes`, `startsWith`, `split`/`join` and decimal rendering.
- `Seqs`: filtering, subsequences, and removal by index or by value.
- `ChatModel`: messages, conversations and presence.
- `Files`: a picked file, the avatar type and size checks, and object URLs.
- `Accounts`: the user record, the "current user" fallback, the avatar initials and API outcomes.
- `Validators`: the password, username, email and OTP rules.
- `Ui`: what a screen hands to the store, the toaster and the router.

Pure code becomes functions. A thing whose fields change becomes a class whose methods are proved against those functions:

- The socket holder, the chat screen, the composer, the demo and the strength meter are classes.
- The two stores and the form states are classes too.
- A Redux slice is a pure `Reduce` function. Its store class's `Dispatch` assigns fields in place and is proved to agree with `Reduce`.
- A React component's state is a class. Its event handlers are methods.
- Toasts, store dispatches and navigations are recorded in order as `Ui.Effect` values.
- The browser and the servers enter as inputs:
  - `URL.createObjectURL` is a function parameter `mint`;
  - `Date.now()` is a number;
  - `window.confirm` is a boolean;
  - each awaited thunk's outcome is a `Ui.Outcome`.
- A handler that waits 1.5 s is split into `Submit`, which runs up to the wait, and `DelayElapsed`, which runs the rest.

## Model

| member | source | states |
|---|---|---|
| Realtime.NamesDistinct | lib/socket.ts:4-14 | the nine server events have pairwise distinct wire names, so registering on one never touches another |
| Realtime.SocketClient.constructor | lib/socket.ts:27-31 | a fresh client has no socket and a zero attempt counter |
| Realtime.SocketClient.ConnectionState | lib/socket.ts:113-117 | "disconnected" iff there is no socket, "connected" iff the socket is connected, "connecting" otherwise |
| Realtime.SocketClient.IsConnected | lib/socket.ts:109-111 | true exactly in the "connected" state |
| Realtime.SocketClient.Connect | lib/socket.ts:33-69 | a connected socket is returned untouched; otherwise a new socket with exactly the four lifecycle listeners replaces the old one, which is left open and keeps its listeners; the attempt counter is never reset here |
| Realtime.SocketClient.SocketConnected | lib/socket.ts:46-49 | a "connect" event on a socket carrying the client's listener sets the attempt counter to 0 |
| Realtime.SocketClient.SocketConnectError | lib/socket.ts:55-62 | each "connect_error" raises the counter by exactly 1, throws nothing, and reports max-reached iff the count is at least 5 |
| Realtime.SocketClient.SocketDropped | lib/socket.ts:51-53 | a drop only marks the socket disconnected; counter and listeners stay |
| Realtime.SocketClient.Disconnect | lib/socket.ts:71-79 | with a socket: all listeners removed, socket closed and forgotten, counter 0; without one nothing changes, so a second call is a no-op |
| Realtime.SocketClient.Emit | lib/socket.ts:81-87 | the event is sent iff connected; otherwise nothing is sent and no state changes |
| Realtime.SocketClient.On | lib/socket.ts:89-93 | appends the handler to that event only; every other listener list, including the connect, disconnect and connect_error ones, and the connected, closed and sent state stay as they were; nothing without a socket |
| Realtime.SocketClient.Off | lib/socket.ts:95-103 | `off(e, h)` removes only the first registration of `h`, `off(e)` removes all of `e`, every other listener list, including the lifecycle ones, and the connected, closed and sent state stay as they were; nothing without a socket |
| ChatPage.MockChatsWellFormed | app/chat/page.tsx:21-127 | the seed conversations have distinct ids and distinct message ids |
| ChatPage.NewMessage | app/chat/page.tsx:158-170 | the new message has id "m" + the clock, sender "me", receiver the open chat's participant, encrypted and unread, and one object URL per file in file order or no attachments |
| ChatPage.NewMessageIdsDiffer | app/chat/page.tsx:161 | messages built at different clock values get different ids |
| ChatPage.AppendToChat | app/chat/page.tsx:177-179 | only entries with the open chat's id get the message appended; length, order and all other entries are unchanged |
| ChatPage.EffectSignals | app/chat/page.tsx:141-150 | switching from A to B emits not-viewing(A) before viewing(B); switching to none emits only not-viewing(A) |
| ChatPage.ActivePresence | app/chat/page.tsx:192-200 | both flags false with no open chat; else the stored entry wins; else the seed flags, missing read as false |
| ChatPage.HeaderFlags | app/chat/page.tsx:250-253 | the header badge flags are the presence read-out OR the seed flags |
| ChatPage.RenderConversation | app/chat/page.tsx:268-276 | one bubble per message, each rendered unlocked iff its id equals the global unlocked id |
| ChatPage.AtMostOneRevealed | app/chat/page.tsx:268-276 | with distinct message ids, no two bubbles of the open chat show their content |
| ChatPage.RevealedIffUnlocked | app/chat/page.tsx:272 | a bubble shows its content iff its message carries the unlocked id |
| ChatPage.ChatScreen.constructor | app/chat/page.tsx:130-135 | the screen starts from the seed list with nothing open and no signals |
| ChatPage.ChatScreen.SendMessage | app/chat/page.tsx:156-182 | with no open chat nothing changes; otherwise the message is appended to the open chat and to its list entry, the new message is unlocked, and the viewing pair is emitted again for the same id |
| ChatPage.ChatScreen.MessageClick | app/chat/page.tsx:184-186 | the clicked id, and only it, becomes the unlocked id |
| ChatPage.ChatScreen.SelectChat | components/chat/chat-sidebar.tsx:35-40 | the chosen entry is always opened (re-opening the same object emits nothing); its last message is unlocked only if it has messages |
| ChatPage.ChatScreen.CloseChat | app/chat/page.tsx:232 | closing emits not-viewing for the open chat and leaves everything else |
| ChatSidebar.FilteredChats | components/chat/chat-sidebar.tsx:29-33 | the filtered list is no longer than the list |
| ChatSidebar.FilteredIffMatches | components/chat/chat-sidebar.tsx:29-33 | a chat is listed iff it is in the list and the lower-cased query occurs in its lower-cased name or username |
| ChatSidebar.FilteredAllMatch | components/chat/chat-sidebar.tsx:29-33 | every listed chat matches the query |
| ChatSidebar.FilteredIsSubsequence | components/chat/chat-sidebar.tsx:29 | the filtered list is an order-preserving subsequence of the list |
| ChatSidebar.EmptyQueryKeepsAll | components/chat/chat-sidebar.tsx:29-33 | the empty query keeps every chat |
| ChatSidebar.QueryCaseInsensitive | components/chat/chat-sidebar.tsx:31-32 | the query's letter case does not matter |
| ChatSidebar.GetPresence | components/chat/chat-sidebar.tsx:48-50 | the stored entry, or both flags false for an unknown id |
| ChatSidebar.RowFlags | components/chat/chat-sidebar.tsx:93-95 | a row's flags are the stored presence OR the seed flags, missing read as false |
| ChatSidebar.LastTimestamp | components/chat/chat-sidebar.tsx:122 | the last message's time stamp; absent iff the chat is empty |
| ChatSidebar.OneHighlightedRow | components/chat/chat-sidebar.tsx:102-105 | with distinct chat ids, at most one listed row carries the highlight, and the open conversation's row does whenever the search lets it through |
| ChatPage.UnreadBadges | components/chat/chat-sidebar.tsx:135-139 | the badge shows iff the count is positive: the first and third seed conversations show one, the second does not, and sending a message never adds or clears one |
| Accounts.CurrentUser | app/settings/page.tsx:54-58 | the signed-in user's name, username and avatar, else the placeholder with no avatar ("User"/"user" here, "Demo User"/"demouser" in the sidebar, components/chat/chat-sidebar.tsx:42-46) |
| Accounts.Initials | app/settings/page.tsx:136-139 | the initials never contain a space and use only characters of the name; their exact value is stated by the lemmas below |
| Accounts.InitialsWord | components/chat/chat-sidebar.tsx:110-113 | a space-free name gives its first character, and the empty name gives nothing |
| Accounts.InitialsCons | components/chat/chat-sidebar.tsx:110-113 | a space-free word, a space and a rest give the word's first character (nothing for an empty word, so "A  B" gives "AB") followed by the rest's initials |
| Accounts.InitialsAreWordStarts | app/settings/page.tsx:136-139 | for every name, the initials are exactly the characters that are not spaces and stand first or right after a space, in order |
| Accounts.TwoWordInitials | app/settings/page.tsx:136-139 | two space-free words joined by one space give exactly their two first letters |
| ChatInput.SendEnabledIff | components/chat/chat-input.tsx:244 | the send button is enabled iff not disabled and the draft has a non-whitespace character or a file, the same guard as submit |
| ChatInput.Composer.constructor | components/chat/chat-input.tsx:81-84 | empty draft, panel hidden, no attachments or previews |
| ChatInput.Composer.Submit | components/chat/chat-input.tsx:87-96 | without content nothing happens; otherwise the untrimmed draft and the files (or none when empty) are sent and draft, lists and panel are reset |
| ChatInput.Composer.FileSelect | components/chat/chat-input.tsx:98-115 | zero files change nothing; otherwise only image files are appended, each with its preview, in order, and the lists stay aligned |
| ChatInput.Composer.RemoveAttachment | components/chat/chat-input.tsx:117-121 | index i is dropped from both lists, which stay aligned with the rest in order; the dropped preview is revoked |
| ChatInput.Composer.EmojiClick | components/chat/chat-input.tsx:123-125 | the emoji is appended to the draft and nothing else changes |
| ChatInput.Composer.SetMessage | components/chat/chat-input.tsx:235 | the draft becomes the typed text |
| ChatInput.Composer.ToggleEmoji | components/chat/chat-input.tsx:224 | the panel flips and nothing else changes |
| ChatMessage.RenderLockedContent | components/chat/chat-message.tsx:25-39 | "icon" gives the bare lock, "custom" the custom text, every other mode the lock with "Locked" |
| ChatMessage.ImageSources | components/chat/chat-message.tsx:64-71 | one image per attachment in order, an empty URL replaced by the placeholder |
| ChatMessage.Render | components/chat/chat-message.tsx:23-82 | right-aligned iff sent by "me"; content and images iff unlocked, otherwise only the placeholder; time stamp always, at opacity 60 or 40; a click reports exactly the message id |
| ChatMessage.LockedIndependentOfContent | components/chat/chat-message.tsx:59-79 | a locked bubble is the same whatever the message's content or attachments |
| ChatDemo.RenderDemo | components/chat/chat-demo.tsx:94-127 | right-aligned iff from "user"; content shown iff its id is the unlocked id |
| ChatDemo.DemoIdsDistinct | components/chat/chat-demo.tsx:18-48 | the five demo ids are distinct |
| ChatDemo.ExactlyOneRevealed | components/chat/chat-demo.tsx:95 | while the unlocked id is a demo id, exactly that message is revealed |
| ChatDemo.ChatDemo.constructor | components/chat/chat-demo.tsx:58 | initially "5" is unlocked, so only the last message is revealed |
| ChatDemo.ChatDemo.MessageClick | components/chat/chat-demo.tsx:60-62 | a click reveals the clicked message and only it, and the unlocked id stays a demo id |
| StatusIndicator.SizeTable | components/chat/user-status-indicator.tsx:22-38 | "sm" and "md" share dot and icon classes and differ in gap; "lg" has a larger dot and icon |
| StatusIndicator.Render | components/chat/user-status-indicator.tsx:40-76 | green and pulsing iff online; the viewing icon iff viewing and the status is shown; the EyeOff branch never renders |
| StatusIndicator.DefaultsAreTrueAndMd | components/chat/user-status-indicator.tsx:18-19 | omitted props behave as `true` and "md" |
| Files.CheckAvatar | lib/store/slices/profile-slice.ts:31-36 | a non-image is refused before the size check; more than 5·1024·1024 bytes is refused; exactly 5 MiB passes |
| Files.ObjectUrls | app/chat/page.tsx:159 | one object URL per file, in file order |
| AuthSlice.Reduce | lib/store/slices/auth-slice.ts:78-177 | pending sets loading, clearing the error only for register, verify and login; settling clears loading; credential rejections store the payload and keep the user; signing in assigns the user and signing out clears it; register stores and verify clears the OTP email; current-user settling initializes; only a successful logout clears error and OTP email |
| AuthSlice.ReachableConsistent | lib/store/slices/auth-slice.ts:92-176 | from a state where "authenticated" and "has a user" agree, every action history keeps them in agreement |
| AuthSlice.LogoutResets | lib/store/slices/auth-slice.ts:162-170 | a logout's pending then fulfilled returns to the initial state except for `isInitialized` |
| AuthSlice.DefaultRejection | lib/store/slices/auth-slice.ts:24-72 | each thunk has a non-empty fixed rejection message |
| AuthSlice.RejectionMessage | lib/store/slices/auth-slice.ts:24-72 | a non-empty server message, else the thunk's default |
| AuthSlice.DefaultsDistinct | lib/store/slices/auth-slice.ts:31-71 | the five default messages are pairwise distinct |
| AuthSlice.AuthStore.constructor | lib/store/slices/auth-slice.ts:14-21 | the store starts signed out with every flag false and no error or OTP email |
| AuthSlice.AuthStore.Dispatch | lib/store/slices/auth-slice.ts:76-178 | the in-place field updates give exactly `Reduce` of the old state |
| ProfileSlice.Reduce | lib/store/slices/profile-slice.ts:57-114 | pending sets loading and clears the error, keeping success; fulfilled clears loading and error and sets success; rejected clears loading and stores the payload, keeping success; each clear changes only its own field |
| ProfileSlice.SuccessSticky | lib/store/slices/profile-slice.ts:61-63 | once set, success stays set until `clearSuccess` |
| ProfileSlice.SettledNotLoading | lib/store/slices/profile-slice.ts:72-112 | whatever came before, the state is not loading after a settled action |
| ProfileSlice.ReduceAllAppend | lib/store/slices/profile-slice.ts:57-114 | dispatching two batches one after the other is dispatching their concatenation |
| ProfileSlice.RejectionMessage | lib/store/slices/profile-slice.ts:16-52 | update and delete: a non-empty server message, else their defaults |
| ProfileSlice.UploadRejectionMessage | lib/store/slices/profile-slice.ts:41 | upload: the error's own message first, then the server's, then the default |
| ProfileSlice.RunUploadAvatar | lib/store/slices/profile-slice.ts:28-43 | the API is called iff the file is an image of at most 5 MiB; refusals carry the check's message; the API outcome is passed through |
| ProfileSlice.ThunkActions | lib/store/slices/profile-slice.ts:84-96 | a thunk dispatches pending, then fulfilled iff it succeeded |
| ProfileSlice.RefusedUploadRecordsMessage | lib/store/slices/profile-slice.ts:28-43 | a refused file ends with loading off and the check's message as the error |
| ProfileSlice.ProfileStore.constructor | lib/store/slices/profile-slice.ts:10-14 | the store starts not loading, with no error and no success |
| ProfileSlice.ProfileStore.Dispatch | lib/store/slices/profile-slice.ts:55-114 | the in-place field updates give exactly `Reduce` of the old state |
| PasswordInput.PasswordOf | components/ui/password-input.tsx:19 | a non-string value is read as "" |
| Validators.PasswordChecks | components/ui/password-input.tsx:21-27 | length at least 8, an upper-case, a lower-case and a digit, and one of the 20 special characters |
| Validators.Strength | components/ui/password-input.tsx:29-30 | strength lies in 0..5, and is 5 iff all checks are met |
| PasswordInput.StrengthColor | components/ui/password-input.tsx:46-51 | at most 2 destructive, 3 muted, 4 foreground/60, 5 success |
| PasswordInput.Bars | components/ui/password-input.tsx:95-107 | bar i (1..5) takes the strength colour iff i ≤ strength |
| PasswordInput.ColouredBarsCount | components/ui/password-input.tsx:95-107 | the number of coloured bars equals the strength |
| PasswordInput.Effect | components/ui/password-input.tsx:32-44 | all met: remembered, not hiding; strong-then-cleared: hiding with the timer armed; otherwise the flags stay and any pending timer is cancelled |
| PasswordInput.Mount | components/ui/password-input.tsx:15-44 | the first render ends in a consistent state |
| PasswordInput.SetValue | components/ui/password-input.tsx:32-44 | a new value keeps the state consistent; the same value changes nothing |
| PasswordInput.TimerFires | components/ui/password-input.tsx:38-41 | the timer drops both flags and stays consistent |
| PasswordInput.MountedIffNonEmpty | components/ui/password-input.tsx:54-56 | in a consistent state the meter is mounted iff enabled and the password is non-empty |
| PasswordInput.HiddenWhileTyping | components/ui/password-input.tsx:32-44 | as written, typing again during the fade leaves the mounted meter faded out |
| PasswordInput.CorrectedEffect | components/ui/password-input.tsx:32-44 | the corrected effect never hides the meter over a non-empty password |
| PasswordInput.CorrectedSetValue | components/ui/password-input.tsx:32-44 | the corrected update keeps the state consistent and hides only an empty password |
| PasswordInput.CorrectedVisibleIffNonEmpty | components/ui/password-input.tsx:54-56 | with the correction the meter is visible iff enabled and the password is non-empty |
| PasswordInput.StrengthMeter.constructor | components/ui/password-input.tsx:15-19 | the component mounts in the state `Mount` gives |
| PasswordInput.StrengthMeter.RunEffect | components/ui/password-input.tsx:32-44 | the in-place flag updates give exactly `Effect` |
| PasswordInput.StrengthMeter.Rerender | components/ui/password-input.tsx:19 | a re-render follows `SetValue` |
| PasswordInput.StrengthMeter.FireTimer | components/ui/password-input.tsx:38-41 | the timer follows `TimerFires` |
| Validators.ValidPasswordIffOneFailure | components/auth/signup-form.tsx:35-44 | a password is accepted iff at most one of the five checks fails |
| Validators.NoSpecialStillValid | components/auth/signup-form.tsx:35-44 | "Password1", lacking only a special character, is accepted |
| Validators.ShortLowercaseRejected | components/auth/signup-form.tsx:35-44 | "abc1!", failing two checks, is refused |
| Validators.LowercasedUsernameStaysValid | components/auth/signup-form.tsx:46 | lower-casing an accepted username keeps it accepted |
| Validators.ValidEmailShape | components/auth/signup-form.tsx:48 | an accepted address has no whitespace and exactly one "@", neither first nor last |
| Validators.EmailExamples | components/auth/signup-form.tsx:48 | "a@b.co" is accepted; "a@b" and "@b.co" are refused |
| Validators.PasswordsMatchIff | components/auth/signup-form.tsx:102-103 | the fields match iff both are non-empty and equal |
| SignupForm.Put | components/auth/signup-form.tsx:56 | the named field takes the value and the others stay |
| SignupForm.SubmitErrors | components/auth/signup-form.tsx:69-76 | a key exactly for each failing check among name, username, email, password and confirmation, with its message |
| SignupForm.SubmitErrorsEmptyIff | components/auth/signup-form.tsx:69-80 | no errors iff every check passes |
| SignupForm.PhoneNotValidated | components/auth/signup-form.tsx:74 | the phone number never affects the errors |
| SignupForm.SubmitEffects | components/auth/signup-form.tsx:83-99 | the register thunk with the form's fields, then OTP email, toast and /verify-otp on success, or the error toast |
| SignupForm.RegisterCarriesFormData | components/auth/signup-form.tsx:84-92 | every register request carries the form's fields as they stood at submit |
| SignupForm.SignupFormState.constructor | components/auth/signup-form.tsx:24-32 | all fields empty and no errors |
| SignupForm.SignupFormState.HandleChange | components/auth/signup-form.tsx:52-65 | only the username is lower-cased; only the changed field's error is deleted, and only when non-empty |
| SignupForm.SignupFormState.Submit | components/auth/signup-form.tsx:67-100 | failing checks set the error map and dispatch nothing; otherwise the effects of `SubmitEffects` follow |
| SignupPage.PageErrors | app/signup/page.tsx:45-59 | the submit handler checks only username, password and confirmation (name and email are left to the browser, see "## Left out"), each failing check with its key and message |
| SignupPage.PageErrorsEmptyIff | app/signup/page.tsx:47-64 | no errors iff the three checks pass |
| SignupPage.SignupPageState.constructor | app/signup/page.tsx:22-28 | all fields empty, not submitting |
| SignupPage.SignupPageState.SetName | app/signup/page.tsx:94 | stores the name only |
| SignupPage.SignupPageState.SetUsername | app/signup/page.tsx:111 | stores the lower-cased username only |
| SignupPage.SignupPageState.SetEmail | app/signup/page.tsx:130 | stores the email only |
| SignupPage.SignupPageState.SetPassword | app/signup/page.tsx:146 | stores the password only |
| SignupPage.SignupPageState.SetConfirmPassword | app/signup/page.tsx:165 | stores the confirmation only |
| SignupPage.SignupPageState.Submit | app/signup/page.tsx:45-70 | any error sets the map and starts nothing; otherwise errors clear, submission starts and the email is captured |
| SignupPage.SignupPageState.DelayElapsed | app/signup/page.tsx:70-75 | the captured email is stored as OTP email before navigating to /verify-otp |
| UpdatePassword.SubmitError | app/update-password/page.tsx:34-44 | strength is checked before the match, so at most one message; empty iff both pass |
| UpdatePassword.NavigatesOnlyWhenValid | app/update-password/page.tsx:36-52 | a submit that goes on to navigate had a strong, confirmed password |
| UpdatePassword.UpdatePasswordState.constructor | app/update-password/page.tsx:16-19 | empty fields, no error |
| UpdatePassword.UpdatePasswordState.SetPassword | app/update-password/page.tsx:71 | stores the password only |
| UpdatePassword.UpdatePasswordState.SetConfirmPassword | app/update-password/page.tsx:89 | stores the confirmation only |
| UpdatePassword.UpdatePasswordState.Submit | app/update-password/page.tsx:32-49 | the error is reset then set by the first failing check; submission starts iff none fails |
| UpdatePassword.UpdatePasswordState.DelayElapsed | app/update-password/page.tsx:49-53 | after the wait, navigation to /login |
| LoginForm.LoginErrors | components/auth/login-form.tsx:31-34 | an email error iff the shared pattern fails, a password error iff shorter than 8 |
| LoginForm.PasswordLengthOnly | components/auth/login-form.tsx:34 | with a valid email, the form passes iff the password has at least 8 characters of any kind |
| LoginForm.BlankError | components/auth/login-form.tsx:64-67 | a shown error is set to "" rather than deleted; other keys are untouched |
| LoginForm.LoginEffects | components/auth/login-form.tsx:40-47 | the login thunk, then a toast and /chat, or the error toast |
| Ui.ErrorText | components/auth/login-form.tsx:46 | the rejection payload if non-empty, else the fallback |
| LoginForm.LoginFormState.constructor | components/auth/login-form.tsx:23-25 | empty fields, no errors |
| LoginForm.LoginFormState.OnEmailChange | components/auth/login-form.tsx:64-67 | stores the email and blanks only the email error |
| LoginForm.LoginFormState.OnPasswordChange | components/auth/login-form.tsx:90-93 | stores the password and blanks only the password error |
| LoginForm.LoginFormState.Submit | components/auth/login-form.tsx:29-48 | errors block the dispatch; otherwise the effects of `LoginEffects` follow |
| VerifyOtpForm.SubmitEffects | components/auth/verify-otp-form.tsx:22-43 | the length check comes first; a missing email toasts and goes to /signup without verifying; otherwise verify with the stored email and code, then a toast and /chat or the error toast |
| VerifyOtpForm.EnabledPassesLengthCheck | components/auth/verify-otp-form.tsx:74 | an enabled button never leads to the length toast; when not loading, the button is disabled exactly when submitting would only show that toast |
| VerifyOtpForm.VerifyNeedsCodeAndEmail | components/auth/verify-otp-form.tsx:25-37 | verification is requested only with a 6-character code and a stored email, and carries both |
| VerifyOtpForm.VerifyOtpFormState.constructor | components/auth/verify-otp-form.tsx:20 | the code starts empty |
| VerifyOtpForm.VerifyOtpFormState.SetOtp | components/auth/verify-otp-form.tsx:59 | stores the code |
| VerifyOtpForm.VerifyOtpFormState.Submit | components/auth/verify-otp-form.tsx:22-43 | records exactly the effects of `SubmitEffects` |
| EditProfile.InitialData | components/profile/edit-profile-form.tsx:20-24 | the fields come from the user, or "" when absent |
| EditProfile.Put | components/profile/edit-profile-form.tsx:40 | only the named field changes |
| EditProfile.ProfileErrors | components/profile/edit-profile-form.tsx:52-58 | a name error iff the trimmed name is empty, a username error iff the pattern fails; the phone number is not checked |
| EditProfile.BlankNameRefused | components/profile/edit-profile-form.tsx:54 | the name is refused iff it is all whitespace |
| EditProfile.AvatarEffects | components/profile/edit-profile-form.tsx:74-89 | no file does nothing; a non-image, then an oversized file, is refused with its toast; otherwise the upload thunk is dispatched |
| EditProfile.PickedFileReachesApi | components/profile/edit-profile-form.tsx:74-88 | a file the form dispatches also passes the thunk's own checks and reaches the API |
| EditProfile.ProfileNotices | components/profile/edit-profile-form.tsx:27-36 | success gives the success toast and its clear; a non-empty error gives its toast and its clear |
| EditProfile.NoticesShownOnce | components/profile/edit-profile-form.tsx:27-36 | once the clears reach the slice, the effect shows nothing more |
| EditProfile.EditProfileState.constructor | components/profile/edit-profile-form.tsx:20-25 | starts from `InitialData` with no errors |
| EditProfile.EditProfileState.HandleChange | components/profile/edit-profile-form.tsx:38-48 | stores the value verbatim; deletes only that field's error, and only when non-empty |
| EditProfile.EditProfileState.Submit | components/profile/edit-profile-form.tsx:50-72 | errors block the update; otherwise it carries the three fields unchanged |
| EditProfile.EditProfileState.AvatarUpload | components/profile/edit-profile-form.tsx:74-89 | records exactly `AvatarEffects` |
| EditProfile.EditProfileState.AvatarDelete | components/profile/edit-profile-form.tsx:91-95 | the delete thunk is dispatched iff confirmed |
| SettingsPage.DisplayAvatar | app/settings/page.tsx:111 | a non-empty preview wins over the user's avatar |
| SettingsPage.LogoutEffects | app/settings/page.tsx:101-109 | the logout thunk, then a toast and "/" on success, or only the error toast |
| SettingsPage.SettingsPageState.constructor | app/settings/page.tsx:51-52 | no preview and an empty file input |
| SettingsPage.SettingsPageState.AvatarChange | app/settings/page.tsx:60-76 | no file does nothing more; a non-image, then an oversized file, is refused with its toast; otherwise the preview is set |
| SettingsPage.SettingsPageState.UploadAvatar | app/settings/page.tsx:78-89 | uploads only with both a preview and a file, then clears both; otherwise nothing changes |
| SettingsPage.SettingsPageState.RemoveAvatar | app/settings/page.tsx:91-99 | when confirmed, the delete thunk and then preview and input cleared; otherwise nothing |
| SettingsPage.SettingsPageState.Logout | app/settings/page.tsx:101-109 | records exactly `LogoutEffects` |

## Left out

- SignupPage.SignupPageState.Submit: the browser's `required` and `type="email"` validation (app/signup/page.tsx:95,113,127,131,148,170), which stops a submit before the handler runs, is not modelled; Submit takes any field values, so on this page an empty name or email reaches the handler in the model but not in the browser.
- SignupForm.SignupFormState.Submit: the browser's `required` and `type="email"` validation (components/auth/signup-form.tsx:122,142,157,202,225) is not modelled; Submit takes any field values.
- LoginForm.LoginFormState.Submit: the browser's `required` and `type="email"` validation (components/auth/login-form.tsx:61,69,95) is not modelled; Submit takes any field values.
- EditProfile.EditProfileState.Submit: the browser's `required` validation (components/profile/edit-profile-form.tsx:146,159) is not modelled; Submit takes any field values.
- UpdatePassword.UpdatePasswordState.Submit: the browser's `required` validation (app/update-password/page.tsx:73,91) is not modelled; Submit takes any field values.
- The socket.io transport is not modelled: reconnection timing, backoff, the 10 s timeout and the configured URL. Socket.io's own reports are methods on `Realtime.SocketClient`.
- Console logging in lib/socket.ts is not modelled.
- The HTTP layer (lib/api/*) is not part of this model. Thunk outcomes enter as `Ui.Outcome` or `Accounts.ApiResult` values.
- The chat slice (`unlockMessage`, `userPresence`), the settings slice, the user slice and the `useSocket` hook are not part of this model:
  - the unlocked id is a field compared by equality, assumed to store the id it is given;
  - presence is a map read with a fallback;
  - the viewing signals are recorded on the screen, assuming the hook's callbacks are stable.
- Animations, class names other than the strength and status colours, scrolling, the sidebar toggle and layout are not modelled.
- The emoji list's contents and the 1.5 s and 300 ms durations are not modelled. Only the order "before" and "after" the wait is kept.
- The settings page's theme, lock-display, notification and sound controls are not modelled. They belong to the settings slice.
- `Text.ToLower` lower-cases ASCII letters only, where JavaScript's `toLowerCase` covers all of Unicode.
- String lengths count characters, not UTF-16 code units.
- `ChatPage.NewMessage` takes the formatted clock time as a given string. `toLocaleTimeString` is not modelled.
- `SignupForm.SignupFormState.Submit` does not clear earlier errors after a clean submit. Neither does the source.
- `LoginForm.LoginFormState.Submit` does not clear earlier errors after a clean submit. Neither does the source.
- `PasswordInput.StrengthMeter` follows the effect as written, not the corrected one under Findings.

## Findings

| source | as written | input that shows it | evidently intended | confidence | as-written member | corrected member |
|---|---|---|---|---|---|---|
| components/ui/password-input.tsx:32-44 | clearing a strong password arms a 300 ms fade; typing again before it fires re-runs the effect, whose cleanup cancels the timer, so `hideAnimation` stays true and the mounted meter sits at opacity 0 while the user types | type "Abcdefg1!", clear the field, then type "a" within 300 ms | the meter is visible whenever it is enabled and the password is non-empty | medium, not executed | PasswordInput.HiddenWhileTyping | PasswordInput.CorrectedVisibleIffNonEmpty |

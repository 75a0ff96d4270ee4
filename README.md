# ConnectMe front end: a verified model of its page logic

ConnectMe (the `pro-network` Next.js front end) is a professional-networking web
app. Its screens run on mock in-memory data and thin `fetch` calls. This project
models the logic inside six of its components and proves properties of it in Dafny:

- **Registration wizard** (`auth/signup/page.tsx`). The draft form, the step-1 and
  step-2 gates, the Next/Back state machine over steps 1..3, the registration
  request body and the classification of the registration reply.
  `SignUp.SignUpPage` is the component, with the fields `step`, `formData` and
  `loading`. Its handlers are proved against the pure transition function
  `SignUp.Apply`. The wizard invariant holds after every sequence of actions that
  the rendered page can deliver. The invariant: the step is in 1..3, and each
  step already passed has its gate holding on the current draft.
- **Sign-in handler** (`auth/signin/page.tsx`). The empty-field gate, the request
  body, the content-type check, the ok/token decision chain, the token written to
  local storage and the `loading` flag (`SignIn.SignInPage`).
- **Notifications** (`notifications/page.tsx`). Mark one read, mark all read,
  decline (remove by id), accept and view-job (which mark read), the unread count,
  the tab filters, the header summary and the buttons each entry offers.
- **Job applications** (`profile/applications/page.tsx`). Withdraw by id, the
  status counts, the Active/Archived/Interviews/Offers tabs, the status labels and
  the Withdraw-button condition.
- **Dashboard** (`dashboard/page.tsx`). `getUserInitials` and the `||` placeholders
  for the name, location, bio and skills.
- **Navbar** (`components/layout/Navbar.tsx`). The split/map/join initials of the
  session name and the notification badge.

The network, JSON parsing, the router and toasts are not modelled as such. A
server reply is an abstract value: `fetch` threw, or a reply with its ok flag,
content type and parsed body, or the parser's error. The effects come back as
results: the toast text, the request body, the outcome that implies a navigation,
and the new local-storage map. JavaScript's `||` on strings that may be missing
is `Common.OrElse`: an absent, null or empty string falls back.
`Array.prototype.filter` is `Common.Filter`. A number rendered in a template
literal is `Common.NatToString`.

Two facts about the registration client shape the model:

- A rejected `fetch` or a body that does not parse as JSON shows the thrown
  error's own message, which the runtime supplies. It shows "Please try again
  later" only when that message is empty.
- There is no step-3 check: submitting from step 3 sends the draft as it stands.

## Model

| member | source | states |
|---|---|---|
| `SignUp.Set` | pro-network/src/app/auth/signup/page.tsx:45-51 | changing one input stores the value under that field and leaves every other field as it was |
| `SignUp.ValidateStep1` | pro-network/src/app/auth/signup/page.tsx:60-89 | the step-1 gate passes iff username, email, password and confirmation are non-empty, the two passwords are equal and the password has at least 8 characters; on failure the first failing check decides the reason: missing fields, then mismatch, then length |
| `SignUp.ValidateStep2` | pro-network/src/app/auth/signup/page.tsx:91-101 | the step-2 gate passes iff first name, last name and mobile number are non-empty; its only failure is missing fields; location and bio are never checked |
| `SignUp.GateMessage` | pro-network/src/app/auth/signup/page.tsx:60-101 | every gate failure has a non-empty toast text |
| `SignUp.GateMessagesDistinct` | pro-network/src/app/auth/signup/page.tsx:60-101 | the three failures ("Please fill in all required fields", "Passwords do not match", the 8-character rule) show three different texts |
| `SignUp.Step1OkFrame` | pro-network/src/app/auth/signup/page.tsx:61-79 | the step-1 gate reads only the four step-1 text fields: changing any other field, or the role, cannot change its verdict |
| `SignUp.Step2OkFrame` | pro-network/src/app/auth/signup/page.tsx:92 | the step-2 gate reads only step-2 fields |
| `SignUp.OfferedControls` | pro-network/src/app/auth/signup/page.tsx:374-407 | on every valid state Next is rendered iff the step is not 3 and Back iff it is not 1, so one of them always is; every text input is rendered exactly at its own step: username, email, password and confirmation (and the role select) at step 1, first name, last name, mobile number, location and bio at step 2, website, LinkedIn, GitHub, Twitter, skills and experience at step 3; the role is never a text input |
| `SignUp.Apply` | pro-network/src/app/auth/signup/page.tsx:45-351 | typing or picking a role replaces that one field and keeps the step; Next and Back never touch the draft; Next raises the step by one exactly when no gate failure blocks it and otherwise changes nothing; Back lowers it by one (the handlers at lines 45-58 and 343-351) |
| `SignUp.NextStepChange` | pro-network/src/app/auth/signup/page.tsx:343-347 | Next at step 1 or 2 raises the step by exactly one when that step's gate passes and leaves the whole state unchanged otherwise |
| `SignUp.ApplyKeepsInv` | pro-network/src/app/auth/signup/page.tsx:343-351 | every action the page offers (typing in a rendered input, picking a role, Next while step < 3, Back while step > 1) preserves the wizard invariant |
| `SignUp.RunKeepsInv` | pro-network/src/app/auth/signup/page.tsx:374-407 | the invariant holds after any sequence of offered actions |
| `SignUp.ReachableStates` | pro-network/src/app/auth/signup/page.tsx:380-407 | from mount, every reachable step lies in {1, 2, 3}, and a draft that reaches step 3 (the only step with a submit button) has passed both gates |
| `SignUp.RegisterBody` | pro-network/src/app/auth/signup/page.tsx:116-132 | the request body has 15 members; every draft field except the confirmation is sent under its own name with its value unchanged; no member is named `confirmPassword` |
| `SignUp.RegisterBodyIgnoresConfirmation` | pro-network/src/app/auth/signup/page.tsx:116-132 | two drafts that differ only in the confirmation produce the same body |
| `SignUp.RegisterError` | pro-network/src/app/auth/signup/page.tsx:133-140 | the handler throws nothing exactly for a 2xx reply with a parsable body; a failed request or an unparsable body (whatever the status, since the body is parsed first) throws its own message; a non-2xx parsable reply throws `detail`, else `error`, else "Registration failed" |
| `SignUp.RegisterOutcomeOf` | pro-network/src/app/auth/signup/page.tsx:135-154 | registration succeeds iff the reply is 2xx with a parsable body; a non-2xx reply whose body parses reports `detail`, else `error`, else "Registration failed"; a failed request or an unparsable body reports the thrown message, or "Please try again later" when it is empty; a failure description is never empty |
| `SignUp.SignUpPage.constructor` | pro-network/src/app/auth/signup/page.tsx:19-43 | the page mounts at step 1 with the empty draft (role "employee"), not loading, invariant established |
| `SignUp.SignUpPage.HandleChange` | pro-network/src/app/auth/signup/page.tsx:45-51 | `formData` becomes the draft with exactly that field replaced; the step is kept; the invariant is preserved |
| `SignUp.SignUpPage.HandleSelectChange` | pro-network/src/app/auth/signup/page.tsx:53-58 | only `role` changes; the invariant is preserved |
| `SignUp.SignUpPage.HandleNext` | pro-network/src/app/auth/signup/page.tsx:343-347 | the new state is `Apply(old state, Next)`; the returned toast is the message of the failing gate, or none when the step advances |
| `SignUp.SignUpPage.HandleBack` | pro-network/src/app/auth/signup/page.tsx:349-351 | the step drops by exactly one with no validation, the draft is unchanged, and the invariant is preserved |
| `SignUp.SignUpPage.HandleSubmit` | pro-network/src/app/auth/signup/page.tsx:103-158 | sends `RegisterBody` of the draft, returns `RegisterOutcomeOf(reply)`, leaves step and draft unchanged and clears `loading` on every path |
| `SignUp.MismatchReportedBeforeLength` | pro-network/src/app/auth/signup/page.tsx:61-86 | "abc"/"abd" reports the mismatch, not the short password |
| `SignUp.PasswordLengthExamples` | pro-network/src/app/auth/signup/page.tsx:79-88 | "abc"/"abc" fails as too short; "abcdefgh"/"abcdefgh" passes and Next moves to step 2 |
| `SignUp.DetailReported` | pro-network/src/app/auth/signup/page.tsx:138-140 | a 400 reply with `detail` "username taken" fails with that description |
| `SignIn.IsJson` | pro-network/src/app/auth/signin/page.tsx:53-54 | an absent content type fails; a passing one is at least as long as "application/json"; one that starts with "application/json" passes whatever parameters follow |
| `SignIn.LoginBody` | pro-network/src/app/auth/signin/page.tsx:47-50 | the JSON body has two members: the email under the key `username` and the password under `password`; no member is named `email` |
| `SignIn.LoginError` | pro-network/src/app/auth/signin/page.tsx:53-65 | a missing or non-JSON content type throws "Server returned non-JSON response" whatever the status; a failed request throws its own message; a JSON reply whose body does not parse throws the parser's message; a JSON non-ok reply whose body parses throws `error`, or "Login failed"; a JSON ok reply whose body parses throws nothing |
| `SignIn.LoginOutcomeOf` | pro-network/src/app/auth/signin/page.tsx:29-80 | an empty email or password yields "Please fill in all fields" and nothing else; a non-JSON reply fails with "Server returned non-JSON response"; a JSON non-ok reply whose body parses fails with `error`, else "Login failed"; a failed request or an unparsable body fails with its message, else "Invalid email or password"; sign-in succeeds iff the reply is ok, JSON, parsable and carries a non-empty token, which is the one stored; an ok JSON reply without a token ends silently, with no toast and nothing stored; a failure description is never empty |
| `SignIn.LoginFailedFallback` | pro-network/src/app/auth/signin/page.tsx:63-65 | a JSON error reply without `error` reports "Login failed" |
| `SignIn.CharsetContentTypeIsJson` | pro-network/src/app/auth/signin/page.tsx:53-54 | "application/json; charset=utf-8" passes the substring check |
| `SignIn.SignInPage.constructor` | pro-network/src/app/auth/signin/page.tsx:22-24 | both inputs start empty and `loading` false |
| `SignIn.SignInPage.HandleEmailChange` | pro-network/src/app/auth/signin/page.tsx:132 | only the email changes |
| `SignIn.SignInPage.HandlePasswordChange` | pro-network/src/app/auth/signin/page.tsx:148 | only the password changes |
| `SignIn.SignInPage.HandleSubmit` | pro-network/src/app/auth/signin/page.tsx:26-85 | with an empty field no request is made and `loading` is untouched; otherwise the request body is `LoginBody`, the outcome is `LoginOutcomeOf`, the token is stored under "access_token" exactly on sign-in, and `loading` ends false |
| `Notifications.MarkRead` | pro-network/src/app/notifications/page.tsx:105-113 | the entries carrying the id become read; every other entry, the length and the order are unchanged |
| `Notifications.MarkReadIdempotent` | pro-network/src/app/notifications/page.tsx:105-113 | marking read twice equals marking read once |
| `Notifications.MarkAllRead` | pro-network/src/app/notifications/page.tsx:116-120 | every entry becomes read and nothing else changes |
| `Notifications.MarkAllReadNoUnread` | pro-network/src/app/notifications/page.tsx:116-120 | after marking all read the unread count is 0 and the Unread tab is empty |
| `Notifications.Decline` | pro-network/src/app/notifications/page.tsx:133-136 | exactly the entries carrying the id are removed; the length drops by their number |
| `Notifications.DeclineLength` | pro-network/src/app/notifications/page.tsx:135 | the list left by declining is shorter by the number of entries carrying the id |
| `Notifications.DeclineKeepsOrder` | pro-network/src/app/notifications/page.tsx:135 | declining keeps the remaining entries in their original relative order |
| `Notifications.DeclineAbsent` | pro-network/src/app/notifications/page.tsx:135 | declining an id no entry carries leaves the list unchanged |
| `Notifications.UnreadCount` | pro-network/src/app/notifications/page.tsx:102 | the unread count is the length of the Unread tab and equals the number of entries with `read = false`, counted one by one |
| `Notifications.MarkReadUnreadCount` | pro-network/src/app/notifications/page.tsx:102-113 | marking an id read lowers the unread count by the number of unread entries carrying that id |
| `Notifications.UnreadTab` | pro-network/src/app/notifications/page.tsx:222 | the Unread tab holds exactly the unread entries, and its length is their number counted one by one |
| `Notifications.ConnectionsTab` | pro-network/src/app/notifications/page.tsx:233 | the Connections tab holds exactly the connection entries and is never longer than the list |
| `Notifications.MessagesTab` | pro-network/src/app/notifications/page.tsx:244 | the Messages tab holds exactly the message entries and is never longer than the list |
| `Notifications.JobsTab` | pro-network/src/app/notifications/page.tsx:255 | the Jobs tab holds exactly the job entries and is never longer than the list |
| `Notifications.TabContents` | pro-network/src/app/notifications/page.tsx:220-262 | the Connections, Messages and Jobs tabs hold exactly the entries of their type and Unread exactly the unread ones; event entries appear only under All and Unread |
| `Notifications.Summary` | pro-network/src/app/notifications/page.tsx:177-181 | the header reads "No new notifications" exactly when nothing is unread |
| `Notifications.SummaryText` | pro-network/src/app/notifications/page.tsx:178-180 | otherwise it starts "You have ", then the decimal count, and ends in "s" exactly when the count is not 1 |
| `Notifications.UnreadBadge` | pro-network/src/app/notifications/page.tsx:184-202 | the Unread badge, like the "Mark all as read" button, is shown iff the unread count is positive, and its text reads back as that count |
| `Notifications.Actions` | pro-network/src/app/notifications/page.tsx:340-389 | Accept and Decline are offered exactly for actionable connection entries, View Job exactly for actionable job entries, View Event for actionable event entries, nothing for non-actionable ones |
| `Notifications.NotificationsPage.constructor` | pro-network/src/app/notifications/page.tsx:35-100 | the state list starts as the given list |
| `Notifications.NotificationsPage.MarkAsRead` | pro-network/src/app/notifications/page.tsx:105-113 | the state list becomes `MarkRead` of the old one |
| `Notifications.NotificationsPage.MarkAllAsRead` | pro-network/src/app/notifications/page.tsx:116-120 | the state list becomes `MarkAllRead` of the old one; then the count is 0, the button hidden and the summary "No new notifications" |
| `Notifications.NotificationsPage.AcceptConnection` | pro-network/src/app/notifications/page.tsx:123-130 | the list changes exactly as `markAsRead` changes it |
| `Notifications.NotificationsPage.DeclineConnection` | pro-network/src/app/notifications/page.tsx:133-136 | the state list becomes `Decline` of the old one |
| `Notifications.NotificationsPage.ViewJob` | pro-network/src/app/notifications/page.tsx:139-142 | the list changes exactly as `markAsRead` changes it |
| `Applications.Withdraw` | pro-network/src/app/profile/applications/page.tsx:131-139 | entries carrying the id get status "withdrawn"; every other entry and field, the length and the order are unchanged |
| `Applications.WithdrawIdempotent` | pro-network/src/app/profile/applications/page.tsx:131-139 | withdrawing twice equals withdrawing once |
| `Applications.WithdrawOffered` | pro-network/src/app/profile/applications/page.tsx:361 | the Withdraw button is shown iff the application is neither rejected, withdrawn nor offered |
| `Applications.ActiveTab` | pro-network/src/app/profile/applications/page.tsx:275 | the Active tab holds exactly the applications that offer Withdraw and is never longer than the list |
| `Applications.ArchivedTab` | pro-network/src/app/profile/applications/page.tsx:302 | the Archived tab holds exactly the rejected and withdrawn applications |
| `Applications.InterviewTab` | pro-network/src/app/profile/applications/page.tsx:284 | the Interviews tab holds exactly the interview-stage applications, as many as the "Interview Stage" card counts |
| `Applications.OffersTab` | pro-network/src/app/profile/applications/page.tsx:293 | the Offers tab holds exactly the offered applications, as many as the "Offers" card counts |
| `Applications.TabsPartition` | pro-network/src/app/profile/applications/page.tsx:275-302 | Active and Archived share no entry, an offered application is in neither, and an entry is in Active iff it offers Withdraw |
| `Applications.WithdrawMovesToArchived` | pro-network/src/app/profile/applications/page.tsx:275-369 | withdrawing an application through its button moves it from Active to Archived: its withdrawn copy is archived and no Active entry carries its id afterwards |
| `Applications.WithdrawnLeavesActive` | pro-network/src/app/profile/applications/page.tsx:131-139 | after withdrawing an id, no entry of the Active tab carries it |
| `Applications.PendingCount` | pro-network/src/app/profile/applications/page.tsx:125 | the pending count is the number of pending entries counted one by one, at most the total |
| `Applications.InterviewCount` | pro-network/src/app/profile/applications/page.tsx:126 | the interview count is the number of interview entries counted one by one, at most the total |
| `Applications.RejectedCount` | pro-network/src/app/profile/applications/page.tsx:127 | the rejected count is the number of rejected entries counted one by one, at most the total |
| `Applications.OfferedCount` | pro-network/src/app/profile/applications/page.tsx:128 | the offered count is the number of offered entries counted one by one, at most the total |
| `Applications.StatusCount` | pro-network/src/app/profile/applications/page.tsx:125-128 | the count of a status is the length of the filtered list |
| `Applications.StatusCountsPartition` | pro-network/src/app/profile/applications/page.tsx:125-128 | the six status counts add up to the total |
| `Applications.CountsBounded` | pro-network/src/app/profile/applications/page.tsx:125-139 | pending + interview + rejected + offered never exceeds the total, and withdrawing keeps the total |
| `Applications.PendingCountExcludesReviewed` | pro-network/src/app/profile/applications/page.tsx:125 | the card labelled "Pending/Under Review" counts only "pending": adding a reviewed entry leaves it unchanged while the Active tab grows by one |
| `Applications.BadgeLabel` | pro-network/src/app/profile/applications/page.tsx:148-165 | every status has a non-empty badge text |
| `Applications.PanelLabel` | pro-network/src/app/profile/applications/page.tsx:432-437 | the side panel's six conditional fragments render exactly the badge text of the status |
| `Applications.LabelsAgree` | pro-network/src/app/profile/applications/page.tsx:148-165 | the badge label and the side-panel label (lines 432-437) agree for every status, and distinct statuses have distinct labels |
| `Applications.ApplicationsPage.constructor` | pro-network/src/app/profile/applications/page.tsx:39-122 | the state list starts as the given list |
| `Applications.ApplicationsPage.WithdrawApplication` | pro-network/src/app/profile/applications/page.tsx:131-145 | the state list becomes `Withdraw` of the old one; the total is unchanged |
| `Dashboard.Upper` | pro-network/src/app/dashboard/page.tsx:85 | upper-casing keeps the length and upper-cases each ASCII letter in place |
| `Dashboard.CharAt0` | pro-network/src/app/dashboard/page.tsx:85 | `charAt(0)` is the first character, or the empty string for an empty name |
| `Dashboard.UserInitials` | pro-network/src/app/dashboard/page.tsx:81-86 | with no user data the result is "U"; missing names count as empty; otherwise the result is the upper-cased first characters of the first and last names that are non-empty, or "U" when both are empty; its length is 1 or 2 |
| `Dashboard.WelcomeName` | pro-network/src/app/dashboard/page.tsx:105 | the welcome name is the first name, or "User" when it is empty or absent |
| `Dashboard.LocationText` | pro-network/src/app/dashboard/page.tsx:161 | an empty or absent location shows "Add location", otherwise the location |
| `Dashboard.BioText` | pro-network/src/app/dashboard/page.tsx:167 | an empty or absent bio shows the bio placeholder, otherwise the bio |
| `Dashboard.SkillsText` | pro-network/src/app/dashboard/page.tsx:171 | empty or absent skills show "Add your skills", otherwise the skills |
| `Dashboard.InitialsExamples` | pro-network/src/app/dashboard/page.tsx:81-86 | "jane"/"doe" gives "JD", a missing last name gives "J", an empty first name alone gives "U" |
| `Navbar.Split` | pro-network/src/components/layout/Navbar.tsx:102 | `split(' ')` yields at least one piece and no piece contains a space |
| `Navbar.SplitJoin` | pro-network/src/components/layout/Navbar.tsx:102 | joining the pieces with single spaces gives the name back, so the pieces are exactly the text between single spaces |
| `Navbar.InitialsAreWordStarts` | pro-network/src/components/layout/Navbar.tsx:102 | the split/map/join expression yields exactly the characters that begin a word, in order; empty pieces contribute nothing |
| `Navbar.NavbarInitials` | pro-network/src/components/layout/Navbar.tsx:102-109 | the avatar and the dropdown header show the word-initial characters of the name, or "U" when the name is absent or has none |
| `Navbar.WordStartsFromName` | pro-network/src/components/layout/Navbar.tsx:102 | every initial is a non-space character of the name |
| `Navbar.BlankNameGivesU` | pro-network/src/components/layout/Navbar.tsx:102 | an empty name or one of only spaces yields "U" |
| `Navbar.DoubledSpaceExample` | pro-network/src/components/layout/Navbar.tsx:102 | "Jane  Doe" gives "JD" |
| `Navbar.KeepsCaseExample` | pro-network/src/components/layout/Navbar.tsx:102 | "jane doe" gives "jd": no case conversion, unlike the dashboard |
| `Navbar.EmptyNameExample` | pro-network/src/components/layout/Navbar.tsx:102 | an empty or absent name gives "U" |
| `Navbar.NotificationBadge` | pro-network/src/components/layout/Navbar.tsx:88-92 | the badge is shown iff the count is positive, and its text reads back as the count |
| `Navbar.BadgeShowsThree` | pro-network/src/components/layout/Navbar.tsx:34 | the count is 3 and never set again, so the badge always reads "3" |
| `Common.OrElse` | pro-network/src/app/dashboard/page.tsx:105 | `v || fallback` on a string that may be missing: `v` when it is present and non-empty, otherwise the fallback |
| `Common.Includes` | pro-network/src/app/auth/signin/page.tsx:54 | `includes` never holds for a needle longer than the text, and holds when the text starts or ends with the needle |
| `Common.Filter` | pro-network/src/app/notifications/page.tsx:222 | `filter` keeps exactly the elements that pass (every element of the result passes, every passing element is kept) and never lengthens the list |
| `Common.FilterConcat` | pro-network/src/app/notifications/page.tsx:135 | filtering distributes over concatenation, so the kept elements stay in their original relative order |
| `Common.FilterLength` | pro-network/src/app/notifications/page.tsx:102 | the length of a filtered list is the number of elements that pass |
| `Common.NatToString` | pro-network/src/app/notifications/page.tsx:179 | a count renders as at least one decimal digit with no leading zero |
| `Common.ParseNatToString` | pro-network/src/app/notifications/page.tsx:179 | the rendered digits read back as the count |

## Left out

- Network calls, JSON parsing, `localStorage` reads, router navigation, toasts and
  `console` logging are not modelled as effects. Replies are abstract inputs. The
  toast text, request body, outcome and stored token are results.
- `SignUp.SignUpPage.HandleNext`: requires step < 3, because Next is rendered only
  then. `SignUp.Apply` keeps the handler's own behaviour, which would raise step 3
  to 4.
- `SignUp.SignUpPage.HandleBack`: requires step > 1, because Back is rendered only
  then.
- `SignUp.SignUpPage.HandleChange`: requires the edited field to belong to the
  current step, because only that step's inputs are rendered. Input ids are the
  draft's own fields. An id outside them, which would add a new key, does not occur.
- `SignUp.SignUpPage.HandleSubmit`: modelled only at step 3, the only step whose
  panel has a submit button. No event is handled while `loading` is true (inputs
  and buttons are disabled), so `loading` is false between events.
- Thrown errors carry the runtime's own message: a rejected `fetch`, or a body
  that is not JSON in sign-up (`response.json()` runs before the status check).
  The model takes that message as an input. In sign-in, `SignIn.FetchThrew` also
  stands for a rejected `response.text()` in the non-JSON branch: it reaches the
  same catch with its own message.
- `detail`, `error` and `token` are modelled as strings. A non-string JSON value
  is not modelled.
- A body that parses to `null` is not a case of its own. Reading `data.token`,
  `data.error` or `data.detail` on it throws a TypeError that reaches the catch.
  Such a reply therefore behaves like `Unparsable(m)`, where `m` is the TypeError's
  message. The exception is an ok sign-up reply, which reads no field and
  behaves like `RegisterData(None, None)`.
- `Dashboard.Upper`: ASCII letters only. Unicode `toUpperCase` can change the
  length of a string (for example "ß" becomes "SS").
- `SignUp.ValidateStep1`: the password length counts characters, not the UTF-16
  code units of JavaScript's `length`. The two differ only for characters outside
  the Basic Multilingual Plane.
- `Dashboard.CharAt0`, `Navbar.FirstChar`: `charAt(0)` and `n[0]` return the first
  UTF-16 code unit. For a name starting with a character outside the Basic
  Multilingual Plane that is a lone surrogate, while the model returns the whole
  character.
- The dashboard's `fetchUserData` effect, the token lookup and the loading screen
  are I/O and are not modelled. `Dashboard.UserData` holds only the fields the
  modelled expressions read. The role line and the website/LinkedIn/GitHub/Twitter
  link buttons are rendering.
- The Google sign-in redirect (`encodeURIComponent` of the callback URL) and the
  forgot-password page (a non-empty check followed by a timer) are not modelled.
- The next-auth and axios wrappers, the middleware and the jwt/session callbacks
  only copy fields, and sign-out is a next-auth call. None is modelled.
- Markup-only pages over constant mock arrays: the home, jobs, job detail,
  messages, network and profile pages, the footer and the layout.
- The constant toasts of withdraw and accept are not modelled. The accept toast is
  a mock that only logs. Icons, CSS classes, the "No notifications found" /
  "No applications found" empty-list text and the interview-type capitalisation
  are rendering.
- The `getStatusBadge` "Unknown" default cannot be reached: the status type has
  exactly six values.
- React's asynchronous state batching: each handler is one atomic update.

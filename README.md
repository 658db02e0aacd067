# Planora booking portal — a Dafny model

Planora is an event-booking web portal. Customers sign up or sign in, with
their own credentials or with Google. They book an event through a
five-step wizard and follow their bookings on a dashboard. Administrators
approve or reject bookings and read the messages left through the contact
form.

This project models the portal's bookkeeping and proves properties about
it. The server side is the three collections (`users`, `bookings`,
`messages`) behind the routes `/api/auth`, the Google sign-in route,
`/api/bookings` and `/api/messages`. The client side is:

- the auth context, which keeps the signed-in user in memory and in local
  storage;
- the header's choice between the custom user and the Google session;
- the user dashboard and the admin dashboard;
- the booking wizard;
- the login form;
- the gallery filter.

## Layout

| file | module | models |
|---|---|---|
| `common.dfy` | `Common` | `Option`, HTTP replies, JavaScript truthiness and `\|\|` on strings, a fetch outcome |
| `seqs.dfy` | `Seqs` | `Array.prototype.filter`, `sort({ createdAt: -1 })` and `findOne` over a list |
| `number_parse.dfy` | `NumberParse` | `Number.parseInt` of one argument (`None` stands for NaN) |
| `auth_route.dfy` | `AuthRoute` | `app/api/auth/route.ts` and the `users` collection |
| `google_auth.dfy` | `GoogleAuth` | `app/api/auth/google.ts` |
| `bookings_route.dfy` | `BookingsRoute` | `app/api/bookings/route.ts` and the `bookings` collection |
| `messages_route.dfy` | `MessagesRoute` | `app/api/messages/route.ts` and the `messages` collection |
| `auth_context.dfy` | `AuthContext` | `context/auth-context.tsx` |
| `session.dfy` | `NextAuthSession` | the shapes `useSession()` hands a page |
| `navigation.dfy` | `Navigation` | `components/navigation.tsx` |
| `dashboard.dfy` | `Dashboard` | `app/dashboard/page.tsx` |
| `admin.dfy` | `Admin` | `app/admin/page.tsx` |
| `book_wizard.dfy` | `BookWizard` | `app/book/page.tsx` |
| `login_page.dfy` | `LoginPage` | `app/login/page.tsx` |
| `gallery.dfy` | `Gallery` | `app/gallery/page.tsx` |

### Modelling choices

- Collections are classes holding a `seq` of records. A `nextId` counter
  stands in for MongoDB's fresh `ObjectId`.
- Route handlers are methods that return a `Response`, either `Ok(body)`
  or `Fail(code, error)`.
- A missing or empty header or field is `None` or `""`, and
  `Truthy`/`OrElse` model JavaScript's `!x` and `x || y`.
- A document id in a request is `Option<Id>`. `None` stands for an absent
  or empty id.
- The clock is a `now: int` parameter.
- A date string is read by a caller-given `dateOf: string -> Option<int>`,
  where `None` is an invalid date.
- bcrypt is the pair `Hash(password, salt)` / `Verify(password, hash)`. In
  the model a hash accepts exactly the password it was made from.
- The random password of a Google account and the salt are parameters.
- Local storage is a `map<string, string>`.
- `JSON.stringify`/`JSON.parse` of the stored user is an escape-based
  encoder and decoder with a proved round trip.
- An async client handler is split at its `await`: one method for what
  runs before the request, one for what runs on the reply. The reply is
  a parameter: `Fetched` for a page's `fetch`, `AuthResponse` for the
  auth context.

### Behaviour worth noting

- For a user who already exists, the Google route replies with the whole
  stored document, password digest included (`GoogleAuth.Existing`).
- The Google route checks only the email. A new Google user can therefore
  take a username that a signup already holds
  (`GoogleAuth.GoogleUsernameMayCollide`). Username uniqueness is kept by
  the signup route alone.
- The dashboard's client-side delete drops every entry with the id. The
  server deletes a booking only when its owner also matches.
- The dashboard reads the clock separately for the upcoming and the past
  filter, upcoming first. A booking dated between the two readings shows
  in both tabs (`Dashboard.UpcomingPastTwoReadings`). With one reading,
  each dated booking is in exactly one tab
  (`Dashboard.UpcomingPastPartition`).
- For a user signed in only through Google, the dashboard builds its
  `user` object afresh on every render, and the bookings effect depends
  on `[user]`. Each render therefore plausibly starts a new fetch, and
  each fetch's `setBookings` causes a render. The model has one
  `LoadBookings` step per call and does not capture this repetition.
  This is read from the code, not observed.

## Model

| member | source | states |
|---|---|---|
| Common.OrElse | app/api/auth/route.ts:29 | `s \|\| fallback`: the string when it is truthy, else the fallback; never empty when the fallback is not |
| Seqs.Filter | app/admin/page.tsx:134-137 | `filter` keeps only elements that pass and never more than the input |
| Seqs.FilterMembers | app/admin/page.tsx:134-137 | an element is kept exactly when it is in the input and passes |
| Seqs.FilterKeepsOrder | app/gallery/page.tsx:20 | filtering a list ordered by a strictly increasing key keeps it so ordered |
| Seqs.FilterConcat | app/dashboard/page.tsx:126 | filtering distributes over concatenation, so the kept elements keep their relative order |
| Seqs.FilterMiddle | app/dashboard/page.tsx:126 | filtering around one element keeps it exactly when it passes and filters both sides on their own |
| Seqs.FilterAll | app/api/bookings/route.ts:113-116 | when every element passes, filtering changes nothing |
| Seqs.SortDesc | app/api/bookings/route.ts:18 | `sort({ createdAt: -1 })`: the result is ordered newest first and is a permutation of the input |
| Seqs.InsertSorted | app/api/bookings/route.ts:18 | one insertion step keeps a newest-first list ordered |
| Seqs.SortDescMembers | app/api/bookings/route.ts:20-23 | sorting loses and invents no element |
| Seqs.FindFirst | app/api/auth/route.ts:18-20 | `findOne`: the index of the first matching document, or none exactly when nothing matches |
| Seqs.FilterRemovesOne | app/api/bookings/route.ts:113-116 | removing the one element that fails the filter is filtering |
| NumberParse.ParseIntUnsigned | app/dashboard/page.tsx:225 | text that starts with neither white space nor a sign is read as unsigned digits |
| NumberParse.ParseIntMinus | app/admin/page.tsx:140 | a leading `-` negates the digits after it, and leaves NaN as NaN |
| NumberParse.ParseIntSkipSpace | app/admin/page.tsx:140 | one leading white-space character changes nothing |
| NumberParse.ParseIntDecimal | app/dashboard/page.tsx:225 | `parseInt` reads a decimal numeral back to its value, whatever non-digit text follows it |
| NumberParse.ParseIntNegativeDecimal | app/admin/page.tsx:140 | a leading `-` negates the value read |
| NumberParse.ParseIntLeadingSpace | app/admin/page.tsx:140 | leading white space is skipped |
| NumberParse.ParseIntNoDigits | app/dashboard/page.tsx:225 | any text whose first character after leading white space and an optional sign is not a decimal digit is NaN; this covers the empty string and a lone sign |
| NumberParse.ParseIntHex | app/dashboard/page.tsx:225 | after a `0x` or `0X` prefix, the run of hex digits is read in base 16 up to the first non-hex character; an empty run is NaN |
| AuthRoute.VerifyHash | app/api/auth/route.ts:56 | a stored hash accepts the password it was made from and no other, whatever the salt |
| AuthRoute.AdminSecret | app/api/auth/route.ts:12 | the configured key, or "admin123" when it is unset or empty; never empty |
| AuthRoute.LoginReplyOf | app/api/auth/route.ts:63-71 | the login reply carries the stored id, email and username, and a role that defaults to "user" |
| AuthRoute.UserStore.InsertOne | app/api/auth/route.ts:26-35 | appends exactly one document under a fresh id |
| AuthRoute.UserStore.Signup | app/api/auth/route.ts:10-46 | the admin gate comes first (400, nothing inserted); then a taken email or username gives 400 with nothing inserted; otherwise exactly one user is appended with the hashed password, `name` defaulting to the username and `role` defaulting to "user", and the reply carries them; email and username uniqueness are preserved |
| AuthRoute.UserStore.Login | app/api/auth/route.ts:48-72 | read-only; succeeds exactly when the first user matching the identifier by email or username accepts the password, and then replies with that first user; every failure is the same 401 "Invalid credentials" |
| AuthRoute.UserStore.Post | app/api/auth/route.ts:5-79 | dispatches on `action`. For "signup": the admin gate's 400, then the duplicate 400, else exactly the new user appended to the old store and its reply. For "login": success exactly when the first user in the old store matching the identifier accepts the password, with that user's reply. Any other action gives 400 "Invalid action". Only a successful signup changes the store |
| GoogleAuth.LocalPart | app/api/auth/google.ts:20 | `email.split("@")[0]`: the longest prefix without "@" |
| GoogleAuth.LocalPartOf | app/api/auth/google.ts:20 | the local part of `name@domain` is `name` |
| GoogleAuth.GoogleSignIn | app/api/auth/google.ts:11-29 | an existing email leaves the store unchanged and returns that user; otherwise exactly one user is inserted with the email's local part as username, a hashed generated password, empty phone and address, and role "user"; email uniqueness is preserved |
| GoogleAuth.GoogleUsernameMayCollide | app/api/auth/google.ts:11-28 | in any store with unique emails, for any stored user whose username has no "@", a Google sign-in from `username@domain`, an email no stored user has, finds no user, keeps emails unique and breaks username uniqueness |
| BookingsRoute.ListBookings | app/api/bookings/route.ts:5-39 | 401 without a truthy `x-user-id`; newest first; with `x-is-admin` exactly "true" every booking, otherwise exactly the caller's bookings |
| BookingsRoute.OwnBookingsListed | app/api/bookings/route.ts:20-23 | a booking is in the non-admin list exactly when it is stored and its owner is the header's user |
| BookingsRoute.BookingTable.Post | app/api/bookings/route.ts:41-76 | 401 without `x-user-id`, nothing stored; otherwise one Pending booking owned by the header's user is appended, `notes` defaulting to ""; the reply says "Pending" |
| BookingsRoute.BookingTable.Put | app/api/bookings/route.ts:78-100 | 400 without id or status; otherwise only `status` and `updatedAt` of the booking with that id change; no identity check; `modifiedCount` is at most 1 |
| BookingsRoute.BookingTable.Delete | app/api/bookings/route.ts:102-125 | 400 without id or user; otherwise a booking goes only when both id and owner match; `deletedCount` is at most 1 and is 1 exactly when such a booking existed |
| MessagesRoute.ListMessages | app/api/messages/route.ts:4-21 | every message, unfiltered, newest first |
| MessagesRoute.MessageTable.Post | app/api/messages/route.ts:23-47 | appends one message with only name, email, text, "unread" and the time; the reply says "unread" whatever the client sent |
| AuthContext.DecodeEncodeField | context/auth-context.tsx:90 | a stored field decodes to itself and leaves the rest of the text alone |
| AuthContext.ParseSerialize | context/auth-context.tsx:45 | parsing the stored text of a user gives back that user |
| AuthContext.GetItem | context/auth-context.tsx:41-42 | `localStorage.getItem`: the stored value, or none for a missing key |
| AuthContext.RestoreFrom | context/auth-context.tsx:40-51 | a session is restored only when both keys hold truthy values; unparsable text is reported as corrupt |
| AuthContext.ReloadAfterSignIn | context/auth-context.tsx:90-92 | after a sign-in, a reload restores exactly the user who signed in |
| AuthContext.ReloadAfterSignOut | context/auth-context.tsx:138-142 | after a logout a reload finds no session, and logging out twice is logging out once |
| AuthContext.SignupUser | context/auth-context.tsx:79-88 | a signed-up user keeps the form's phone and address; the avatar comes from the email |
| AuthContext.LoginUser | context/auth-context.tsx:116-125 | a logged-in user takes phone and address from the reply; the avatar comes from the email |
| AuthContext.SignupBody | context/auth-context.tsx:67-71 | the signup request carries every argument, and a secret key only when one was given |
| AuthContext.LoginBody | context/auth-context.tsx:104-108 | the login request sends the identifier as `email` and nothing else |
| AuthContext.AuthProvider.Mount | context/auth-context.tsx:40-53 | restores the stored user when both keys are present, removes both keys when the user text is corrupt, and ends loading in every case |
| AuthContext.AuthProvider.StartRequest | context/auth-context.tsx:65 | loading starts; user and storage unchanged |
| AuthContext.AuthProvider.FinishSignup | context/auth-context.tsx:73-98 | a rejected reply throws its message or "Signup failed" and changes nothing; success stores the user and "token_" + id; loading ends |
| AuthContext.AuthProvider.FinishLogin | context/auth-context.tsx:110-135 | as signup, with the fallback "Login failed" |
| AuthContext.AuthProvider.Logout | context/auth-context.tsx:138-142 | no user, both keys removed, the rest of storage kept |
| Navigation.IsManualUser | components/navigation.tsx:19 | a context user and no Google user, so never together with a Google user |
| Navigation.ActiveUser | components/navigation.tsx:21 | the session user when there is one, else the context user |
| Navigation.UserName | components/navigation.tsx:22 | for a Google account and for a manual user alike: the name when non-empty, else the email when non-empty, else "User"; never empty |
| Navigation.DashboardLink | components/navigation.tsx:24 | "/admin" exactly for a context user with role "admin", whatever the session |
| Navigation.DesktopMenu | components/navigation.tsx:66-113 | "Sign In" without a user; every user gets "Sign Out" last; dashboard and bookings entries exactly for a manual user |
| Navigation.MobileMenu | components/navigation.tsx:140-158 | the dashboard entry exactly for a manual user; no bookings entry |
| Navigation.SignOutChoice | components/navigation.tsx:31-35 | Google sign-out exactly for a Google user, manual logout exactly for a manual user, never both |
| Navigation.NavigationMenu.HandleSignOut | components/navigation.tsx:27-37 | closes both menus, then signs out as the choice says |
| Dashboard.EffectiveUser | app/dashboard/page.tsx:35-46 | the custom user when present; otherwise the session user with role "user", the email (or "") as id and email, the name (or "") as name and username, and the placeholder avatar as fallback |
| Dashboard.ScreenOf | app/dashboard/page.tsx:79-112 | the spinner exactly while the session loads and there is no custom user; "Please log in" only without an effective user |
| Dashboard.RedirectAndSpinnerExclusive | app/dashboard/page.tsx:48-52 | a remark rather than a deep property, since it follows from the two distinct status constants: the redirect to /login never fires while the spinner shows |
| Dashboard.UpcomingPastPartition | app/dashboard/page.tsx:165-166 | a booking with a valid date is in exactly one of upcoming and past; one with an invalid date is in neither |
| Dashboard.UpcomingPastTwoReadings | app/dashboard/page.tsx:165-166 | with the clock read separately for the two filters, upcoming first: a booking dated between the two readings is in both tabs, and any other dated booking is in exactly one |
| Dashboard.UpcomingPastCount | app/dashboard/page.tsx:216-220 | the two tabs together count every validly dated booking once |
| Dashboard.DisplayBookings | app/dashboard/page.tsx:167 | the tab's list, made of validly dated bookings only |
| Dashboard.TotalSpentConcat | app/dashboard/page.tsx:225 | the total spent is additive over any split of the list |
| Dashboard.TotalSpentAppend | app/dashboard/page.tsx:225 | an unparsable budget adds 0; a decimal budget adds its value |
| Dashboard.DeleteKeepsOthers | app/dashboard/page.tsx:126 | deleting keeps every booking with another id, in order, and drops the ones with the id |
| Dashboard.DashboardPage.LoadBookings | app/dashboard/page.tsx:54-77 | without a user nothing happens; otherwise an ok reply replaces the list and the spinner stops on every outcome |
| Dashboard.DashboardPage.HandleDeleteEvent | app/dashboard/page.tsx:114-133 | after confirmation and an ok reply the list is filtered by id; otherwise it is unchanged |
| Dashboard.DashboardPage.HandleLogout | app/dashboard/page.tsx:137-163 | session sign-out when a session exists, else the custom logout; the list is cleared and loading shown |
| Admin.ViewOf | app/admin/page.tsx:79-112 | the admin screens exactly for a user with role "admin"; "Please log in" exactly without a user |
| Admin.CountStatus | app/admin/page.tsx:134-136 | a status card counts at most every booking |
| Admin.StatusCardsBounded | app/admin/page.tsx:134-136 | Pending + Approved + Rejected never exceeds the bookings, and equals them when no other status occurs |
| Admin.UnreadCount | app/admin/page.tsx:137 | zero exactly when no message is "unread" |
| Admin.SumBudgetsNaN | app/admin/page.tsx:138-140 | the `reduce` sum is NaN exactly when some budget does not parse |
| Admin.SumBudgetsAgreesWithTotal | app/admin/page.tsx:138-140 | a numeric sum equals the dashboard's zero-defaulting total |
| Admin.RevenueNaN | app/admin/page.tsx:138-140 | revenue is NaN exactly when an Approved booking's budget does not parse, and is otherwise the total of the Approved budgets |
| Admin.ConversionRate | app/admin/page.tsx:142 | 0 without bookings; always between 0 and 100; 100 exactly when every booking is Approved |
| Admin.ButtonDisabled | app/admin/page.tsx:280-291 | Approve is disabled exactly on an Approved booking, Reject exactly on a Rejected one |
| Admin.ButtonsNeverBothDisabled | app/admin/page.tsx:280-291 | a remark that follows from "Approved" and "Rejected" being different strings: a booking never has both buttons disabled, and a Pending booking has both enabled |
| Admin.WithStatus | app/admin/page.tsx:125 | the mapped list has the same length and ids; an entry with the id is the same booking with only its status replaced; all others are unchanged |
| Admin.WithStatusIdempotent | app/admin/page.tsx:125 | setting the same status twice is setting it once |
| Admin.WithStatusMirrorsPut | app/api/bookings/route.ts:88-91 | after a successful change, the admin's list equals the stored collection entry by entry, except for the `updatedAt` stamp the page does not refetch |
| Admin.AdminPage.LoadData | app/admin/page.tsx:40-77 | a non-admin is redirected and nothing is fetched; without a user nothing happens; otherwise bookings are fetched as admin and then messages, unless the first fetch threw; the spinner stops |
| Admin.AdminPage.HandleStatusChange | app/admin/page.tsx:114-132 | an ok reply updates the list by `WithStatus`; an error status or a thrown error leaves it unchanged |
| BookWizard.StepIndex | app/book/page.tsx:74-75 | every step occurs in the step list exactly once |
| BookWizard.NextMovesOne | app/book/page.tsx:73-87 | Next moves one place forward except at the confirmation; Back moves one place back except at the first step |
| BookWizard.BackUndoesNext | app/book/page.tsx:73-87 | Back after Next, before the confirmation, returns to the same step, and Next after Back does too |
| BookWizard.FourNextsConfirm | app/book/page.tsx:74 | four presses of Next reach the confirmation |
| BookWizard.NextTimesIndex | app/book/page.tsx:73-78 | from any step, `k` presses of Next move `k` places along the step list, stopping at the confirmation |
| BookWizard.IndicatorOf | app/book/page.tsx:126-135 | a circle is current exactly at the step's index, done exactly below it, ahead exactly above it |
| BookWizard.SetField | app/book/page.tsx:152-244 | each input changes its one field |
| BookWizard.RequestBody | app/book/page.tsx:98 | the POST body carries each of the form's eight fields unchanged (event type, name, guest count, date, time, budget, notes, organizer preference) and no status |
| BookWizard.ScreenOf | app/book/page.tsx:40-71 | the wizard shows exactly when loading is over and there is a user |
| BookWizard.BackDisabled | app/book/page.tsx:289 | Back is disabled exactly at the first step |
| BookWizard.ForwardDisabled | app/book/page.tsx:294 | the forward button is enabled exactly when an event type is chosen and nothing is being submitted |
| BookWizard.ForwardActionOf | app/book/page.tsx:293 | the forward button submits exactly at the last step |
| BookWizard.BookingWizard.constructor | app/book/page.tsx:27-38 | starts at the first step with every field empty and nothing submitting |
| BookWizard.BookingWizard.HandleNext | app/book/page.tsx:73-79 | the step becomes the next one; the form is unchanged |
| BookWizard.BookingWizard.HandleBack | app/book/page.tsx:81-87 | the step becomes the previous one; the form is unchanged |
| BookWizard.BookingWizard.BeginSubmit | app/book/page.tsx:89-99 | the forward button locks and the form is posted under the user's id |
| BookWizard.BookingWizard.FinishSubmit | app/book/page.tsx:100-112 | an ok reply leads to /dashboard, anything else fails; the button unlocks either way |
| LoginPage.SetFormField | app/login/page.tsx:89-181 | each input changes its one field |
| LoginPage.CallOf | app/login/page.tsx:37-50 | login mode logs in with the identifier; signup sends role "admin" and the secret key exactly when the box is ticked, otherwise role "user" and no key |
| LoginPage.SignupReachesAdminGate | app/login/page.tsx:47-48 | an ordinary sign-up never meets the route's admin gate; an admin sign-up passes it exactly when the typed key is the configured secret |
| LoginPage.Destination | app/login/page.tsx:54 | "/admin" exactly after an admin sign-up, "/dashboard" otherwise |
| LoginPage.FailureMessage | app/login/page.tsx:58-60 | the thrown message, or the mode's own fallback text |
| LoginPage.SubmitDisabled | app/login/page.tsx:187 | the submit button is disabled exactly while a submission is marked |
| LoginPage.SubmitCaption | app/login/page.tsx:188 | "Processing..." while submitting, else "Sign In" exactly in login mode |
| LoginPage.LoginForm.constructor | app/login/page.tsx:17-29 | login mode, box clear, every field empty, no error |
| LoginPage.LoginForm.Toggle | app/login/page.tsx:195-207 | flips the mode, empties all seven fields, clears the box and the error |
| LoginPage.LoginForm.SetIsAdmin | app/login/page.tsx:148-159 | the box, offered in signup mode only, keeps the invariant that login mode never has it ticked |
| LoginPage.LoginForm.BeginSubmit | app/login/page.tsx:31-50 | marks the submission, clears the error and makes the call; the later route is "/admin" exactly when the box is ticked, so a login always goes to "/dashboard" |
| LoginPage.LoginForm.SubmitSucceeded | app/login/page.tsx:52-55 | unmarks and routes to the call's destination |
| LoginPage.LoginForm.SubmitFailed | app/login/page.tsx:56-62 | shows the failure message and unmarks |
| Gallery.Filtered | app/gallery/page.tsx:20 | "All" shows every item in order; any other filter shows exactly the items of that type; either way the items keep their display order (increasing id) |
| Gallery.AllIsNotAType | app/gallery/page.tsx:9-20 | no item has type "All", so without its special case the first button would show nothing |
| Gallery.EveryCategoryShowsSomething | app/gallery/page.tsx:33 | every category button shows at least one item |
| Gallery.GalleryPage.constructor | app/gallery/page.tsx:19 | the filter starts at "All", showing every item |
| Gallery.GalleryPage.Click | app/gallery/page.tsx:34 | a button sets the filter to its label |

## Left out

- MongoDB connection handling (`lib/db.ts`, `lib/mongodb.ts`) is not part of this model. Collections are sequences held by the route classes.
- The catch-all 500 replies of every route are not modelled. The same goes for `ObjectId` construction failing on a malformed id string. A request id is taken as already parsed (`Option<Id>`).
- bcrypt's internals and the random salt: hashing is the abstract `Hash`/`Verify` pair. bcrypt compares only the first 72 bytes of a password, so two passwords that agree on those bytes both pass `bcrypt.compare`. The model's `Verify` accepts only the exact password.
- The Google route's JSON web token signing is not modelled; the reply's `user` field is.
- A client-sent `id` field in a booking or message POST would override the reply's `id`, because the spread comes after it. Replies keep the request body whole (`Created`, `Received`) rather than merging it.
- `Date` parsing and the current time are the `dateOf` and `now` parameters.
- NumberParse.ParseInt, Dashboard.TotalSpent, Admin.SumBudgets, Admin.Revenue: JavaScript numbers are doubles, but the model uses unbounded integers. Above 2^53 the source loses precision and the model does not. For example, `parseInt("9007199254740993")` gives 9007199254740992.
- `toFixed(1)` of the conversion rate and `toLocaleString` of the totals: the rate is kept as an exact `real`, unformatted.
- `JSON.parse` of stored text that is valid JSON but not a user object, such as "null", is not modelled. Stored text is either the encoding of a user or corrupt.
- NextAuth's session fetching and its `signIn`/`signOut` side effects are not modelled. Session data and status are inputs, and a sign-out is a returned action.
- `fetch`, `alert`, `confirm`, router navigation and timers are not modelled. Replies and confirmations are parameters, and navigation is a returned route or action.
- The dashboard's per-booking action menu (`openMenuId`) and the admin page's rendering are not modelled.
- The NextAuth configuration route (`app/api/auth/[...nextauth]/route.ts`) is not part of this model.
- The commented-out second copy of the login page is not modelled.
- The login form's browser validation is not modelled. The `required` inputs and the `type="email"` field stop `handleSubmit` before any request when a field is empty or the email is malformed. `LoginPage.LoginForm.BeginSubmit` accepts any field values.
- The dashboard's logout fallback is not modelled. It removes a `token` key and forces a redirect, and it only runs when the sign-out call throws.
- `GoogleAuth.GoogleSignIn`: the reply for an existing user is the stored document; the model does not state which of its fields the client then reads.
- `Admin.AdminPage.HandleStatusChange`: the notice carries the new status as given. The lower-casing in the alert text is not modelled.
- Pages that only render constant data (home, pricing, blog, FAQ, terms, privacy and their sections), the animated globe and map, and the protected-route wrapper are outside the modelled core.

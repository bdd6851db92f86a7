# Chess academy front end — a Dafny model

The application is a single-page React site for a chess academy with no
back end. Its logic lives in four places, and this project models each of
them and proves what they promise:

- **The session slot.** This is the browser-storage key `user`. The login
  and register forms write it. The student, coach, admin and generic
  dashboards read it when they mount, and every logout deletes it. It is
  modelled as `Session.Slot = Absent | Corrupt | Stored(User)`. The guards
  are total functions from a slot to `Render(user)` or
  `Redirect(Navigation(route, notice))`.
- **The coach dashboard.** This is a class whose fields are the page's
  state. It holds:
  - the lists of assignments, demo requests and conversations;
  - the per-conversation message threads, as a `map<int, seq<Message>>`;
  - the draft forms, the selections and the dialog flags.

  Each handler is a method whose frame names exactly the fields the source
  updates. The address-by-id updates (`prev.map(...)`, `Math.max`, the
  `filter` partitions) are functions with lemmas. The class invariant
  `Valid()` says four things:
  - there is at least one conversation;
  - conversation ids are unique and positive;
  - every thread's message ids run 1..n;
  - assignment ids are unique.
- **The admin search.** This is a case-insensitive substring filter over
  students, coaches and classes. It has subsequence, membership,
  empty-term and narrowing lemmas.
- **The forms.** These are login, register, book-a-demo and pricing
  enrolment. Each is a class with its change handlers, which provably touch
  one field, and its submit handler. The submit handler's validation order,
  messages, storage write and flags are stated in full. `SessionScope`
  relates the forms to the guards. Neither form stores a role, so a user
  who signs in through either form reaches `/dashboard` and is refused by
  every role dashboard.

Modules:
- `Wrappers`: `Option`.
- `Collections`: `Map`, `Filter`, `IsSubsequence` and their lemmas.
- `Text`: ASCII lower-casing, substring search and blankness.
- `Session`: the slot, the shared role guard, storage and logout.
- `CoachPage`, `StudentPage`, `GenericDashboard`, `AdminPage`: the four
  dashboards.
- `Login`, `Register`, `BookDemoPage`, `PricingPage`: the forms.
- `SessionScope`: how the forms and the guards interact.

Two facts about the program shape the model:
- The login handler checks no credentials. It accepts every pair with both
  fields non-empty, stores `{email, isLoggedIn: true}` and goes to
  `/dashboard` whenever that write succeeds.
- The enrolment dialog on the pricing page is mounted once, with no plan.
  `useState` uses its initializer only at mount, so the program field is
  never prefilled from a card.

## Model

| member | source | states |
|---|---|---|
| Session.RoleGuard | src/pages/CoachDashboard.tsx:153-174 | renders iff the slot holds a logged-in record with the required role, and then for that record. An absent slot gives `/login` with "Please login to access the dashboard". A refused record gives `/login` with the page's denial notice. An unreadable slot gives `/login` with no notice |
| Session.SessionStore.constructor | src/pages/Dashboard.tsx:22 | the store starts with the given slot, and writable or not as given |
| Session.SessionStore.Write | src/components/auth/LoginForm.tsx:57-60 | on a writable store, after `setItem` the slot holds exactly the written record. On a store whose `setItem` throws, the failure is reported and the slot keeps its old value |
| Session.SessionStore.Remove | src/pages/Dashboard.tsx:43 | after `removeItem` the slot is absent whatever it held |
| Session.Logout | src/pages/CoachDashboard.tsx:176-180 | the slot ends absent, with "Logged out successfully" and a move to `/`. The new state does not depend on the old one, so repeating it changes nothing |
| CoachPage.Guard | src/pages/CoachDashboard.tsx:153-174 | renders iff the record is logged in with role "coach". The three distinct refusals: absent gives the please-login notice, a refused record gives "Access denied. Please login as a coach.", corrupt gives no notice. Every refusal goes to `/login` |
| CoachPage.IsPendingReview | src/pages/CoachDashboard.tsx:692 | the review-list test `a.submitted && !a.graded` |
| CoachPage.IsAwaitingSubmission | src/pages/CoachDashboard.tsx:723 | the awaiting-list test `!a.submitted` |
| CoachPage.PendingReview | src/pages/CoachDashboard.tsx:692 | the review list, the assignments filtered by the review test in order. Its members are characterized by `AssignmentPartitions` |
| CoachPage.AwaitingSubmission | src/pages/CoachDashboard.tsx:723 | the awaiting list, the assignments filtered by the awaiting test in order. Its members are characterized by `AssignmentPartitions` |
| CoachPage.Graded | src/pages/CoachDashboard.tsx:226-230 | the `prev.map` of grading: the records with the selected id get `graded` set. Proved pointwise by `GradedAt` |
| CoachPage.GradedAt | src/pages/CoachDashboard.tsx:226-230 | grading keeps the length. Every record keeps all its fields except `graded`, and `graded` becomes true exactly where the id matches |
| CoachPage.GradedKeepsIdsUnique | src/pages/CoachDashboard.tsx:226-230 | grading preserves uniqueness of assignment ids |
| CoachPage.GradedNoMatch | src/pages/CoachDashboard.tsx:226-230 | grading an id that no assignment has leaves the list unchanged |
| CoachPage.GradingPendingCount | src/pages/CoachDashboard.tsx:223-238 | with unique ids, the pending-review count (`submitted && !graded`) drops by one if the graded id was pending and is unchanged otherwise |
| CoachPage.AssignmentPartitions | src/pages/CoachDashboard.tsx:692-726 | an assignment is listed for review iff it is submitted and ungraded, and as awaiting iff it is unsubmitted. No assignment is in both lists |
| CoachPage.DemoStatusFor | src/pages/CoachDashboard.tsx:250 | "Confirmed" exactly for the action "accept", "Rescheduled" exactly for every other action |
| CoachPage.WithDemoStatus | src/pages/CoachDashboard.tsx:248-252 | the `prev.map` of a demo action: the selected id gets the action's status. Proved pointwise by `DemoActionAt` |
| CoachPage.DemoActionAt | src/pages/CoachDashboard.tsx:246-256 | a demo action keeps the length and every field but `status`. The selected id's status becomes "Confirmed" for "accept" and "Rescheduled" for anything else. Every other demo is unchanged |
| CoachPage.MaxId | src/pages/CoachDashboard.tsx:303 | `Math.max` over the ids of a non-empty list: an upper bound on every id that is itself one of the ids |
| CoachPage.ConversationRole | src/pages/CoachDashboard.tsx:310 | "Group" exactly when the recipient contains "Batch", "Student" exactly when it does not |
| CoachPage.Opened | src/pages/CoachDashboard.tsx:307-314 | the new conversation carries the given id and the recipient as name, is a group exactly when the name contains "Batch", has nothing unread, summary "You: " + message and time "Just now" |
| CoachPage.OpenedKeepsIds | src/pages/CoachDashboard.tsx:303-314 | prepending a conversation whose id exceeds every existing id keeps ids unique and positive |
| CoachPage.AfterSend | src/pages/CoachDashboard.tsx:276-282 | the `prev.map` of a send: the active conversation's summary, time and unread count are replaced. Proved pointwise by `AfterSendAt` |
| CoachPage.AfterSendAt | src/pages/CoachDashboard.tsx:271-282 | after a send, the active conversation has its id, name and role kept, `lastMessage` = "You: " + text, `time` = "Just now" and `unread` = 0. Every other conversation is unchanged and the length is kept |
| CoachPage.MarkedRead | src/pages/CoachDashboard.tsx:859-864 | the `prev.map` of a click: the clicked conversation's unread count becomes 0. Proved pointwise by `MarkedReadAt` |
| CoachPage.MarkedReadAt | src/pages/CoachDashboard.tsx:857-865 | mark-read zeroes `unread` of the clicked conversation only and keeps the length |
| CoachPage.AfterSendSameIds | src/pages/CoachDashboard.tsx:271-282 | sending leaves the sequence of conversation ids as it was |
| CoachPage.MarkedReadSameIds | src/pages/CoachDashboard.tsx:857-865 | marking read leaves the sequence of conversation ids as it was |
| CoachPage.FindByName | src/pages/CoachDashboard.tsx:618 | `find` by name: none iff no conversation has the name, otherwise the first one that does |
| CoachPage.ThreadOf | src/pages/CoachDashboard.tsx:263-272 | `messages[id]`, read as `[]` when missing: the stored thread, or the empty thread when the id has none |
| CoachPage.WellNumbered | src/pages/CoachDashboard.tsx:263 | a thread whose message ids are 1..n in order. Such ids strictly increase, so no two messages share an id |
| CoachPage.NoActive | src/pages/CoachDashboard.tsx:260 | `!activeConversation`: no conversation is active, or the active id is the falsy 0 |
| CoachPage.AppendKeepsNumbering | src/pages/CoachDashboard.tsx:262-269 | appending a message numbered length + 1 to a thread numbered 1..n gives a thread numbered 1..n+1 |
| CoachPage.CoachDashboard.Valid | src/pages/CoachDashboard.tsx:118-144 | the invariant every handler keeps: at least one conversation (so `Math.max` has an argument), unique positive conversation ids, every thread numbered 1..n, unique assignment ids. The mock data meets it |
| CoachPage.CoachDashboard.ShowsBody | src/pages/CoachDashboard.tsx:337-341 | the body replaces the spinner exactly when a user has been accepted |
| CoachPage.CoachDashboard.PendingTasks | src/pages/CoachDashboard.tsx:1296 | the "Pending Tasks" card: the length of the review list. `HandleGradeAssignment` states how grading moves it |
| CoachPage.CoachDashboard.constructor | src/pages/CoachDashboard.tsx:85-151 | the initial state: no user, section "classes", the given mock collections, empty drafts, nothing selected, no dialog open, no active conversation. The invariant holds |
| CoachPage.CoachDashboard.Mount | src/pages/CoachDashboard.tsx:153-174 | on acceptance the user becomes the stored record and there is no navigation. On refusal the user is kept and the guard's navigation is issued. From the initial state the body shows iff the guard accepted |
| CoachPage.CoachDashboard.HandleLogout | src/pages/CoachDashboard.tsx:176-180 | slot absent, "Logged out successfully", move to `/` |
| CoachPage.CoachDashboard.OpenAddAssignment | src/pages/CoachDashboard.tsx:676-684 | opens the add-assignment dialog with an empty draft |
| CoachPage.AssignmentDraft.With | src/pages/CoachDashboard.tsx:481-511 | the named draft field takes the new value and the other three are unchanged |
| CoachPage.CoachDashboard.EditAssignmentDraft | src/pages/CoachDashboard.tsx:481-511 | only the named field of the draft changes, and no other state |
| CoachPage.CoachDashboard.HandleAddAssignment | src/pages/CoachDashboard.tsx:192-208 | with any of title, description, deadline or batch empty: an error and no change. Otherwise a success naming title and batch, the draft reset and the dialog closed. The assignments list is never changed |
| CoachPage.CoachDashboard.ViewAssignment | src/pages/CoachDashboard.tsx:217-221 | selects the assignment, clears the feedback and opens the detail dialog |
| CoachPage.CoachDashboard.SetFeedbackText | src/pages/CoachDashboard.tsx:798 | only the feedback text changes |
| CoachPage.CoachDashboard.HandleGradeAssignment | src/pages/CoachDashboard.tsx:223-238 | empty feedback gives an error and changes nothing. Otherwise the list becomes the graded list for the selected id, the dialog closes and the pending count drops by one exactly when that id was pending. The invariant is kept |
| CoachPage.CoachDashboard.ViewDemo | src/pages/CoachDashboard.tsx:241-244 | selects the demo and opens its dialog |
| CoachPage.CoachDashboard.HandleDemoAction | src/pages/CoachDashboard.tsx:246-256 | the demo list becomes the status-updated list for the selected id. The toast names the action and the dialog closes |
| CoachPage.CoachDashboard.SetMessageText | src/pages/CoachDashboard.tsx:937 | only the message input changes |
| CoachPage.CoachDashboard.HandleSendMessage | src/pages/CoachDashboard.tsx:259-286 | nothing happens for blank text or no active conversation (null or id 0). Otherwise the active thread (empty if missing) grows by one own message numbered length + 1, only the active conversation's summary is updated and the input is cleared. The invariant is kept |
| CoachPage.CoachDashboard.StartNewConversation | src/pages/CoachDashboard.tsx:288-295 | opens the new-message dialog with an empty draft |
| CoachPage.MessageDraft.With | src/pages/CoachDashboard.tsx:989-1009 | the named draft field (recipient, subject or message) takes the new value and the others are unchanged |
| CoachPage.CoachDashboard.EditMessageDraft | src/pages/CoachDashboard.tsx:989-1009 | only the named field of the message draft changes, and no other state |
| CoachPage.CoachDashboard.HandleCreateConversation | src/pages/CoachDashboard.tsx:297-335 | an empty recipient or message gives an error and no change. Otherwise the new id is the largest id + 1, above every existing id. The new conversation is prepended, its thread is the one message numbered 1, it becomes active and the dialog closes. The invariant (unique ids, threads numbered 1..n) is kept |
| CoachPage.CoachDashboard.SelectConversation | src/pages/CoachDashboard.tsx:857-865 | the clicked conversation becomes active and only its unread count is zeroed. The invariant is kept. The method accepts any id, while the page clicks only listed ones; an unlisted id would change no conversation |
| CoachPage.CoachDashboard.MessageStudent | src/pages/CoachDashboard.tsx:615-631 | the detail dialog closes and the section becomes "messages". With a conversation of that name it becomes active. Otherwise a draft addressed to the student opens in the new-message dialog |
| StudentPage.Guard | src/pages/StudentDashboard.tsx:66-87 | renders iff the record is logged in with role "student". Absent gives the please-login notice, a refused record gives "Access denied. Please login as a student.", corrupt gives no notice, all to `/login` |
| StudentPage.NextClassOf | src/pages/StudentDashboard.tsx:164-174 | the next-class card shows the first upcoming class iff there is one, and "no upcoming classes" otherwise |
| StudentPage.PendingAssignmentsCount | src/pages/StudentDashboard.tsx:184 | the card shows `assignments.length`. `PendingCountIgnoresCompletion` relates it to the completion flags |
| StudentPage.IsIncomplete | src/pages/StudentDashboard.tsx:184 | an assignment not yet completed |
| StudentPage.PendingCountIgnoresCompletion | src/pages/StudentDashboard.tsx:184 | the "pending" count is the number of incomplete assignments plus the number of completed ones. It equals the incomplete count iff none is completed |
| StudentPage.StudentDashboard.constructor | src/pages/StudentDashboard.tsx:63 | no user is accepted initially |
| StudentPage.StudentDashboard.ShowsBody | src/pages/StudentDashboard.tsx:95-99 | the body replaces the spinner exactly when a user has been accepted |
| StudentPage.StudentDashboard.Mount | src/pages/StudentDashboard.tsx:66-87 | the user becomes the accepted record, or is kept with the guard's navigation. From the initial state the body shows iff the guard accepted |
| StudentPage.StudentDashboard.HandleLogout | src/pages/StudentDashboard.tsx:89-93 | slot absent, "Logged out successfully", move to `/` |
| GenericDashboard.Guard | src/pages/Dashboard.tsx:20-40 | no role check: renders iff the record is logged in, whatever its role. An absent slot gives the please-login notice. A record not logged in, or an unreadable slot, goes to `/login` silently |
| GenericDashboard.WelcomeName | src/pages/Dashboard.tsx:61 | the stored name when present and non-empty, otherwise "Chess Player". Never empty |
| GenericDashboard.Dashboard.constructor | src/pages/Dashboard.tsx:18 | no user is accepted initially |
| GenericDashboard.Dashboard.ShowsBody | src/pages/Dashboard.tsx:48-52 | the body replaces the spinner exactly when a user has been accepted |
| GenericDashboard.Dashboard.Mount | src/pages/Dashboard.tsx:20-40 | the user becomes the accepted record, or is kept with the guard's navigation. From the initial state the body shows iff the guard accepted |
| GenericDashboard.Dashboard.HandleLogout | src/pages/Dashboard.tsx:42-46 | slot absent, "Logged out successfully", move to `/` |
| AdminPage.Guard | src/pages/AdminDashboard.tsx:78-99 | renders iff the record is logged in with role "admin". Absent gives the please-login notice, a refused record gives "Access denied. Please login as an administrator.", corrupt gives no notice, all to `/login` |
| AdminPage.Mentions | src/pages/AdminDashboard.tsx:108 | `field.toLowerCase().includes(term.toLowerCase())` |
| AdminPage.AccountMatches | src/pages/AdminDashboard.tsx:107-115 | a student or coach matches when its name or its email mentions the term |
| AdminPage.ClassMatches | src/pages/AdminDashboard.tsx:117-120 | a class matches when its name or its coach mentions the term |
| AdminPage.FilterAccounts | src/pages/AdminDashboard.tsx:107-115 | the matching accounts in table order. Characterized by `AccountKept`, `FiltersAreSubsequences`, `EmptyTermKeepsAll` and `NarrowingSearch` |
| AdminPage.FilterClasses | src/pages/AdminDashboard.tsx:117-120 | the matching classes in table order. Characterized by `ClassKept` and the same three lemmas |
| AdminPage.AccountKept | src/pages/AdminDashboard.tsx:107-115 | a student or coach is kept iff it is in the table and, lower-cased, its name or email contains the lower-cased term |
| AdminPage.ClassKept | src/pages/AdminDashboard.tsx:117-120 | a class is kept iff it is in the table and its name or coach contains the term. Changing schedule or status never changes the verdict |
| AdminPage.FiltersAreSubsequences | src/pages/AdminDashboard.tsx:107-120 | each filtered table is an order-preserving subsequence of its table, and no longer than it |
| AdminPage.EmptyTermKeepsAll | src/pages/AdminDashboard.tsx:107-120 | the empty term keeps every row of every table, in order |
| AdminPage.MentionsNarrows | src/pages/AdminDashboard.tsx:108-109 | if the lower-cased new term contains the lower-cased old one, a field matching the new term matches the old one |
| AdminPage.NarrowingSearch | src/pages/AdminDashboard.tsx:107-120 | extending the term (the old lower-cased term inside the new) yields a subsequence of the old results for every table, so no row is added |
| AdminPage.AdminDashboard.constructor | src/pages/AdminDashboard.tsx:74-76 | the given tables, no user, empty search term |
| AdminPage.AdminDashboard.ShowsBody | src/pages/AdminDashboard.tsx:122-126 | the body replaces the spinner exactly when a user has been accepted |
| AdminPage.AdminDashboard.FilteredStudents | src/pages/AdminDashboard.tsx:107-110 | the student table filtered by the current term |
| AdminPage.AdminDashboard.FilteredCoaches | src/pages/AdminDashboard.tsx:112-115 | the coach table filtered by the current term |
| AdminPage.AdminDashboard.FilteredClasses | src/pages/AdminDashboard.tsx:117-120 | the class table filtered by the current term |
| AdminPage.AdminDashboard.Totals | src/pages/AdminDashboard.tsx:190-210 | the three card counts. The function reads no mutable field, so no search term can change them. `TotalsBoundResults` relates them to the results |
| AdminPage.AdminDashboard.Mount | src/pages/AdminDashboard.tsx:78-99 | the user becomes the accepted record, or is kept with the guard's navigation. From the initial state the body shows iff the guard accepted |
| AdminPage.AdminDashboard.HandleLogout | src/pages/AdminDashboard.tsx:101-105 | slot absent, "Logged out successfully", move to `/` |
| AdminPage.AdminDashboard.SetSearchTerm | src/pages/AdminDashboard.tsx:107-120 | only the term changes. When the new term extends the old, every row now shown was shown before |
| AdminPage.AdminDashboard.TotalsBoundResults | src/pages/AdminDashboard.tsx:190-210 | the summary counts are the sizes of the unfiltered tables. They equal the empty-term results and bound the results for any term |
| Login.LoginData.With | src/components/auth/LoginForm.tsx:30-36 | the named field takes the new value and the other field is unchanged |
| Login.SessionAfterLogin | src/components/auth/LoginForm.tsx:57-60 | the stored record: the email, logged in, no name and no role |
| Login.LoginForm.constructor | src/components/auth/LoginForm.tsx:24-28 | empty fields, not loading |
| Login.LoginForm.HandleChange | src/components/auth/LoginForm.tsx:30-36 | the form data becomes the old data with only the named field replaced |
| Login.LoginForm.HandleSubmit | src/components/auth/LoginForm.tsx:38-70 | an empty email or password gives "Please fill in all fields" with the slot and loading untouched. Any other pair is accepted and loading is on during the write. On a writable store the slot is overwritten with exactly `{email, isLoggedIn: true}` (no name, no role), then "Login successful!" and a move to `/dashboard`. If the write throws, "Login failed. Please try again." is shown, the slot is unchanged and nothing navigates. Loading ends off on both paths |
| Register.RegisterData.With | src/components/auth/RegisterForm.tsx:34-40 | the named field takes the new value. The other fields and the terms box are unchanged |
| Register.Validate | src/components/auth/RegisterForm.tsx:53-66 | the ordered checks, each as an iff: missing fields first, then a password mismatch (only when all are filled), then unticked terms (only when the passwords agree). None exactly when all pass |
| Register.SessionAfterRegister | src/components/auth/RegisterForm.tsx:78-82 | the stored record: name and email, logged in, no role, and no password |
| Register.RegisterForm.constructor | src/components/auth/RegisterForm.tsx:25-32 | empty fields, terms unticked, not loading |
| Register.RegisterForm.HandleChange | src/components/auth/RegisterForm.tsx:34-40 | only the named field changes |
| Register.RegisterForm.HandleCheckboxChange | src/components/auth/RegisterForm.tsx:42-47 | only `agreeToTerms` changes |
| Register.RegisterForm.HandleSubmit | src/components/auth/RegisterForm.tsx:49-92 | the first failed check's message and no write. Otherwise, on a writable store, the slot holds `{name, email, isLoggedIn: true}` (no password, no role), then "Registration successful!" and a move to `/dashboard`. If the write throws, "Registration failed. Please try again." is shown, the slot is unchanged and nothing navigates. Loading ends off on both paths |
| BookDemoPage.DemoRequest.With | src/pages/BookDemo.tsx:29-35 | the named field takes the new value. The other fields and `experience` are unchanged |
| BookDemoPage.IsComplete | src/pages/BookDemo.tsx:48 | the condition under which submission reports missing fields: incomplete iff name, email or experience is empty |
| BookDemoPage.OptionalFieldsIgnored | src/pages/BookDemo.tsx:48 | phone and message are optional: replacing them by any values never changes whether the request is complete |
| BookDemoPage.BookDemo.ShowsThankYou | src/pages/BookDemo.tsx:77-211 | the page shows the thank-you view instead of the form exactly when `isSubmitted` holds |
| BookDemoPage.BookDemo.constructor | src/pages/BookDemo.tsx:19-27 | empty request, not submitting, not submitted |
| BookDemoPage.BookDemo.HandleChange | src/pages/BookDemo.tsx:29-35 | only the named field changes. A submitted form stays submitted |
| BookDemoPage.BookDemo.HandleSelectChange | src/pages/BookDemo.tsx:37-42 | only `experience` changes. A submitted form stays submitted |
| BookDemoPage.BookDemo.HandleSubmit | src/pages/BookDemo.tsx:44-70 | an incomplete request gives "Please fill in all required fields" with both flags unchanged. A complete one ends submitted and not submitting. `isSubmitted` is never reset |
| PricingPage.OptionLabel | src/pages/Pricing.tsx:187 | the option value `${title} - ${name}` |
| PricingPage.CategoryOptions | src/pages/Pricing.tsx:183-189 | one category's options, one label per plan in order |
| PricingPage.ProgramOptions | src/pages/Pricing.tsx:182-191 | the `flatMap`: every category's options, categories in order. `OptionForEveryPlan` and `CatalogueOptions` characterize it |
| PricingPage.CardPlan | src/pages/Pricing.tsx:235 | what a card hands to `handleEnroll`: its category's title and its plan's name |
| PricingPage.OptionForEveryPlan | src/pages/Pricing.tsx:182-191 | every (category, plan) pair of any catalogue has its "title - name" option |
| PricingPage.TwoPlanOptions | src/pages/Pricing.tsx:183-189 | a two-plan category contributes its two labels in declaration order |
| PricingPage.CatalogueOptions | src/pages/Pricing.tsx:26-89 | the select offers exactly the four labels, one per (category, plan) pair in declaration order, all distinct |
| PricingPage.InitialProgram | src/pages/Pricing.tsx:96 | "title - name" when a plan is given at construction, "" otherwise |
| PricingPage.CardProgramIsAnOption | src/pages/Pricing.tsx:235 | the program a card's plan would yield is one of the select's options |
| PricingPage.EnrollmentData.With | src/pages/Pricing.tsx:99-102 | the named field takes the new value. The other fields and `program` are unchanged |
| PricingPage.EnrollmentForm.constructor | src/pages/Pricing.tsx:91-97 | empty fields and the initial program of the plan given at construction |
| PricingPage.EnrollmentForm.HandleChange | src/pages/Pricing.tsx:99-102 | only the named field changes |
| PricingPage.EnrollmentForm.HandleSelectChange | src/pages/Pricing.tsx:104-106 | only `program` changes |
| PricingPage.EnrollmentForm.HandleSubmit | src/pages/Pricing.tsx:108-123 | `onClose` is called iff none of name, email, age and program is empty. Otherwise the result is "Please fill in all fields" |
| PricingPage.Pricing.constructor | src/pages/Pricing.tsx:244-245 | the dialog is closed with no plan, and its one form is mounted with no plan, so its program is "" |
| PricingPage.Pricing.HandleEnroll | src/pages/Pricing.tsx:247-250 | sets the plan and opens the dialog. The form's data is unchanged, since it is not rebuilt |
| PricingPage.Pricing.CloseEnrollment | src/pages/Pricing.tsx:308 | the dialog closes |
| PricingPage.Pricing.SubmitEnrollment | src/pages/Pricing.tsx:306-310 | a complete form closes the dialog with success. An incomplete one leaves it as it was, with the error |
| Collections.Map | src/pages/CoachDashboard.tsx:226-230 | `Array.prototype.map` on sequences. `MapAt` and `MapLength` characterize it |
| Collections.Filter | src/pages/CoachDashboard.tsx:692 | `Array.prototype.filter` on sequences. `FilterMembership`, `FilterIsSubsequence`, `FilterKeepsAll` and `FilterStronger` characterize it |
| Collections.IsSubsequence | src/pages/AdminDashboard.tsx:107-120 | the first sequence is obtained from the second by deleting elements, keeping order |
| Collections.MapAt | src/pages/CoachDashboard.tsx:226-230 | `map` keeps the length and applies the function at every index |
| Collections.MapLength | src/pages/CoachDashboard.tsx:226-230 | `map` keeps the length |
| Collections.FilterMembership | src/pages/AdminDashboard.tsx:107-120 | an element is in the filtered list iff it is in the list and satisfies the predicate |
| Collections.FilterIsSubsequence | src/pages/AdminDashboard.tsx:107-120 | `filter` yields an order-preserving subsequence |
| Collections.FilterKeepsAll | src/pages/AdminDashboard.tsx:107-120 | filtering by a predicate every element meets changes nothing |
| Collections.FilterStronger | src/pages/AdminDashboard.tsx:107-120 | filtering by a stronger predicate yields a subsequence of filtering by the weaker one |
| Collections.SubsequenceOfTail | src/pages/AdminDashboard.tsx:107-120 | a subsequence of the tail is a subsequence of the whole |
| Collections.SubsequenceMembers | src/pages/AdminDashboard.tsx:107-120 | the members of a subsequence are members of the sequence |
| Collections.SubsequenceLength | src/pages/AdminDashboard.tsx:107-120 | a subsequence is no longer than its sequence |
| Text.LowerChar | src/pages/AdminDashboard.tsx:108 | `toLowerCase` on one character: ASCII capitals become small letters, everything else is kept |
| Text.Lower | src/pages/AdminDashboard.tsx:108 | `toLowerCase`: the same length, each character lower-cased |
| Text.Includes | src/pages/AdminDashboard.tsx:108 | `includes`: the second string occurs at some position of the first |
| Text.IsWhitespace | src/pages/CoachDashboard.tsx:260 | the ASCII white space that `trim` strips |
| Text.IsBlank | src/pages/CoachDashboard.tsx:260 | `!s.trim()`: the string is all white space, so trimming leaves "" |
| Text.IncludesEmpty | src/pages/AdminDashboard.tsx:108 | every string contains the empty string |
| Text.IncludesTransitive | src/pages/AdminDashboard.tsx:108 | containment is transitive |
| SessionScope.RolelessRefusedEverywhere | src/pages/StudentDashboard.tsx:77 | a record without a role is refused by the student, coach and admin guards, each with its own denial notice |
| SessionScope.LoginSessionScope | src/components/auth/LoginForm.tsx:57-63 | the record the login form writes opens `/dashboard` for that record, greeted as "Chess Player", and is refused by all three role guards |
| SessionScope.RegisterSessionScope | src/components/auth/RegisterForm.tsx:78-85 | the record the register form writes opens `/dashboard`, greeted by the registered name, and is refused by all three role guards |
| SessionScope.AfterLogoutEveryGuardAsksToLogin | src/pages/Dashboard.tsx:22-27 | with the slot absent after a logout, every guard sends to `/login` with "Please login to access the dashboard" |
| SessionScope.LoginThenVisit | src/components/auth/LoginForm.tsx:38-70 | a filled login on a writable store, followed by mounting the generic and coach dashboards on the same storage, shows the generic body and gives the coach denial |

## Left out

- Rendering (JSX, styling, icons, dialogs, tabs, tables, selects): presentation only. The model keeps the dialog flags and `ShowsBody`/`ShowsThankYou`, which decide what is shown.
- `toast`, `console.log`, `console.error` and `useNavigate` are not called. The four submit handlers' `console.log` of the form data, which includes the password on the login and register forms, is dropped with them. The notices and routes are returned as values (`Toast`, `Navigation`, optional route).
- `localStorage` and `JSON.parse` are not modelled as text. Storage is the one-slot `SessionStore`. Any parse failure, including a stored `null`, is the `Corrupt` slot. The JSON grammar is not modelled.
- The `async` submit handlers and their `setTimeout` delays are single atomic steps. `Login.LoginForm.HandleSubmit` records, in a ghost out-parameter, that loading was on while the slot was written. React's effect scheduling and sharing storage between tabs are concurrency and are not modelled.
- The clock (`toLocaleTimeString`, `toLocaleDateString`) is a `now` parameter of the message handlers.
- Text.Lower: lower-cases ASCII letters only. `toLowerCase` also folds non-ASCII letters, and that is not modelled.
- Text.IsBlank: treats only ASCII space, tab, newline, carriage return, vertical tab and form feed as whitespace. `trim` also strips other Unicode spaces.
- Input attributes the browser enforces (`required`, `min`/`max` on the age field) are not modelled: the handlers check only for non-empty fields.
- Storage failure is a fixed property of a store (`writable`). A store whose writes fail sometimes but not always is not modelled. `removeItem` and `getItem` are taken never to throw.
- The mock data tables are constructor parameters, not copied constants. The coach dashboard's constructor requires of them what its invariant needs, and the shipped mock data meets that.
- CoachPage.CoachDashboard.HandleGradeAssignment and HandleDemoAction: require a selected record. The buttons that call them are rendered only inside the dialog of a selected record.
- Assignment titles are optional, because two mock records (ids 2 and 3) use `name` instead of `title`.
- The "Add Assignment" button of the class-detail dialog is not modelled. It keeps the draft and fills in that class's batch. Classes are not part of this model. The list's "Create Assignment" button is `OpenAddAssignment`.
- The class, student and section navigation handlers (`handleViewClass`, `handleViewStudent`, `handleNavigate`) only set a selection and a flag. They are not core operations and are not modelled.
- Some coach dashboard controls are not modelled because they change only a dialog flag or show a toast: the dialogs' close and cancel buttons (CoachDashboard.tsx:521, 810, 1019, 1144) and the placeholder buttons that only toast (436, 645, 1169, 1179). CoachPage.CoachDashboard.HandleDemoAction does not model the `status === "Pending"` gate (1107) that hides the action buttons for other demos, so it is more general than the rendered page.
- Static pages and components (FAQ, testimonials, footer, hero, benefits, programs, program detail, not-found, navbar, route table and the login page's toggle) hold no logic.

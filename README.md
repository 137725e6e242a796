# Lightweight feedback system: a Dafny model of its core

This project models the logic of a small feedback application. Managers write feedback about
employees. Employees acknowledge and comment on that feedback. Anonymous feedback and feedback
requests go into two side collections. A Flask backend signs users up and logs them in.

The front end keeps all of its data in browser storage. The model represents that storage as one
mutable map from key to a typed JSON value (`Storage.LocalStorage`). Each page keeps its state in a
class, and every handler is a method that reads and rewrites whole collections. The model covers:

- **Feedback records.** A record is a datatype with optional keys, because records are built with
  open object spreads. The snake_case and camelCase id keys are kept apart.
- **Record collections.** These are sequences. The shared transformations live in `Records`:
  map-where-id-matches, shallow merge, toggle, comment append, delete by id, and find.
- **The two repository modules** `UtilsApi` and `FeedbackApi`. Each has its getters, and each
  writer is a method proved against a function of the old store.
- **The page handlers:**
  - `ManagerDashboard` proves the scoped merge-on-write;
  - `EmployeeDashboard`;
  - `FeedbackHistory`;
  - `FeedbackCard`;
  - `AnonymousFeedback` and `FeedbackRequest`, the side collections;
  - `SignupPage` and `LoginPage`, the forms.
- **The session state machine** `AuthContext`: start-up hydration, login and logout over the keys
  "user", "managerId" and "employeeId".
- **The two route gates** (`RouteGuard`, `RoleGuard`) and the route table (`AppRoutes`).
- **The backend credential decision table** (`BackendAuth`). The users table is a map keyed by the
  unique employee id.

Some inputs come from outside the program: the clock, the random id digits, ISO dates, the JWT,
the password hash, `window.confirm`, and the replies of network calls. Each of these is a
parameter of the operation that uses it. Navigation is a returned destination. A toast is a
returned `Ui.Notice`.

## Model

| member | source | states |
|---|---|---|
| Records.MergeNoFields | Frontend/src/utils/api.js:53 | spreading an object with no keys leaves a record unchanged |
| Records.MergeIdempotent | Frontend/src/utils/api.js:53 | applying the same spread twice is the same as applying it once |
| Records.MergeAssociative | Frontend/src/api/feedback.js:46 | two successive spreads equal one spread of the merged patches |
| Records.MapWhere | Frontend/src/utils/api.js:52-54 | the length is kept; each record with the id is rewritten and every other record is unchanged |
| Records.FindById | Frontend/src/utils/api.js:57 | `find` returns nothing iff no record has the id; otherwise it returns a stored record with that id |
| Records.FindByIdFirst | Frontend/src/utils/api.js:57 | among several records with the id, `find` returns the first one |
| Records.FindAfterMapWhere | Frontend/src/utils/api.js:52-57 | what a writer returns after map-then-find is the first record with the id, rewritten, or nothing |
| Records.FilterMapWhere | Frontend/src/pages/EmployeeDashboard.jsx:63-67 | selecting records by a property the rewrite keeps commutes with rewriting the id's records |
| Records.MapWhereKeepsOthers | Frontend/src/pages/EmployeeDashboard.jsx:104-106 | a rewrite of the id's records leaves every record of a selection that excludes the id unchanged and in order |
| Records.ToggleTwice | Frontend/src/utils/api.js:103-110 | toggling the same id twice restores the collection when the matching records carry `acknowledged` |
| Records.ToggleTwiceTruthiness | Frontend/src/utils/api.js:105-107 | for any records, toggling twice restores whether each one counts as acknowledged |
| Records.DeleteWhereSpec | Frontend/src/utils/api.js:64 | after a delete no record has the id; the rest form an ordered subsequence; exactly the matching records are removed |
| Records.SentimentCountsTotal | Frontend/src/pages/ManagerDashboard.jsx:158-171 | the three sentiment counts sum to at most the length, and to exactly the length iff every record has one of the three sentiments |
| Storage.ReadFeedbacks | Frontend/src/utils/api.js:71-73 | an absent key or a stored `null` reads as the empty collection; a stored array is returned as is |
| Storage.ReadAfterWrite | Frontend/src/utils/api.js:56 | the collection written is the collection read back |
| Storage.ReadAnonymous | Frontend/src/pages/AnonymousFeedback.jsx:18 | an absent "anonymousFeedbacks" or a stored `null` reads as the empty list; a stored array is returned as is |
| Storage.ReadRequests | Frontend/src/pages/FeedbackRequest.jsx:25-26 | an absent "feedbackRequests" or a stored `null` reads as the empty list; a stored array is returned as is |
| UtilsApi.GetAllFeedbacks | Frontend/src/utils/api.js:71-73 | an absent "feedbacks" key or a stored `null` gives the empty sequence; a stored array is returned as is |
| UtilsApi.GetManagerFeedbacks | Frontend/src/utils/api.js:76-78 | exactly the stored records whose `manager_id` is the argument, in stored order, and as many as there are |
| UtilsApi.GetEmployeeFeedbacks | Frontend/src/utils/api.js:81-83 | exactly the stored records whose `employee_id` is the argument, in stored order, and as many as there are |
| UtilsApi.NewFeedback | Frontend/src/utils/api.js:88-94 | `acknowledged` is false, `comments` is empty and `createdAt` is the given date whatever the input holds; an input id beats the generated one; every other key comes from the input |
| UtilsApi.CreateFeedback | Frontend/src/utils/api.js:86-100 | exactly one new record is appended at the end, and the store changes only under "feedbacks" |
| UtilsApi.CreateThenListByEmployee | Frontend/src/utils/api.js:86-100 | after a create, the recipient's list gains the new record at its end; every other employee's list is unchanged |
| UtilsApi.UpdateFeedback | Frontend/src/utils/api.js:49-58 | the matching records are shallow-merged; the result is the first merged record or nothing |
| UtilsApi.UpdateResult | Frontend/src/utils/api.js:49-58 | when the data keeps the id (as the only caller's always does), the update returns the first matching record merged with the data, or nothing; with no match the collection is unchanged |
| UtilsApi.UpdateOneKey | Frontend/src/utils/api.js:52-54 | updating one key changes only that key of the matching records; the length and all other records are unchanged |
| UtilsApi.DeleteFeedback | Frontend/src/utils/api.js:61-68 | every record with the id is removed, and success is reported even when nothing matched |
| UtilsApi.DeleteThenList | Frontend/src/utils/api.js:61-83 | after a delete no getter returns a record with that id |
| UtilsApi.ToggleAcknowledge | Frontend/src/utils/api.js:103-110 | only the matching records are flipped; the result is the first one, toggled |
| UtilsApi.SubmitComment | Frontend/src/utils/api.js:113-131 | `{text, by, date}` is appended to each matching record; the result is the first one with the comment |
| UtilsApi.CommentAppended | Frontend/src/utils/api.js:115-128 | exactly one comment is added at the end of `comments` (absent counts as empty); no other key and no other record changes |
| FeedbackApi.GetStoredFeedbacks | Frontend/src/api/feedback.js:4-7 | a missing key or an empty string gives the empty sequence; a stored array is returned as is |
| FeedbackApi.SetStoredFeedbacks | Frontend/src/api/feedback.js:10-12 | the next read returns what was written |
| FeedbackApi.NewFeedback | Frontend/src/api/feedback.js:24-30 | `createdAt`, `acknowledged` and `comments` cannot be overridden by the input; the input's id overrides `generateId()` |
| FeedbackApi.CreateFeedback | Frontend/src/api/feedback.js:22-34 | one record is appended at the end of the stored collection |
| FeedbackApi.GetManagerFeedbacks | Frontend/src/api/feedback.js:37-40 | exactly the stored records whose camelCase `managerId` is the argument, in order |
| FeedbackApi.GetEmployeeFeedbacks | Frontend/src/api/feedback.js:65-68 | exactly the stored records whose camelCase `employeeId` is the argument, in order |
| FeedbackApi.CamelGettersMissSnakeRecords | Frontend/src/api/feedback.js:39 | records written with only the snake_case keys are never returned by the camelCase getters |
| FeedbackApi.UpdateFeedback | Frontend/src/api/feedback.js:43-50 | the matching records are shallow-merged; the result is the first match or nothing |
| FeedbackApi.DeleteFeedback | Frontend/src/api/feedback.js:53-58 | every match is removed and success is always reported |
| FeedbackApi.ToggleAcknowledgeFeedback | Frontend/src/api/feedback.js:71-78 | only the matching records are flipped; the result is the first one, toggled |
| FeedbackApi.ToggleTwiceRestoresStore | Frontend/src/api/feedback.js:71-78 | two toggles of the same id give back the stored collection when the matching records carry `acknowledged` |
| FeedbackApi.ToggleTwiceAddsKey | Frontend/src/api/feedback.js:74 | a record without `acknowledged` is not restored by two toggles: it ends with `acknowledged: false` |
| FeedbackApi.SubmitFeedbackComment | Frontend/src/api/feedback.js:81-94 | the caller's comment is appended unchanged to each matching record's `comments` |
| Tags.ParseTags | Frontend/src/pages/ManagerDashboard.jsx:71-74 | every parsed tag is non-empty, has no white space at either end and has no comma |
| Tags.TagsRoundTrip | Frontend/src/pages/ManagerDashboard.jsx:117 | joining tags with ", " and parsing them again gives back the list, when every tag is non-empty, trimmed and comma-free |
| ManagerDashboard.SubmitPlacement | Frontend/src/pages/ManagerDashboard.jsx:65-89 | a new record is prepended and gets the timestamp id; an edit replaces the matching records in place and resets `acknowledged` to false |
| ManagerDashboard.MergeKeepsOthers | Frontend/src/pages/ManagerDashboard.jsx:104-108 | other managers' records survive the merge in count, content and order, and the manager's records are exactly the page's list |
| ManagerDashboard.EditThenSubmit | Frontend/src/pages/ManagerDashboard.jsx:110-118 | editing a record and saving it untouched writes it back with `acknowledged` false; the keys the form does not carry are dropped |
| ManagerDashboard.WriteThenLoad | Frontend/src/pages/ManagerDashboard.jsx:39-43 | reloading after any dashboard write shows exactly the page's list, and the other managers' records are as before |
| ManagerDashboard.Dashboard.constructor | Frontend/src/pages/ManagerDashboard.jsx:28-36 | empty list, the empty form with sentiment "positive", no edit id |
| ManagerDashboard.Dashboard.Load | Frontend/src/pages/ManagerDashboard.jsx:39-43 | the list is the stored records whose `manager_id` is the manager's email |
| ManagerDashboard.Dashboard.HandleSubmit | Frontend/src/pages/ManagerDashboard.jsx:56-102 | an incomplete form is refused and nothing changes; otherwise the list is updated and merged into storage, and the form and edit id are reset |
| ManagerDashboard.Dashboard.HandleEdit | Frontend/src/pages/ManagerDashboard.jsx:110-118 | the edit id and the form come from the record, with its tags joined by ", " |
| ManagerDashboard.Dashboard.HandleDelete | Frontend/src/pages/ManagerDashboard.jsx:122-129 | after confirmation only the id is removed from the manager's list before merging, and the toast is "Feedback deleted"; with no confirmation nothing changes and no toast shows |
| ManagerDashboard.Dashboard.ToggleAcknowledge | Frontend/src/pages/ManagerDashboard.jsx:131-138 | only the matching records of the list are flipped before merging, and the toast is "Acknowledgement toggled" |
| EmployeeDashboard.AnyAcknowledged | Frontend/src/pages/EmployeeDashboard.jsx:42 | true iff some record is acknowledged |
| EmployeeDashboard.AcknowledgeIdempotent | Frontend/src/pages/EmployeeDashboard.jsx:58-67 | acknowledging sets rather than toggles, so doing it twice is the same as once |
| EmployeeDashboard.CommentOverwrites | Frontend/src/pages/EmployeeDashboard.jsx:99-107 | a second comment replaces the first; nothing accumulates |
| EmployeeDashboard.BlankDraftIff | Frontend/src/pages/EmployeeDashboard.jsx:94 | a draft is refused iff it is missing or all white space |
| EmployeeDashboard.WriterFrame | Frontend/src/pages/EmployeeDashboard.jsx:63-67 | for any rewrite that keeps `employee_id`, the employee's slice of the rewritten collection is the slice rewritten the same way as the view, and every other employee's records are rewritten where they carry the id; they are unchanged when none of them carries it |
| EmployeeDashboard.WriterReachesOthers | Frontend/src/pages/EmployeeDashboard.jsx:63-67 | ids are not assumed unique: another employee's record with the id is rewritten by either writer, so that employee's records change |
| EmployeeDashboard.Dashboard.constructor | Frontend/src/pages/EmployeeDashboard.jsx:32-34 | no records, nothing acknowledged and no drafts |
| EmployeeDashboard.Dashboard.Mount | Frontend/src/pages/EmployeeDashboard.jsx:36-44 | the list is the stored records addressed to the user; the flag is true iff one of them is acknowledged |
| EmployeeDashboard.Dashboard.HandleCommentChange | Frontend/src/pages/EmployeeDashboard.jsx:88-90 | the draft for one record id is recorded |
| EmployeeDashboard.Dashboard.HandleAcknowledge | Frontend/src/pages/EmployeeDashboard.jsx:52-72 | an empty list reports an error and writes nothing; otherwise the first record's id is acknowledged in the view and in storage |
| EmployeeDashboard.Dashboard.HandleSubmitComment | Frontend/src/pages/EmployeeDashboard.jsx:92-111 | a blank draft is refused without writing; otherwise it overwrites `comment` on the matching records in the view and in storage |
| FeedbackHistory.FetchScope | Frontend/src/components/FeedbackHistory.jsx:28-36 | managers see exactly the records with their email as `manager_id`, employees exactly those with their id as `employee_id`, each as many times as stored; other roles see nothing; the result is an ordered subsequence |
| FeedbackHistory.ScopesAfterDelete | Frontend/src/components/FeedbackHistory.jsx:59-63 | the filter applied after a delete equals the fetch filter for managers and employees; for other roles it selects by `employee_id` |
| FeedbackHistory.ScopesDiffer | Frontend/src/components/FeedbackHistory.jsx:59-63 | for some role outside the two, the view after a delete shows a record that the fetch hid |
| FeedbackHistory.SearchFilter | Frontend/src/components/FeedbackHistory.jsx:90-94 | exactly the records whose search key contains the term, case-insensitively, each as many times as it occurs, as an ordered subsequence |
| FeedbackHistory.EmptySearch | Frontend/src/components/FeedbackHistory.jsx:90-94 | the empty term keeps exactly the records that carry the search key |
| FeedbackHistory.SearchIgnoresCase | Frontend/src/components/FeedbackHistory.jsx:93 | lower-casing the term does not change the result |
| FeedbackHistory.DeleteHidesId | Frontend/src/components/FeedbackHistory.jsx:55-64 | no record shown after a delete carries the deleted id |
| FeedbackHistory.History.constructor | Frontend/src/components/FeedbackHistory.jsx:15-17 | no records, the empty search term, and not loading |
| FeedbackHistory.History.SetSearchTerm | Frontend/src/components/FeedbackHistory.jsx:117 | the term takes the typed value; the records and the loading flag are kept |
| FeedbackHistory.History.Fetch | Frontend/src/components/FeedbackHistory.jsx:21-49 | without an email or an id nothing happens; otherwise the role-scoped records are shown, or the view is kept if the read throws; `loading` ends false |
| FeedbackHistory.History.HandleDelete | Frontend/src/components/FeedbackHistory.jsx:51-68 | after confirmation the id is removed from the full collection and the view is re-filtered; declining changes nothing |
| FeedbackHistory.History.Shown | Frontend/src/components/FeedbackHistory.jsx:90-94 | the rendered list is the ordered subsequence of the fetched list holding exactly the records matching the current term, each as many times as fetched |
| FeedbackCard.InitialEditData | Frontend/src/components/FeedbackCard.jsx:6 | the buffer is a copy of the record, with its tags as a list |
| FeedbackCard.Edited | Frontend/src/components/FeedbackCard.jsx:9-12 | a change sets one key and keeps every other key |
| FeedbackCard.NormaliseTags | Frontend/src/components/FeedbackCard.jsx:19-21 | typed text is parsed into well-formed tags; a list is kept as is; a missing value becomes `[]` |
| FeedbackCard.TagFieldRoundTrip | Frontend/src/components/FeedbackCard.jsx:84-86 | retyping what the tag field shows, or leaving it untouched, reproduces a well-formed list |
| FeedbackCard.UpdatedFeedback | Frontend/src/components/FeedbackCard.jsx:17-22 | the saved object is the buffer with normalised tags and every other key unchanged |
| FeedbackCard.SaveUntouched | Frontend/src/components/FeedbackCard.jsx:14-28 | saving an untouched buffer rewrites the card's records as they were (a missing tags key becomes `[]`) |
| FeedbackCard.SaveFrame | Frontend/src/components/FeedbackCard.jsx:24-28 | a save keeps the length and the other records, and merges the buffer over the card's records |
| FeedbackCard.Card.constructor | Frontend/src/components/FeedbackCard.jsx:5-7 | not editing, the buffer copied from the record, not loading |
| FeedbackCard.Card.StartEditing | Frontend/src/components/FeedbackCard.jsx:170 | enters edit mode and keeps the buffer |
| FeedbackCard.Card.CancelEditing | Frontend/src/components/FeedbackCard.jsx:110 | leaves edit mode and keeps the buffer |
| FeedbackCard.Card.HandleEditChange | Frontend/src/components/FeedbackCard.jsx:9-12 | the buffer takes the change |
| FeedbackCard.Card.HandleSave | Frontend/src/components/FeedbackCard.jsx:14-37 | the buffer is merged over the stored records with the card's id and edit mode ends; a refresh callback that throws keeps edit mode after the write; a throwing read writes nothing; `loading` ends false |
| FeedbackCard.Card.HandleDelete | Frontend/src/components/FeedbackCard.jsx:39-53 | a declined confirmation changes nothing; otherwise every record with the card's id is removed |
| AuthContext.RolesExclusive | Frontend/src/context/AuthContext.jsx:45-46 | `isManager` and `isEmployee` are never both true, and both are false without a user |
| AuthContext.RestoreOf | Frontend/src/context/AuthContext.jsx:10-18 | an absent key, "" or "undefined" is skipped; a JSON value is parsed; any other text is malformed |
| AuthContext.HydratedUser | Frontend/src/context/AuthContext.jsx:9-19 | start-up yields a user iff a user object is stored |
| AuthContext.HydratedItems | Frontend/src/context/AuthContext.jsx:15-18 | only a malformed "user" is removed |
| AuthContext.HydrateIdempotent | Frontend/src/context/AuthContext.jsx:9-19 | a second start-up changes neither the store nor the user |
| AuthContext.LoginItems | Frontend/src/context/AuthContext.jsx:24-29 | "user" is set; "managerId" is written only for managers and "employeeId" only for employees; every other key is untouched and no other key is added |
| AuthContext.LogoutItems | Frontend/src/context/AuthContext.jsx:37-40 | the three session keys are gone and every other key is untouched |
| AuthContext.LoginThenHydrate | Frontend/src/context/AuthContext.jsx:22-34 | a reload after login restores the same user |
| AuthContext.LogoutThenHydrate | Frontend/src/context/AuthContext.jsx:37-46 | a reload after logout restores no user, so neither role holds |
| AuthContext.AuthProvider.constructor | Frontend/src/context/AuthContext.jsx:6 | no user |
| AuthContext.AuthProvider.Hydrate | Frontend/src/context/AuthContext.jsx:9-19 | the store becomes the hydrated store; the user is set only when a value parses |
| AuthContext.AuthProvider.Login | Frontend/src/context/AuthContext.jsx:22-34 | the store becomes the login store and the user is the given user |
| AuthContext.AuthProvider.Logout | Frontend/src/context/AuthContext.jsx:37-42 | the store becomes the logout store and there is no user |
| RouteGuard.Decide | Frontend/src/routes/ProtectedRoute.jsx:4-19 | no user goes to "/"; a given role the user lacks goes to "/unauthorized"; a matching role or no role renders, each as an iff |
| RouteGuard.OnlyRoleMatters | Frontend/src/routes/ProtectedRoute.jsx:4-19 | the decision depends only on whether there is a user and on its role |
| RoleGuard.Decide | Frontend/src/components/ProtectedRoute.jsx:24-32 | no user goes to "/"; a given list without the user's role goes to "/unauthorized"; a user renders iff no list is given or the list holds the user's role |
| RoleGuard.GatesAgree | Frontend/src/components/ProtectedRoute.jsx:28-30 | for a non-empty role, the single-role gate decides as the list gate does with a one-role list |
| RoleGuard.RestoreOf | Frontend/src/components/ProtectedRoute.jsx:15-22 | the effect throws iff the stored text is not JSON, and sets the user iff a user object is stored |
| RoleGuard.RestoreContrast | Frontend/src/components/ProtectedRoute.jsx:17 | on text that is not JSON this effect throws while the provider recovers; otherwise both restore the same user |
| RoleGuard.HydrateEffect | Frontend/src/components/ProtectedRoute.jsx:15-22 | with no current user, the user is set from a stored user object; otherwise nothing changes |
| AppRoutes.Lookup | Frontend/src/App.jsx:34-86 | a path is found iff some route has it, and the access found is that of a route with it |
| AppRoutes.LookupFirst | Frontend/src/App.jsx:34-86 | among several routes with the same path, the access found is the first one's |
| AppRoutes.TableAccess | Frontend/src/App.jsx:36-84 | the three public pages have no gate; two pages declare "manager" and three declare "employee" |
| AppRoutes.WiredIgnoresRole | Frontend/src/App.jsx:43-84 | as wired, any signed-in user renders every gated page and a visitor is sent to "/" |
| AppRoutes.EmployeeOpensManagerDashboard | Frontend/src/App.jsx:46 | as wired, an employee renders the manager dashboard |
| AppRoutes.IntendedEnforcesRole | Frontend/src/App.jsx:43-84 | with `allowedRoles={[role]}`, a gated page renders iff the user has the declared role, and both gates agree |
| AppRoutes.EmployeeTurnedAway | Frontend/src/App.jsx:46 | with the intended wiring, the same employee is sent to "/unauthorized" |
| AnonymousFeedback.AcceptableIff | Frontend/src/pages/AnonymousFeedback.jsx:30-33 | a form is refused iff strengths or improvements is all white space |
| AnonymousFeedback.Page.constructor | Frontend/src/pages/AnonymousFeedback.jsx:7-14 | the empty form with sentiment "positive" and an empty list |
| AnonymousFeedback.Page.Mount | Frontend/src/pages/AnonymousFeedback.jsx:17-20 | the stored list is loaded; an absent key loads an empty list |
| AnonymousFeedback.Page.HandleChange | Frontend/src/pages/AnonymousFeedback.jsx:22-25 | the form takes the change |
| AnonymousFeedback.Page.HandleSubmit | Frontend/src/pages/AnonymousFeedback.jsx:27-52 | a refused form writes nothing; otherwise the entry is appended to the in-memory list (prefix kept, length plus one), the list is stored, and the form resets |
| AnonymousFeedback.WriteIgnoresStore | Frontend/src/pages/AnonymousFeedback.jsx:40-42 | what is stored is the page's list plus the new entry; any stored entry outside that list is gone after the write |
| AnonymousFeedback.InterleavedSubmissionLost | Frontend/src/pages/AnonymousFeedback.jsx:17-42 | two pages mounted on the same store each submit once; the first page's entry is lost to the second write |
| FeedbackRequest.AcceptableIff | Frontend/src/pages/FeedbackRequest.jsx:20-23 | a form is refused iff the manager or the message is all white space |
| FeedbackRequest.Page.constructor | Frontend/src/pages/FeedbackRequest.jsx:7-10 | the empty form |
| FeedbackRequest.Page.HandleChange | Frontend/src/pages/FeedbackRequest.jsx:12-15 | the form takes the change |
| FeedbackRequest.Page.HandleSubmit | Frontend/src/pages/FeedbackRequest.jsx:17-39 | a refused form writes nothing; otherwise the stored requests are re-read and written back with one untrimmed `{id, to_manager, message}` appended, and the form resets |
| FeedbackRequest.TwoSubmissions | Frontend/src/pages/FeedbackRequest.jsx:25-35 | two submissions keep both requests, in order, after what was stored |
| SignupPage.Validate | Frontend/src/pages/Signup.jsx:31-39 | an empty field is reported first; a password shorter than 6 is reported only when every field is filled; otherwise the form is ready |
| SignupPage.RequestOf | Frontend/src/utils/api.js:19-28 | the posted body carries all five keys |
| SignupPage.MissingBeforeShort | Frontend/src/pages/Signup.jsx:31-39 | the empty-field check runs first: a form told its password is short has every field filled, and an empty password is reported as a missing field |
| SignupPage.AcceptedFormRegisters | Frontend/src/pages/Signup.jsx:31-43 | every request the page sends passes the server's presence check, and the user it registers can then log in |
| SignupPage.Page.constructor | Frontend/src/pages/Signup.jsx:11-20 | all fields are empty except the role, which is "employee"; not loading |
| SignupPage.Page.HandleChange | Frontend/src/pages/Signup.jsx:22-25 | the form takes the change |
| SignupPage.Page.HandleSubmit | Frontend/src/pages/Signup.jsx:27-51 | a refused form makes no call; success navigates to "/"; failure shows the server's message or the fallback; `loading` ends false after a call |
| LoginPage.SessionOf | Frontend/src/pages/Login.jsx:39-43 | the session holds exactly the token, id and role of the reply, and no email |
| LoginPage.Destination | Frontend/src/pages/Login.jsx:49 | "/manager-dashboard" iff the form's role is "manager", otherwise "/employee-dashboard" |
| Records.MessageOr | Frontend/src/pages/Login.jsx:57 | the server's message when it is a non-empty string, otherwise the fallback, which is non-empty when given so; both pages' failure toasts use it |
| LoginPage.Page.constructor | Frontend/src/pages/Login.jsx:13-19 | empty credentials, role "employee", not loading |
| LoginPage.Page.HandleChange | Frontend/src/pages/Login.jsx:21-24 | the form takes the change |
| LoginPage.Page.HandleSubmit | Frontend/src/pages/Login.jsx:26-62 | an unfilled form makes no call; success stores the session and logs in; 403 goes to "/unauthorized"; other errors show a message; no session is written on error; `loading` ends false |
| LoginPage.LoginLandsOnOwnDashboard | Frontend/src/pages/Login.jsx:49 | against the server's decision, on success the reply's role and id equal the form's, so a manager or employee lands on a page the intended gate renders |
| LoginPage.EmptyRoleRejectedByServer | Frontend/src/pages/Login.jsx:30-33 | the page does not check the role; an empty role, which the page's own select cannot produce, would reach the server and get 400 |
| BackendAuth.Login | backend/auth.py:53-85 | 400 iff a credential is missing or empty; 401 iff the user is unknown or the hash differs; 403 only with valid credentials; 200 iff a session, carrying the stored employee id and role |
| BackendAuth.SessionIdentity | backend/auth.py:81-85 | in a well-formed table the 200 session carries the requested employee id (not the row id) and role |
| BackendAuth.UsersTable.Signup | backend/auth.py:22-41 | 400 when a key is absent, 409 when the employee id exists (table unchanged), otherwise the row with the hashed password is inserted and 201 returned |
| BackendAuth.SignupThenLogin | backend/auth.py:33-85 | a user who signed up with non-empty credentials logs in with them and gets 200 |
| BackendAuth.WrongPasswordHidesRole | backend/auth.py:67-71 | a wrong password gives 401 whatever role is asked for |
| BackendAuth.RoleMismatchMeansValidCredentials | backend/auth.py:70-71 | 403 implies the credentials were valid and only the role differed |
| BackendAuth.OnlyHashMatters | backend/auth.py:9-10 | the login outcome depends on the password only through its hash |

## Left out

- Rendering is not modelled: JSX, markdown, charts, PDF export, toasts, animations, `alert` and `scrollTo`. A toast is a returned `Notice` and navigation a returned destination.
- `window.confirm`, `Date.now()`, `Math.random()`, `toISOString()`, the JWT and the network replies are parameters. Record ids are not assumed unique; EmployeeDashboard.WriterFrame states separately what holds when only the employee's own records carry the id.
- The calls `registerUser`/`loginUser`, the axios interceptor and the Flask/sqlite plumbing are not modelled. The users table is a map keyed by the unique employee id.
- JSON text is not modelled: a stored value is already typed. Where the source does not catch `JSON.parse`, operations require the value to be readable (`FeedbacksReadable`, `StoredReadable`, `AnonymousReadable`, `RequestsReadable`, `UserEntryTyped`). Any other collection shape under a key counts as unreadable.
- A spread key whose value is `undefined` is treated as absent.
- Object keys are not coerced to strings, so the comment drafts are keyed by the record id itself.
- React state timing, effect ordering and other tabs writing storage concurrently are out of scope. Each handler is atomic.
- `refreshFeedbacks` is a callback of the card's parent; only whether it throws is modelled (a parameter of FeedbackCard.Card.HandleSave).
- The dashboards' `handleLogout` is AuthContext.AuthProvider.Logout followed by the toast "Logged out successfully" and navigation to "/"; only the Logout part is modelled.
- Each handler's `loading` flag is observed only once the handler has finished.
- Navbar, Layout, InputField, Button and the Unauthorized page are presentational. backend/dashboard.py and backend/feedback.py are never registered.
- BackendAuth.UsersTable.Signup: the hash is a parameter. "Never stores the plaintext" holds only for a hash that differs from the identity, so it is not stated. A non-JSON body (which the server rejects with 500) and sqlite's NOT NULL constraints are not modelled.
- Text.ToLower folds only ASCII letters. `String.prototype.toLowerCase` folds all of Unicode.
- SignupPage.Validate counts the password length in characters. JavaScript counts UTF-16 code units.
- ManagerDashboard.Dashboard.HandleEdit requires the record to have `tags`. The source's `tags.join` throws otherwise.
- EmployeeDashboard.WriterFrame: the conclusion that other employees' records are unchanged is stated only for a collection in which no other employee's record carries the id; without that, WriterReachesOthers shows they are rewritten.
- FeedbackHistory.History.Shown requires a user. Rendering without one throws in the source.
- FeedbackApi.ToggleTwiceRestoresStore requires the key to hold an array. An empty string becomes "[]" after one toggle.

## Findings

| source | as written | input that shows it | evidently intended | confidence | as-written member | corrected member |
|---|---|---|---|---|---|---|
| Frontend/src/App.jsx:46 | the protected routes pass `role="manager"`/`role="employee"` to the gate of Frontend/src/components/ProtectedRoute.jsx:11, which reads only `allowedRoles`, so no role is enforced | an employee session visiting "/manager-dashboard" renders the page | the declared role restricts the page (`allowedRoles={[role]}`, or the single-role gate) | not executed | AppRoutes.EmployeeOpensManagerDashboard | AppRoutes.IntendedEnforcesRole |

# Requisition tracker — a Dafny model

This project models the core of an office requisition tracker. Employees
draft requests for assets, each with items, costs and justifications.
Managers approve or reject them. Admins process the approved ones.

The server side is modelled as two stores:
- A keyed store of requisition documents. It supports list (with an
  optional `createdBy` filter), add, get, a nine-field overwrite update and
  delete, and every save is checked against the document schema.
- A user store. It supports list and add under the user schema, plus a
  login decision.

The client side is modelled as the rules its pages and components apply:
- form validation and the total-cost sum;
- role visibility, search and status filters;
- dashboard counts and queues;
- the approve/reject form state machine;
- notification read flags;
- user list edits;
- navigation filtering and route gating;
- status labels and colours, and `truncate`.

Things the source changes in place are classes. These are the two stores,
the item field array, the dashboards' lists, the modal's flags, the
notification list, the user list and the layout toggles. Their methods are
specified by the pure functions beside them. Everything else is functions
and lemmas.

Three behaviours of the code as written are proved rather than assumed:
- There is no status transition guard.
  `RequisitionRoutes.NoTransitionGuard` shows that any enumeration status
  can replace any other, `completed` included.
- A new requisition is always a `draft`, but the approval queue keeps only
  `pending` ones. Nothing in the code moves a draft to `pending`, so a new
  requisition never reaches the queue (`ApprovalDashboard.NewRequisitionNeverQueued`).
- The approval dashboard's approve and reject bodies carry only three
  fields. The update route assigns all nine fields from the body, so
  title, description and total become absent, and the save fails
  (`ApprovalDashboard.ApproveBodyRefused`, `ApprovalDashboard.RejectBodyRefused`,
  `ApprovalDashboard.SendDecision`).

The add route stores the caller's `totalCost` as sent
(`RequisitionRoutes.AddAcceptsAnyTotal`). Only the form computes it from the
items (`RequisitionForm.SubmittedFormStored`).

Identity is one type, `Id`, for requisitions, users, items and
notifications. The code mixes `id` and `_id`. Costs are integers, read as
cents. Times are integers supplied by the caller.

## Model

| member | source | states |
|---|---|---|
| Types.ParseStatus | src/types/index.ts:36-42 | a name parses to a status exactly when it is one of the six enumeration names, and parsing gives back the status with that name |
| Types.StatusNameRoundTrip | src/types/index.ts:36-42 | every status's name parses back to that status |
| Types.StatusNameInjective | src/types/index.ts:36-42 | different statuses have different names |
| Types.ParseRole | src/types/index.ts:5 | a name parses to a role exactly when it is user, manager or admin |
| Types.RoleNameRoundTrip | src/types/index.ts:5 | every role's name parses back to that role |
| Types.LineTotal | src/components/requisition/RequisitionModal.tsx:139 | a line with quantity at least 1 and non-negative unit cost costs at least the unit cost; a zero quantity or cost gives 0 |
| Text.Lower | src/lib/utils.ts:59 | lower-casing keeps the length |
| Text.LowerIdempotent | src/lib/utils.ts:59 | lower-casing twice is lower-casing once |
| Text.TrimStart | server/models/user.model.js:10 | the result is a suffix of the input, what was removed is all white space, and the result starts with a non-space character or is empty |
| Text.TrimEnd | server/models/user.model.js:10 | the result is a prefix of the input, what was removed is all white space, and the result ends with a non-space character or is empty |
| Text.TrimEmptyIffAllSpace | src/components/requisition/RequisitionModal.tsx:258 | trimming gives the empty string exactly when every character is white space |
| Text.TrimIdempotent | server/models/user.model.js:22 | trimming twice is trimming once |
| Text.ContainsEmpty | src/pages/RequisitionList.tsx:54 | the empty string occurs in every string |
| Seqs.Filter | src/pages/RequisitionList.tsx:36 | the result is no longer than the input, holds exactly the input elements that pass, and every element passes |
| Seqs.FilterIsSubsequence | src/pages/RequisitionList.tsx:48-64 | a filter's result is an order-preserving subsequence of its input |
| Seqs.SubsequenceReflexive | src/pages/RequisitionList.tsx:39 | a list is a subsequence of itself (the copy the page makes) |
| Seqs.SubsequenceTransitive | src/pages/RequisitionList.tsx:48-64 | a subsequence of a subsequence is a subsequence |
| Seqs.FilterAppend | src/components/user/UserManagementModal.tsx:30 | filtering a concatenation filters each part |
| Seqs.FilterKeepsAll | src/pages/ApprovalDashboard.tsx:47 | when every element passes, the filter returns its input |
| Seqs.FilterDropsAll | src/components/user/UserManagementModal.tsx:37 | when no element passes, the filter returns the empty list |
| Seqs.FilterIdempotent | src/pages/RequisitionList.tsx:61 | filtering twice by the same test is filtering once |
| Seqs.FilterCommutes | src/pages/RequisitionList.tsx:51-62 | two filters applied in either order give the same list |
| Seqs.Count | src/pages/Dashboard.tsx:43 | a count is at most the list length |
| Seqs.CountSplits | src/pages/Dashboard.tsx:42-47 | the elements passing a test and those failing it together number the list length |
| Seqs.SumOfAppend | src/pages/RequisitionForm.tsx:50 | the sum over a concatenation is the sum of the two sums |
| Seqs.SumOfSplits | src/pages/AdminDashboard.tsx:48 | the sum over the kept part plus the sum over the dropped part is the whole sum |
| RequisitionSchema.WithDefaultStatus | server/models/requisition.model.js:22 | a missing status becomes `draft`; a supplied one is kept |
| RequisitionSchema.ItemNumbersUnbounded | server/models/requisition.model.js:5-11 | an item is valid exactly when its five fields are present, and a valid item stays valid with negative quantity and cost |
| RequisitionSchema.ValidRequisitionHasRequiredFields | server/models/requisition.model.js:14-24 | a saved requisition has title, description, total, creator and a status from the enumeration |
| RequisitionSchema.EmptyItemsAccepted | server/models/requisition.model.js:16 | replacing the items with an empty list keeps a requisition valid |
| RequisitionSchema.AuditFieldsUnconstrained | server/models/requisition.model.js:25-28 | any values of approver, rejecter, reason and notes keep a requisition valid, whatever its status |
| RequisitionRoutes.NewRecord | server/routes/requisitions.js:18-27 | title, description, items, total and creator are the body's; status `draft`, no audit fields, both timestamps at the save time |
| RequisitionRoutes.Overwrite | server/routes/requisitions.js:46-56 | the nine assigned fields take the body's values, an absent one becoming absent (so an update without approver or notes erases them); creator and creation time are kept and the update time is set |
| RequisitionRoutes.ResendWithStatus | server/routes/requisitions.js:50 | the body carries the requested status |
| RequisitionRoutes.RequisitionStore.constructor | server/models/requisition.model.js:33 | the store starts empty and valid |
| RequisitionRoutes.RequisitionStore.List | server/routes/requisitions.js:4-16 | with a `createdBy` value, exactly the records it created; without one, every record; values unchanged |
| RequisitionRoutes.RequisitionStore.Get | server/routes/requisitions.js:34-41 | the record under that id, or nothing when there is none |
| RequisitionRoutes.RequisitionStore.Add | server/routes/requisitions.js:18-32 | succeeds exactly when the new document validates; then it is stored under a fresh id, otherwise nothing changes |
| RequisitionRoutes.RequisitionStore.Update | server/routes/requisitions.js:43-61 | succeeds exactly when the id exists and the overwritten document validates; then that record alone is replaced, otherwise nothing changes |
| RequisitionRoutes.RequisitionStore.Delete | server/routes/requisitions.js:63-67 | removes that id and keeps every other record; an unknown id changes nothing and still succeeds |
| RequisitionRoutes.AddUsesFiveFields | server/routes/requisitions.js:19 | two bodies agreeing on title, description, items, total and creator produce the same document |
| RequisitionRoutes.AddAcceptsAnyTotal | server/routes/requisitions.js:25 | any total replacing a valid body's total is still accepted and is stored as sent |
| RequisitionRoutes.OverwriteUsesNineFields | server/routes/requisitions.js:46-54 | a `createdBy` in the update body has no effect |
| RequisitionRoutes.OverwriteAcceptedIff | server/routes/requisitions.js:46-56 | an overwrite validates exactly when the body has title, description, total, an enumeration status and valid items |
| RequisitionRoutes.MissingRequiredFieldRefused | server/routes/requisitions.js:46-58 | a body without title, description or total is refused |
| RequisitionRoutes.NoTransitionGuard | server/routes/requisitions.js:50 | from any saved document, resending its fields with any enumeration status is accepted and sets that status |
| RequisitionRoutes.ItemView | src/types/index.ts:27-34 | the client item carries the stored name, description, quantity, cost and justification, and takes its position as id |
| RequisitionRoutes.View | src/types/index.ts:9-25 | the client requisition carries the stored title, description, total, status, creator, timestamps, audit ids, reason and notes, and each stored item in order through `ItemView`; `approvedAt` and `rejectedAt` are absent |
| RequisitionRoutes.AddedRecordIsDraft | server/routes/requisitions.js:21-27 | whatever the body says, an added requisition reaches the client as a draft |
| UserSchema.TrimField | server/models/user.model.js:10 | a present value is replaced by its trimmed form; an absent one stays absent |
| UserSchema.NewUser | server/routes/users.js:11-23 | username, email and department are the body's values trimmed, the password is kept as sent, and the role is the one given or `user` |
| UserSchema.NewUserFieldsTrimmed | server/models/user.model.js:6-34 | username, email and department are stored already trimmed |
| UserSchema.ShortUsernameRefused | server/models/user.model.js:6-12 | a username shorter than three characters once trimmed is refused |
| UserSchema.BlankUsernameRefused | server/models/user.model.js:8-10 | a username of white space only trims to the empty string and is refused |
| UserSchema.DefaultRoleIsUser | server/models/user.model.js:24-29 | without a role in the body, a valid user has the `user` role |
| UserSchema.ValidUserHasRole | server/models/user.model.js:24-29 | a saved user's role is one of the three role names |
| UserRoutes.FindByEmail | server/routes/users.js:33 | finds the first user with that email, and finds nothing exactly when no user has it |
| UserRoutes.Login | server/routes/users.js:30-46 | "user not found" exactly when no user has the email; success only with the stored user whose email matches and whose password is equal |
| UserRoutes.LoginDecision | server/routes/users.js:35-43 | with unique emails, login succeeds exactly when a user has that email and password, and reports a password error exactly when the user with that email has another password |
| UserRoutes.UnknownEmailNeverPasswordError | server/routes/users.js:35-41 | an email no user has gives "user not found", never a password error |
| UserRoutes.UserStore.constructor | server/models/user.model.js:39 | the store starts empty and valid |
| UserRoutes.UserStore.List | server/routes/users.js:4-8 | returns every stored user |
| UserRoutes.UserStore.Add | server/routes/users.js:10-28 | saves the built user exactly when it validates and its username and email are new; uniqueness is kept |
| Utils.SliceEnd | src/lib/utils.ts:45 | a non-negative end within the string is kept, a negative one counts from the back, and the result never exceeds the length |
| Utils.Truncate | src/lib/utils.ts:43-46 | a string within the bound is returned as is; a longer one becomes its prefix up to JS `slice(0, maxLength)` followed by "..." (for a non-negative bound, the first `maxLength` characters, `maxLength + 3` long; a negative bound counts from the end) |
| Utils.TruncateIdempotent | src/lib/utils.ts:43-46 | with a non-negative bound, truncating twice is truncating once |
| Utils.TruncateNegativeBoundGrows | src/lib/utils.ts:45 | with a bound of -1 or -2, truncating again makes the string longer |
| Utils.StatusColorIgnoresCase | src/lib/utils.ts:59 | the colour of a lower-cased status equals the colour of the status |
| Utils.LowerOfStatusName | src/lib/utils.ts:60-71 | the six status names are already lower case |
| Utils.StatusColorsDistinct | src/lib/utils.ts:60-71 | the six statuses get six different classes |
| Utils.UnknownStatusIsNeutral | src/lib/utils.ts:72-73 | a value that is no status name gets the neutral class, the one `draft` gets |
| StatusBadge.Label | src/components/ui/StatusBadge.tsx:11-21 | a value outside the six is shown as it is, and `pending` is "Pending Approval" |
| StatusBadge.LabelOfStatus | src/components/ui/StatusBadge.tsx:13-18 | each status's label |
| StatusBadge.LabelsDistinct | src/components/ui/StatusBadge.tsx:13-18 | different statuses have different labels |
| StatusBadge.BadgeClass | src/components/ui/StatusBadge.tsx:24 | the class list is `status-badge` followed by the status colour |
| StatusBadge.BadgeClassDeterminesColor | src/components/ui/StatusBadge.tsx:9 | equal badge classes mean equal colours |
| RequisitionForm.ToItemDoc | src/pages/RequisitionForm.tsx:51-55 | the sent item carries the typed name, description, justification, quantity and cost unchanged, and passes the server's item rule exactly when its three strings are non-empty |
| RequisitionForm.Payload | src/pages/RequisitionForm.tsx:50-55 | the body carries the form's title, description and items, the item-sum total and the signed-in user as creator |
| RequisitionForm.TotalCostNonNegative | src/pages/RequisitionForm.tsx:16-17 | valid items give a non-negative total |
| RequisitionForm.AddBlankKeepsTotal | src/pages/RequisitionForm.tsx:66-68 | appending a blank row leaves the total unchanged |
| RequisitionForm.RemoveSubtractsLine | src/pages/RequisitionForm.tsx:144 | removing a row takes its line total off the total |
| RequisitionForm.BlankItemInvalid | src/pages/RequisitionForm.tsx:13-19 | a form still holding a blank row fails validation |
| RequisitionForm.SubmittedFormStored | src/pages/RequisitionForm.tsx:46-57 | a valid form sent by a signed-in user is accepted by the add route, stored as that user's draft with the item-sum total |
| RequisitionForm.AnonymousSubmissionRefused | src/pages/RequisitionForm.tsx:54 | without a signed-in user the add route refuses the payload |
| RequisitionForm.Submit | src/pages/RequisitionForm.tsx:46-64 | the request succeeds exactly when the form is valid and a user is signed in; then the payload's document is stored under a fresh id, otherwise nothing changes |
| RequisitionForm.ItemFields.constructor | src/pages/RequisitionForm.tsx:34-38 | the field array starts with exactly one blank row |
| RequisitionForm.ItemFields.AddItem | src/pages/RequisitionForm.tsx:66-68 | appends one blank row and keeps the total |
| RequisitionForm.ItemFields.ClickRemove | src/pages/RequisitionForm.tsx:141-149 | with more than one row, removes that row and subtracts its line total; otherwise nothing changes; never leaves the array empty |
| RequisitionList.Visible | src/pages/RequisitionList.tsx:34-40 | a `user` sees exactly what they created; other viewers see everything |
| RequisitionList.SearchFilter | src/pages/RequisitionList.tsx:51-57 | an empty query keeps everything; otherwise exactly the requisitions whose title or description contains the query, ignoring case |
| RequisitionList.StatusFilter | src/pages/RequisitionList.tsx:60-62 | `all` keeps everything; a status keeps exactly the requisitions with it |
| RequisitionList.EmptyQueryMatchesAll | src/pages/RequisitionList.tsx:51 | the empty query matches every requisition |
| RequisitionList.SearchIgnoresQueryCase | src/pages/RequisitionList.tsx:52 | a query and its lower-cased form match the same requisitions |
| RequisitionList.VisibleIsSubsequence | src/pages/RequisitionList.tsx:34-40 | the visible list is an order-preserving subsequence of all requisitions |
| RequisitionList.DisplayedIsSubsequence | src/pages/RequisitionList.tsx:48-64 | the displayed list is an order-preserving subsequence of the visible list |
| RequisitionList.FiltersCommute | src/pages/RequisitionList.tsx:51-62 | search then status equals status then search |
| RequisitionList.DisplayedMembership | src/pages/RequisitionList.tsx:46-65 | a requisition is displayed exactly when it is visible, matches the search and passes the status choice |
| Dashboard.StatusCount | src/pages/Dashboard.tsx:43-46 | a status count is at most the list length |
| Dashboard.StatusCountsPartition | src/pages/Dashboard.tsx:42-47 | the six per-status counts add up to the list length |
| Dashboard.ComputeStats | src/pages/Dashboard.tsx:42-47 | each figure is the count of its own status; together they are the list length minus the drafts and the processing ones, so at most the length |
| Dashboard.StatusCountPositive | src/pages/Dashboard.tsx:42-47 | a count is positive exactly when some requisition has that status |
| Dashboard.Recent | src/pages/Dashboard.tsx:132 | the first `min(5, n)` requisitions, in order |
| Dashboard.OwnCountsBounded | src/pages/Dashboard.tsx:20-23 | a `user`'s counts are those of their own requisitions and never exceed the counts over all |
| ApprovalDashboard.PendingQueue | src/pages/ApprovalDashboard.tsx:20-22 | exactly the fetched requisitions with status `pending`, as an order-preserving subsequence |
| ApprovalDashboard.UserId | src/pages/ApprovalDashboard.tsx:44 | the approver id is present exactly when a user is signed in |
| ApprovalDashboard.ApproveBody | src/pages/ApprovalDashboard.tsx:42-46 | status `approved`, the approver and the notes, and no other field |
| ApprovalDashboard.RejectBody | src/pages/ApprovalDashboard.tsx:57-61 | status `rejected`, the rejecter and the reason, and no other field |
| ApprovalDashboard.RemoveById | src/pages/ApprovalDashboard.tsx:47 | every entry with that id goes, the rest stay as an order-preserving subsequence |
| ApprovalDashboard.RemoveAbsentId | src/pages/ApprovalDashboard.tsx:62 | removing an id nobody has leaves the queue unchanged |
| ApprovalDashboard.ApproveBodyRefused | src/pages/ApprovalDashboard.tsx:42-46 | the update route refuses the approve body for every stored requisition |
| ApprovalDashboard.RejectBodyRefused | src/pages/ApprovalDashboard.tsx:57-61 | the update route refuses the reject body for every stored requisition |
| ApprovalDashboard.NewRequisitionNeverQueued | src/pages/ApprovalDashboard.tsx:20-22 | a requisition just added is in no pending queue, whatever list was fetched |
| ApprovalDashboard.ApprovalDashboard.constructor | src/pages/ApprovalDashboard.tsx:16-30 | the page holds the pending queue of what it fetched |
| ApprovalDashboard.ApprovalDashboard.HandleApprove | src/pages/ApprovalDashboard.tsx:40-53 | sends the approve body; an accepted request removes the entry, a refused one leaves the queue |
| ApprovalDashboard.ApprovalDashboard.HandleReject | src/pages/ApprovalDashboard.tsx:55-68 | sends the reject body; an accepted request removes the entry, a refused one leaves the queue |
| ApprovalDashboard.DecisionBody | src/pages/ApprovalDashboard.tsx:40-68 | approve and reject decisions send their respective bodies |
| ApprovalDashboard.SendDecision | src/pages/ApprovalDashboard.tsx:42-61 | the update route refuses either dashboard decision and leaves the store unchanged |
| AdminDashboard.ApprovedQueue | src/pages/AdminDashboard.tsx:20-22 | exactly the fetched requisitions with status `approved`, as an order-preserving subsequence |
| AdminDashboard.ApprovedFigureIsCount | src/pages/AdminDashboard.tsx:65 | the admin page's "Approved" figure equals the main dashboard's approved figure for the same list |
| AdminDashboard.RemoveSubtractsCosts | src/pages/AdminDashboard.tsx:40-48 | completing an id takes exactly the costs of its entries off the total value |
| AdminDashboard.SumNonNegative | src/pages/AdminDashboard.tsx:48 | non-negative costs give a non-negative total value |
| AdminDashboard.CompletingNeverRaisesTotal | src/pages/AdminDashboard.tsx:40-48 | with non-negative costs, completing never raises the total value |
| AdminDashboard.AdminDashboard.constructor | src/pages/AdminDashboard.tsx:16-30 | the page holds the approved queue of what it fetched |
| AdminDashboard.AdminDashboard.HandleCompleteProcessing | src/pages/AdminDashboard.tsx:40-45 | removes every entry with that id and lowers the total by their costs |
| RequisitionModal.RowTotal | src/components/requisition/RequisitionModal.tsx:139 | a row with quantity at least 1 and non-negative cost totals at least its unit cost |
| RequisitionModal.SectionsExclusive | src/components/requisition/RequisitionModal.tsx:152-191 | the approved panel, the rejected panel and the actions never show together; actions show exactly for a pending requisition with both callbacks |
| RequisitionModal.EnabledReasonNotBlank | src/components/requisition/RequisitionModal.tsx:258 | Confirm Rejection is enabled exactly when the reason has a non-space character |
| RequisitionModal.ApproveCall | src/components/requisition/RequisitionModal.tsx:27-32 | `onApprove` is called exactly when supplied, with the requisition's id and the notes |
| RequisitionModal.RejectCall | src/components/requisition/RequisitionModal.tsx:34-39 | `onReject` is called exactly when supplied, with the requisition's id and the reason |
| RequisitionModal.RequisitionModal.constructor | src/components/requisition/RequisitionModal.tsx:21-24 | empty notes and reason, both forms closed |
| RequisitionModal.RequisitionModal.ClickOpenApprove | src/components/requisition/RequisitionModal.tsx:194-206 | opens the approve form only while the openers are shown; at most one form is open |
| RequisitionModal.RequisitionModal.ClickOpenReject | src/components/requisition/RequisitionModal.tsx:194-201 | opens the reject form only while the openers are shown; at most one form is open |
| RequisitionModal.RequisitionModal.ClickCancelApprove | src/components/requisition/RequisitionModal.tsx:223 | clears the approve flag only |
| RequisitionModal.RequisitionModal.ClickCancelReject | src/components/requisition/RequisitionModal.tsx:250 | clears the reject flag only |
| RequisitionModal.RequisitionModal.EditNotes | src/components/requisition/RequisitionModal.tsx:211-219 | the notes change only while the approve form is open |
| RequisitionModal.RequisitionModal.EditReason | src/components/requisition/RequisitionModal.tsx:237-246 | the reason changes only while the reject form is open |
| RequisitionModal.RequisitionModal.HandleApprove | src/components/requisition/RequisitionModal.tsx:27-32 | makes the approve call when the callback is there, and closes in every case |
| RequisitionModal.RequisitionModal.HandleReject | src/components/requisition/RequisitionModal.tsx:34-39 | makes the reject call when the callback is there, and closes in every case |
| RequisitionModal.RequisitionModal.ClickConfirmApproval | src/components/requisition/RequisitionModal.tsx:227-232 | in the open approve form, approves with the current notes and closes; otherwise nothing happens |
| RequisitionModal.RequisitionModal.ClickConfirmRejection | src/components/requisition/RequisitionModal.tsx:254-261 | in the open reject form with a non-blank reason, rejects with that reason and closes; otherwise nothing happens |
| NotificationsMenu.MarkRead | src/components/NotificationsMenu.tsx:19-25 | length and every field but `read` kept; a notification is read afterwards exactly when it was read or has that id |
| NotificationsMenu.MarkAllRead | src/components/NotificationsMenu.tsx:27-31 | length and every field but `read` kept; every notification is read |
| NotificationsMenu.MarkReadIdempotent | src/components/NotificationsMenu.tsx:19-25 | marking one id twice is marking it once |
| NotificationsMenu.MarkAllReadIdempotent | src/components/NotificationsMenu.tsx:27-31 | marking all twice is marking all once |
| NotificationsMenu.MarkReadAbsentId | src/components/NotificationsMenu.tsx:22 | marking an id nobody has changes nothing |
| NotificationsMenu.MarkAllAbsorbsMarkOne | src/components/NotificationsMenu.tsx:19-31 | marking one before marking all makes no difference |
| NotificationsMenu.MarkReadHidesOnlyThatMarker | src/components/NotificationsMenu.tsx:69-85 | after marking an id, a notification shows its unread marker exactly when it did before and has another id |
| NotificationsMenu.NotificationsMenu.constructor | src/components/NotificationsMenu.tsx:14-17 | the menu holds the loaded notifications |
| NotificationsMenu.NotificationsMenu.MarkAsRead | src/components/NotificationsMenu.tsx:19-25 | the list becomes its marked-read version |
| NotificationsMenu.NotificationsMenu.MarkAllAsRead | src/components/NotificationsMenu.tsx:27-31 | the list becomes its all-read version and no unread marker remains |
| UserManagement.BuildUser | src/components/user/UserManagementModal.tsx:25-28 | the user carries the given id and the form's four fields |
| UserManagement.RemoveUser | src/components/user/UserManagementModal.tsx:35-38 | every user with that id goes, the rest stay as an order-preserving subsequence |
| UserManagement.DeleteUndoesAdd | src/components/user/UserManagementModal.tsx:21-38 | deleting a freshly added user whose id nobody else has restores the list |
| UserManagement.UserManagement.constructor | src/components/user/UserManagementModal.tsx:12-19 | the initial users, an empty form with role `user`, the form hidden |
| UserManagement.UserManagement.OpenAddForm | src/components/user/UserManagementModal.tsx:59 | shows the form and changes nothing else |
| UserManagement.UserManagement.EditForm | src/components/user/UserManagementModal.tsx:73-111 | while the form is shown, replaces the form fields only; otherwise nothing changes |
| UserManagement.UserManagement.ClickCancelAdd | src/components/user/UserManagementModal.tsx:119 | hides the form and keeps the list and the typed fields |
| UserManagement.UserManagement.HandleAddUser | src/components/user/UserManagementModal.tsx:21-33 | while the form is shown, appends exactly one user built from the form, resets the form to empty with role `user` and hides it; otherwise nothing changes |
| UserManagement.UserManagement.HandleDeleteUser | src/components/user/UserManagementModal.tsx:35-38 | the list loses every user with that id; the form is untouched |
| Layout.RoleKey | src/components/Layout.tsx:26 | no user gives the empty key; a user's key names their role |
| Layout.FilteredNavItems | src/components/Layout.tsx:25-27 | exactly the entries whose role list holds the key, as an order-preserving subsequence |
| Layout.NavForNoRole | src/components/Layout.tsx:26 | the empty key sees no entry |
| Layout.NavForUser | src/components/Layout.tsx:16-22 | `user` sees the first three entries |
| Layout.NavForManager | src/components/Layout.tsx:16-22 | `manager` sees the first four |
| Layout.NavForAdmin | src/components/Layout.tsx:16-22 | `admin` sees all five |
| Layout.NavigationPerRole | src/components/Layout.tsx:16-27 | 0, 3, 4 or 5 entries for no user, a user, a manager and an admin |
| Layout.NavNames | src/components/Layout.tsx:16-22 | the five entries in declaration order |
| Layout.Layout.constructor | src/components/Layout.tsx:10-11 | sidebar and notifications closed |
| Layout.Layout.ToggleSidebar | src/components/Layout.tsx:13 | flips the sidebar flag only |
| Layout.Layout.ToggleNotifications | src/components/Layout.tsx:14 | flips the notifications flag only |
| Layout.Layout.CloseNotifications | src/components/Layout.tsx:121 | closes the notifications menu only |
| Layout.Layout.ToggleSidebarTwice | src/components/Layout.tsx:13 | toggling twice restores both flags |
| RoleBasedRoute.Gate | src/components/RoleBasedRoute.tsx:10-23 | loading shows the loading view; no user redirects; the children render exactly when loaded, signed in and the role is listed |
| RoleBasedRoute.LoadedNeverLoading | src/components/RoleBasedRoute.tsx:18-19 | once loaded the gate redirects exactly for a missing user or an unlisted role |
| RoleBasedRoute.GateMonotoneInRoles | src/components/RoleBasedRoute.tsx:18 | listing more roles never locks out a user who was let in |
| RoleBasedRoute.AllRolesAdmitsEveryone | src/components/RoleBasedRoute.tsx:18 | a route listing all three roles admits every signed-in user |

## Left out

- HTTP and the browser. Status codes, JSON encoding and URLs are left out, and so are redirects and navigation. Each request is reduced to success or failure plus the resulting data.
- Timers. The `setTimeout` message clearing is left out.
- Formatting and icons. `formatDate`, `formatCurrency`, `cn`, `delay`, icons and rendering are left out.
- Randomness. `generateId` and the random user id in the user management modal are left out. The model takes the new id as a parameter, so it does not capture two random ids colliding.
- Mongoose internals. `populate` name resolution and ObjectId cast errors are left out. So is the unique index's enforcement: the user store simply refuses a duplicate username or email.
- Floating point. Costs and quantities are unbounded integers (costs in cents), so IEEE rounding is not modelled.
- String length. Lengths and slices count Unicode scalar values, not UTF-16 code units. A character outside the Basic Multilingual Plane therefore counts once in `Utils.Truncate`, `Utils.SliceEnd`, the user schema's `minlength` checks and the form's minimum lengths, where the source counts it twice.
- Utils.Truncate: on a string holding characters outside the Basic Multilingual Plane, the length compared with `maxLength` and the cut position are counted in Unicode scalar values, while the source counts UTF-16 code units, so the two can differ on such strings.
- Text. Lower-casing is ASCII only. Trimming removes space, tab, line feed, carriage return, vertical tab, form feed, no-break space and the byte-order mark, not the rest of the Unicode white-space set.
- Timestamps. On insert `createdAt` and `updatedAt` are the caller-supplied `now`, and every successful update refreshes `updatedAt`. Mongoose may leave `updatedAt` as it was when an update changes no field.
- Authentication. The authentication context is not part of this model. The signed-in user and the loading flag are parameters, and passwords are compared as plain strings.
- Fixtures. The fixture data in `src/data/mockData.ts` is not part of this model. The list page and the notification and user menus take their initial lists as parameters.
- Presentation and fetch-only files. `App.tsx`, `Login.tsx`, `MyRequisitions.tsx`, `NotFound.tsx`, `Loading.tsx` and `RequisitionCard.tsx` are not part of this model.
- Concurrency. Overlapping requests and their update races are not modelled.
- Hard-coded figures. The constant "Processing" and "Completed" figures on the admin and approval dashboards are not modelled.
- Browser form validation. The `required` attributes on the user form's inputs are not modelled. `HandleAddUser` appends whatever the form holds.
- RequisitionRoutes.RequisitionStore.List: returns the matching records as a map from id to document, so the database's result order is not modelled.
- RequisitionRoutes.View: item subdocument ids are modelled as the items' positions. `approvedAt` and `rejectedAt` are never set by the server, so they are always absent.
- RequisitionRoutes.RequisitionStore.Get: an unknown id gives nothing (the route answers `null`). A malformed id that fails to cast is not modelled.
- UserRoutes.Login: the email is a string. A login body without an email, or one whose email would need trimming to match, is not modelled.
- ApprovalDashboard.ApprovalDashboard.HandleApprove: takes the update route's answer as the parameter `accepted`. `ApprovalDashboard.SendDecision` proves that answer is always a refusal.
- AdminDashboard.AdminDashboard.HandleCompleteProcessing: only changes the page's list, as the source does. Nothing reaches the server. No control on the page calls it (the requisition modal there gets no callbacks), so a user cannot reach it.

# Paginated list controller of the HR dashboard

This project models the state machine that four list screens of the HR-Harmony dashboard share:
training sessions, clients, the payroll list and the payslip history. Each screen holds its
`currentPage`, `per_page`, `total_count`, `searchQuery`, records and `isLoading` in React state,
fetches a page from the server whenever page, page size or search changes. The training, client
and payroll screens put a destructive or irreversible action (delete, or marking a payroll paid)
behind a confirm dialog, and the training and client screens stage new records in a draft form.

Modules:

- `Paging`: the page count `Math.ceil(total / perPage)`, the guard of `handlePageChange`, the
  "Showing X to Y of Z records" range and the three-way choice of table body.
- `Envelope`: the listing response as a JSON object, the per-screen member names
  (`data`/`pagination`, `PayrollInfo`/`Pagination`, `payroll_info_list`/`pagination`) and the
  falsy fallbacks `|| []`, `|| 0`, `|| 1`, `|| 10`.
- `ListController`: the list state as a value (`ListView`), one specification function per
  handler (`PageChanged`, `PerPageChanged`, `SearchEdited`, `FetchStarted`, `FetchCompleted`),
  and the class `ListState` whose methods update the fields step by step and are proved equal to
  those functions. Every listing request is appended to `issued` with the parameters it carries;
  its completion is a separate atomic event with outcome `Failed` or `Responded(response)`. The
  effect on `[currentPage, per_page, searchQuery]` fires exactly when one of the three changes
  value, and `ListView.Valid` keeps the invariant that the last request issued carries the
  current page, page size and search.
- `ConfirmGate`: the selected id and the dialog flag.
- `Training`, `Clients`, `Payroll`, `PayslipHistory`: one class per screen holding its
  `ListState` and whatever else the screen has (the training screen's draft form, edit modal and
  delete gate; the client screen's draft form and delete gate; the payroll screen's month and
  payment gate), with one method per handler. The
  outcome of each create, update, delete or payment call is a `succeeded` argument, and each
  method returns the request it sends.

The model follows the code where it departs from the general design of these screens:

- The page count of an empty list is 0, not 1, so with a total of 0 (or before the first
  response, when the total is `undefined`) every page change is rejected.
- Typing in the search box does not reset the page.
- A listing response that arrives late is adopted like any other. Nothing discards stale
  responses, and nothing rejects a second submit while the first is outstanding.
- Confirming a delete or a payment closes the dialog only on success. After a failure the dialog
  stays open.
- Cancelling closes the dialog and keeps the selected id.
- Training's save clears the loading flag and then refetches after both success and failure, so
  loading ends raised. Training's confirm-delete lowers loading after it starts its refetch.
  The client screen's save refetches only on success.
- No draft is validated before it is sent.
- The payroll and payslip screens never raise `isLoading` when they refetch.
- When the server answers with a page or page size other than the one requested, the answer is
  adopted. The change fires the effect again, so another request goes out.
- A response without a pagination block makes the fetch throw after the records are set. The
  records are adopted; total, page and page size keep their values.

## Model

| member | source | states |
|---|---|---|
| `Paging.PageCount` | src/Components/Payroll/PayslipHistory.jsx:20 | the page count covers the total (`c*s ≥ t`), is the least such (`(c-1)*s < t`), and is 0 exactly when the total is 0 |
| `Paging.IsPageSizeOption` | src/Components/Training/TrainingSessions.jsx:267-272 | every page size the selector offers is positive |
| `Paging.Accepts` | src/Components/Training/TrainingSessions.jsx:38 | a page is accepted iff the total is known, the page is positive and the page's first record exists (`(page-1)*perPage < total`) |
| `Paging.NoPageAcceptedWithoutRecords` | src/Components/Training/TrainingSessions.jsx:33-41 | with the total `undefined` or 0 the guard rejects every page |
| `Paging.PagerPagesAccepted` | src/Components/Payroll/PayslipHistory.jsx:122 | every page from 1 to the `totalPages` given to the pager passes the navigation guard |
| `Paging.Showing` | src/Components/Payroll/PayslipHistory.jsx:119 | the first number is at least 1, the last at most the total; when the first record exists, the range is non-empty and spans at most one page |
| `Paging.ShowingWithinTotal` | src/Components/Payroll/PayslipHistory.jsx:119 | on any page the guard accepts with a positive total, 1 ≤ X ≤ Y ≤ Z and the range spans at most one page |
| `Paging.ShowingLastPageEndsAtTotal` | src/Components/ManageClient/ClientList.jsx:253 | on the last page the range ends at the total |
| `Paging.ShowingEmptyList` | src/Components/Training/TrainingSessions.jsx:345 | with no records the text reads "Showing 1 to 0 of 0" |
| `Paging.TableBody` | src/Components/Payroll/PayslipHistory.jsx:84-114 | exactly one of loading row (iff loading), record rows (iff not loading and rows exist), "no data" row (iff not loading and no rows) |
| `Envelope.Or` | src/Components/Training/TrainingSessions.jsx:56-58 | a present non-zero member is adopted, a missing or zero one gives the fallback; a positive fallback gives a positive value |
| `Envelope.ItemsOf` | src/Components/Training/TrainingSessions.jsx:55 | the records under the key when present, otherwise the empty list |
| `Envelope.Read` | src/Components/ManageClient/ClientList.jsx:48-51 | records always adopted; pagination adopted iff the block exists, with fallbacks 0/1/10 and a positive page and page size |
| `Envelope.ServerValuesWin` | src/Components/Training/TrainingSessions.jsx:57-58 | whatever else the pagination block holds, a non-zero server page and page size are adopted unchanged |
| `Envelope.PayrollIgnoresLowerCaseLayout` | src/Components/Payroll/PayrollList.jsx:39-42 | the payroll list reads the capitalised members, so a `data`/`pagination` response gives no records and no pagination |
| `ListController.FetchStarted` | src/Components/Training/TrainingSessions.jsx:50-54 | a fetch appends a request with the current page, page size and search, raises loading only where the screen does, and changes nothing else |
| `ListController.Requery` | src/Components/Training/TrainingSessions.jsx:66-68 | a request with the current query is appended, and loading raised where the screen does, iff page, page size or search differ from the dependencies; nothing else changes |
| `ListController.Mounted` | src/Components/Training/TrainingSessions.jsx:29-35 | after mounting: page 1, 10 per page, empty search, total unknown, no records, one request `(1, 10, "")`, loading raised iff initially set or raised by the fetch |
| `ListController.PageChanged` | src/Components/Training/TrainingSessions.jsx:37-41 | an accepted page is taken; a rejected one leaves the whole state unchanged; nothing but page, requests and loading changes; a request goes out iff the page changed |
| `ListController.PerPageChanged` | src/Components/ManageClient/ClientList.jsx:36-39 | page becomes 1 and the page size the new one; nothing else changes; a request goes out iff page or size changed |
| `ListController.SearchEdited` | src/Components/Training/TrainingSessions.jsx:276 | only the search changes, page and page size are kept; a request goes out iff the text changed |
| `ListController.FetchCompleted` | src/Components/Training/TrainingSessions.jsx:50-68 | failure changes only loading (to false); a response's records are adopted; its pagination, when present, with fallbacks; the search is kept; a new request goes out, and loading is raised again, iff the server moved page or page size |
| `ListController.EchoedAnswerSettles` | src/Components/ManageClient/ClientList.jsx:43-59 | any response whose pagination block echoes the requested page and size issues no further request, keeps the query and ends loading; the records and the total are adopted |
| `ListController.NoPageChangeWithoutRecords` | src/Components/ManageClient/ClientList.jsx:30-34 | with the total unknown or zero a page change leaves the whole state unchanged |
| `ListController.PagerPageIsTaken` | src/Components/Payroll/PayrollList.jsx:22-26 | any other page the pager offers is taken and a request for it goes out |
| `ListController.Step` | src/Components/Training/TrainingSessions.jsx:37-68 | every user action on the list and every completion keeps the list valid and issues at most one request, never withdrawing one |
| `ListController.Replay` | src/Components/Training/TrainingSessions.jsx:37-68 | after any sequence of events the list is valid (positive page and size, last request carrying the current query), earlier requests are kept, and there are at most as many new requests as events |
| `ListController.PageStaysOneUntilFirstResponse` | src/Components/Training/TrainingSessions.jsx:33-46 | before any response the total stays unknown and the page stays 1, whatever the user does |
| `ListController.SearchOnlyFromTyping` | src/Components/Payroll/PayrollList.jsx:17-51 | in a session without typing the search is what it was: page changes, size changes and responses never alter it |
| `ListController.ListState.constructor` | src/Components/Payroll/PayslipHistory.jsx:13-17 | the state fields hold the mounted state |
| `ListController.ListState.BeginFetch` | src/Components/ManageClient/ClientList.jsx:43-47 | the fields become `FetchStarted` of the old state |
| `ListController.ListState.RunEffect` | src/Components/Payroll/PayrollList.jsx:49-51 | a fetch is started iff page, page size or search differ from the given dependencies |
| `ListController.ListState.SetPage` | src/Components/Payroll/PayslipHistory.jsx:19-23 | the fields become `PageChanged` of the old state |
| `ListController.ListState.SetPerPage` | src/Components/Payroll/PayslipHistory.jsx:25-28 | the fields become `PerPageChanged` of the old state |
| `ListController.ListState.SetSearch` | src/Components/Payroll/PayrollList.jsx:107 | the fields become `SearchEdited` of the old state |
| `ListController.ListState.CompleteFetch` | src/Components/Payroll/PayslipHistory.jsx:32-49 | the fields become `FetchCompleted` of the old state |
| `ListController.ListState.SetLoading` | src/Components/Training/TrainingSessions.jsx:152 | only the loading flag changes |
| `ConfirmGate.Gate.Request` | src/Components/Training/TrainingSessions.jsx:138-141 | the dialog is open on the given id |
| `ConfirmGate.Gate.Close` | src/Components/Training/TrainingSessions.jsx:487 | the dialog is closed and the stored id kept |
| `ConfirmGate.LaterRequestWins` | src/Components/ManageClient/ClientList.jsx:80-83 | a second request before confirm or cancel replaces the stored id |
| `ConfirmGate.CancelKeepsTarget` | src/Components/Payroll/PayrollList.jsx:75-77 | cancelling after a request leaves that id stored |
| `Training.NewTrainingOf` | src/Components/Training/TrainingSessions.jsx:118-126 | the create request carries the dates and description as typed and the four id and cost fields as `parseInt` of the typed text |
| `Training.NewTrainingIgnoresStatus` | src/Components/Training/TrainingSessions.jsx:118-126 | drafts differing at most in status give the same request (the status is never sent); drafts giving the same request agree on the dates and description, which are sent verbatim |
| `Training.UpdatedTrainingOf` | src/Components/Training/TrainingSessions.jsx:158-164 | the update request is the edited record with trainer, skill, employee and cost re-parsed |
| `Training.WithField` | src/Components/Training/TrainingSessions.jsx:370-426 | an edit sets the chosen field, keeps every other field, the id and the status |
| `Training.BadgeTone` | src/Components/Training/TrainingSessions.jsx:329-333 | the badge is green iff the status is "Started" |
| `Training.TrainingScreen.constructor` | src/Components/Training/TrainingSessions.jsx:14-35 | the mounted list, hidden empty form, closed gate, no edit |
| `Training.TrainingScreen.AddNew` | src/Components/Training/TrainingSessions.jsx:96-98 | the add form is shown |
| `Training.TrainingScreen.HideForm` | src/Components/Training/TrainingSessions.jsx:184 | the add form is hidden |
| `Training.TrainingScreen.EditDraft` | src/Components/Training/TrainingSessions.jsx:193-249 | only the draft changes; it takes the seven input values and its status stays `''`, since the form has no status input |
| `Training.TrainingScreen.Reset` | src/Components/Training/TrainingSessions.jsx:100-110 | all eight draft fields are empty and the form hidden; nothing else changes |
| `Training.TrainingScreen.Save` | src/Components/Training/TrainingSessions.jsx:116-136 | sends the old draft's request; resets the draft only on success; refetches with the current query in both outcomes, leaving loading raised |
| `Training.TrainingScreen.DeleteClick` | src/Components/Training/TrainingSessions.jsx:138-141 | the gate opens on the id |
| `Training.TrainingScreen.CancelDelete` | src/Components/Training/TrainingSessions.jsx:487 | the gate closes, the id stays |
| `Training.TrainingScreen.ConfirmDelete` | src/Components/Training/TrainingSessions.jsx:143-153 | deletes the stored id; on success refetches and closes the gate; on failure the gate stays open and the list is unchanged; loading ends false either way |
| `Training.TrainingScreen.EditClick` | src/Components/Training/TrainingSessions.jsx:91-94 | the record is being edited and the modal open |
| `Training.TrainingScreen.EditField` | src/Components/Training/TrainingSessions.jsx:370-426 | the edited record gets the new field value |
| `Training.TrainingScreen.CloseEdit` | src/Components/Training/TrainingSessions.jsx:429 | the modal closes, the edits stay |
| `Training.TrainingScreen.UpdateSubmit` | src/Components/Training/TrainingSessions.jsx:155-176 | nothing happens without an edited record; otherwise the record is sent, and on success the modal closes and the list is refetched, on failure the modal stays open and the list unchanged |
| `Clients.NewClientOf` | src/Components/ManageClient/ClientList.jsx:96-104 | each of the seven request members holds the draft field of the same name |
| `Clients.NewClientCarriesDraft` | src/Components/ManageClient/ClientList.jsx:96-104 | the create request and the seven-field draft convert into each other without loss |
| `Clients.StatusLabel` | src/Components/ManageClient/ClientList.jsx:239-243 | "Active" iff active, otherwise "Inactive" |
| `Clients.ClientScreen.constructor` | src/Components/ManageClient/ClientList.jsx:12-28 | the mounted list (loading raised), hidden empty form, closed gate |
| `Clients.ClientScreen.AddNew` | src/Components/ManageClient/ClientList.jsx:61-63 | the add form is shown |
| `Clients.ClientScreen.HideForm` | src/Components/ManageClient/ClientList.jsx:125 | the add form is hidden |
| `Clients.ClientScreen.EditDraft` | src/Components/ManageClient/ClientList.jsx:130-170 | only the draft changes |
| `Clients.ClientScreen.Reset` | src/Components/ManageClient/ClientList.jsx:65-74 | all seven draft fields are empty and the form hidden |
| `Clients.ClientScreen.Save` | src/Components/ManageClient/ClientList.jsx:95-114 | sends exactly the old draft; on success resets, hides and refetches; on failure nothing changes |
| `Clients.ClientScreen.DeleteClick` | src/Components/ManageClient/ClientList.jsx:80-83 | the gate opens on the id |
| `Clients.ClientScreen.CancelDelete` | src/Components/ManageClient/ClientList.jsx:316 | the gate closes, the id stays |
| `Clients.ClientScreen.ConfirmDelete` | src/Components/ManageClient/ClientList.jsx:85-93 | deletes the stored id; on success closes the gate and refetches; on failure nothing changes |
| `Payroll.StatusRequestBody` | src/Apis/APIPayroll.js:28-41 | the body has the single member `paid_status`, holding the argument as given |
| `Payroll.ConfirmationBodyIsNested` | src/Apis/APIPayroll.js:30 | the body sent on confirmation is `{paid_status: {paid_status: true}}`, whose `paid_status` is not the boolean `true` |
| `Payroll.PaidLabel` | src/Components/Payroll/PayrollList.jsx:146-150 | "Paid" iff paid, otherwise "Unpaid" |
| `Payroll.PayrollScreen.constructor` | src/Components/Payroll/PayrollList.jsx:11-20 | the mounted list, month `'2024-03'`, closed gate |
| `Payroll.PayrollScreen.MonthChange` | src/Components/Payroll/PayrollList.jsx:66-68 | only the month changes; the list and its requests are untouched (no element of the screen calls the handler) |
| `Payroll.PayrollScreen.OpenPaymentModal` | src/Components/Payroll/PayrollList.jsx:70-73 | the gate opens on the id |
| `Payroll.PayrollScreen.ClosePaymentModal` | src/Components/Payroll/PayrollList.jsx:75-77 | the gate closes, the id stays |
| `Payroll.PayrollScreen.ConfirmPayment` | src/Components/Payroll/PayrollList.jsx:79-86 | marks the stored id paid with the nested body; on success closes the gate and refetches without raising loading; on failure nothing changes |
| `PayslipHistory.PayslipScreen.constructor` | src/Components/Payroll/PayslipHistory.jsx:12-17 | the mounted list, loading raised |
| `PayslipHistory.PayslipScreen.TotalPages` | src/Components/Payroll/PayslipHistory.jsx:123 | known iff the total is; then it is `ceil(total/perPage)`, and a page lies in 1..totalPages iff the navigation guard accepts it |
| `PayslipHistory.PayslipScreen.ShowingText` | src/Components/Payroll/PayslipHistory.jsx:119 | known iff the total is; then it is the range for the current page, page size and total, and on an accepted page with records 1 ≤ X ≤ Y ≤ Z |
| `PayslipHistory.PayslipScreen.Body` | src/Components/Payroll/PayslipHistory.jsx:84-114 | the loading row iff loading, the "no data" row iff not loading and no visible rows |

## Left out

- HTTP, authentication headers and toasts: every call to the server is an outcome given to a method. The `APITraining`, `APIClients` and `APIEmployees` helpers are not part of this model.
- Overlapping requests: each completion is one atomic transition applied to the state at that moment. This assumes that the setters after an `await` commit in one render, as React 18's automatic batching does under `createRoot`; no React version is fixed by the files modelled. Under the legacy `ReactDOM.render` root each setter renders alone, and a response that moves both page and page size could fire the effect once for each, so `Step`'s "at most one request" rests on this assumption. Handlers that read stale closure values after an `await` are not modelled.
- `getPaginatedData` (src/Components/Pagination/Pagination.jsx) is not part of this model. The rows it selects are passed to `PayslipScreen.Body` as they are, with no slice semantics assumed.
- The `Pagination` component itself: the model states only which pages its `totalPages` covers.
- `parseInt` is kept symbolic as `ParseInt(text)`. NaN and partial parses are not modelled.
- Dates and locale formatting of the table cells.
- The "Showing" text and `totalPages` before the first response, when JavaScript computes with `undefined` and displays NaN: `ShowingText` and `TotalPages` are `None` then.
- Routing, navigation to detail pages, styling, dialog animation, the rich-text editor and hover state.
- The unpaginated dropdown loads (trainers, skills, employees). In the training screen that load also sets `isLoading` while it runs, and this interplay with the list's loading flag is left out.
- A response member of the wrong JSON type is read as absent, which differs from JavaScript in two cases. An array under the pagination key keeps total, page and page size, where JavaScript reads `[].total_count` as `undefined` and adopts 0, 1 and 10. An object under the records key gives `[]`, where `response.data || []` adopts the object.
- Numeric pagination members are naturals: string, negative and fractional numbers are not represented.
- Records keep only the members the core reads or sends. A training record's display-only members travel in the update request through the spread, and are left out.
- Training.TrainingScreen.EditDraft: the seven per-input `onChange` setters are taken together as one replacement of the draft; the draft's status has no input and stays `''`.
- Clients.ClientScreen.EditDraft: the seven per-input `onChange` setters are taken together as one replacement of the draft.

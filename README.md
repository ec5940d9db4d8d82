# Fleet scheduling: a verified model of the job workflow

This project models the core of a small fleet-management application in
Dafny. Dispatchers schedule transport jobs: each job has a client, a pickup
date and time, pickup and drop-off locations, a status (SCHEDULED,
IN_PROGRESS, COMPLETED or CANCELLED) and optionally a driver and a vehicle.
The model covers these parts:

- **The server's job repository** (`job_model.dfy`). This is a store of four
  tables: jobs, clients, drivers and vehicles. Creating a job finds or creates
  the client by name and inserts the job as SCHEDULED, with no driver and no
  vehicle. Both steps run in one transaction, so either everything is stored or
  nothing is. The queries attach each job's client, driver and vehicle and sort
  their results the way the database's `orderBy` does. Updates change one
  column of one job. `clear` deletes all jobs, then all clients.
- **The server's request handlers** (`job_controller.dfy`). POST /api/jobs
  answers 400 when the client name or the pickup date is missing or empty, 201
  with the created job, or 500 when creation fails. GET /api/jobs?date=…
  answers 400 unless `date` is one non-empty string, then 200 or 500. GET
  /api/jobs/all answers 200 or 500. The 500 message for the date query is
  "Internal serve error", spelt as in the code. The handlers are also wired to
  the store, and a scenario shows a job being created and then listed.
- **The client's mock service** (`mock_fleet_service.dfy`). This is an
  in-memory job list seeded with two jobs for 2025-10-09, plus an id counter
  that starts at 3. A new job takes the counter's value as its id. The
  incremented counter becomes the id of a new client.
- **The client's fleet service** (`fleet_service.dfy`). Every call first
  sends a health probe to `/health` under the client's API base path. It then
  goes to the server when the probe answers ok, and to the mock otherwise. That
  probe path is not the one the server serves (see "## Findings").
- **The "Schedule New Job" form and its older copy** (`job_form.dfy`,
  `legacy_job_form.dfy`). These cover field updates, validity, the submit
  button, and the loading, error and success transitions of a submission. The
  older copy names its pickup field `pickupLocations`. Suppose its fleet
  service posts the form unchanged to POST /api/jobs. Then the server never
  receives a `pickupLocation` from it. `LegacyJobForm.SubmitToServer` proves
  that, under that assumption, the server answers 500 to every form the
  button lets through.
- **The job detail dialog** (`job_detail_modal.dfy`). This covers the colour
  and label of a status, which status buttons can be pressed, and the status
  update request. The dialog sends the update to
  `http://localhost:5000/api/jobs/<id>/status`, which no server route serves.
  It never checks the response's `ok` flag. So any response, including that
  404, refreshes the dashboard and notifies the parent. The model keeps this
  behaviour: only a rejected fetch shows "Failed to update job status".

Shared records are in `fleet_types.dfy`. The generic filter, the lexicographic
string order and the insertion sort behind the queries are in
`collections.dfy`.

Inputs from outside the program become parameters:
- the health probe's outcome and the server's replies, for the client;
- the step at which the database fails (`fault`), for the store;
- the outcome of the awaited call, for the forms and the dialog.

## Model

| member | source | states |
|---|---|---|
| FleetTypes.ParseStatus | server/src/types/fleets.ts:39 | a string read as a status is exactly that status's wire spelling |
| FleetTypes.ParseStatusCode | server/src/types/fleets.ts:39 | each of the four statuses reads back from its own spelling |
| Collections.Filter | client/src/services/mockFleetService.ts:120 | the result holds exactly the elements satisfying the predicate, each as often as in the input, and is no longer than it |
| Collections.FilterAppend | client/src/services/mockFleetService.ts:113-120 | filtering a concatenation is the concatenation of the filtered parts, so list order is kept |
| Collections.StrLeTransitive | server/src/models/JobModel.ts:48 | the string order used by `orderBy` is transitive (totality and antisymmetry are proved beside it) |
| Collections.SortBy | server/src/models/JobModel.ts:48 | sorting returns a permutation of its input |
| Collections.SortBySorted | server/src/models/JobModel.ts:48 | for a total preorder the sorted result is ordered between every pair of positions |
| MockFleetService.JobsOnDate | client/src/services/mockFleetService.ts:120 | a job is listed for a date iff it is in the list with that pickup date, with its multiplicity |
| MockFleetService.JobsOnDateAppend | client/src/services/mockFleetService.ts:113-120 | pushing a job appends it to its own date's listing and leaves every other date's listing unchanged |
| MockFleetService.AppendKeepsIdsIncreasing | client/src/services/mockFleetService.ts:85-92 | ids taken from the counter keep strictly increasing along the list and stay below the counter |
| MockFleetService.IdsDistinct | client/src/services/mockFleetService.ts:85-92 | two different positions of the mock list never share an id |
| MockFleetService.AppendKeepsClientKeysAtMost | client/src/services/mockFleetService.ts:92-99 | a job whose client key is one above the counter keeps every client key at most the new counter, and its key is above every earlier job's |
| MockFleetService.MockFleetService.constructor | client/src/services/mockFleetService.ts:4-85 | the two seeded SCHEDULED jobs of 2025-10-09 with ids 1 and 2, and the counter at 3 |
| MockFleetService.MockFleetService.CreateJob | client/src/services/mockFleetService.ts:88-115 | appends one SCHEDULED job without driver or vehicle, with id the old counter, client id the new counter, request fields copied, and extends that date's listing by exactly this job; its client key is above every earlier job's, so no client is reused |
| MockFleetService.MockFleetService.GetJobsByDate | client/src/services/mockFleetService.ts:117-121 | exactly the stored jobs with that pickup date, with multiplicities |
| MockFleetService.MockFleetService.GetDailySchedule | client/src/services/mockFleetService.ts:123-129 | the schedule carries the requested date and exactly the list `GetJobsByDate` gives for it, order and repeats included |
| JobModel.Find | server/src/models/JobModel.ts:10-12 | the lookup returns a matching record of the table, and nothing only when none matches |
| JobModel.IndexOfJob | server/src/models/JobModel.ts:78-79 | the position of the job with that key, and none exactly when no job has it |
| JobModel.ByKeyTotalPreorder | server/src/models/JobModel.ts:48 | ordering by one string column is total and transitive |
| JobModel.ByDateDescThenTimeTotalPreorder | server/src/models/JobModel.ts:60 | pickup date descending then pickup time ascending is total and transitive |
| JobModel.Attach | server/src/models/JobModel.ts:28-32 | given keys that resolve, the job carries its row's columns and the client its key names; a driver or vehicle is attached exactly when the row names one, and it is the one named |
| JobModel.AttachAll | server/src/models/JobModel.ts:43-47 | every row is returned, in order, with its client and with its driver and vehicle exactly when it names them |
| JobModel.FindOrCreateClient | server/src/models/JobModel.ts:10-18 | an existing client of that name is reused with the table unchanged; otherwise one new client under the next key is appended |
| JobModel.FindOrCreateReuses | server/src/models/JobModel.ts:10-18 | a second find-or-create with the same name returns the same client and adds nothing |
| JobModel.JobStore.Joined | server/src/models/JobModel.ts:43-47 | every stored row in table order, with its client, and with its driver and vehicle exactly when it names them |
| JobModel.JobStore.Create | server/src/models/JobModel.ts:6-37 | succeeds iff name and all four job columns are present and the database does not fail; on success one row with a fresh key is appended, as SCHEDULED with no driver or vehicle, for the reused or newly created client; on failure no table changes |
| JobModel.JobStore.UpdateStatus | server/src/models/JobModel.ts:77-87 | fails with record-not-found iff no job has the key; otherwise only that job's status changes, to any status |
| JobModel.JobStore.AssignDriver | server/src/models/JobModel.ts:90-100 | fails when the job or the driver does not exist; otherwise only that job's driver key changes and the driver is attached |
| JobModel.JobStore.AssignVehicle | server/src/models/JobModel.ts:103-113 | fails when the job or the vehicle does not exist; otherwise only that job's vehicle key changes and the vehicle is attached |
| JobModel.JobStore.Clear | server/src/models/JobModel.ts:139-142 | deletes all jobs then all clients; a failure of the second deletion leaves the jobs deleted and the clients in place |
| JobModel.JobStore.FindByDate | server/src/models/JobModel.ts:40-50 | exactly the jobs of that date with multiplicities, by pickup time ascending, each with its related records |
| JobModel.JobStore.FindAll | server/src/models/JobModel.ts:53-62 | a permutation of all jobs, by pickup date descending and within a date by pickup time ascending |
| JobModel.JobStore.FindById | server/src/models/JobModel.ts:65-74 | none iff no job has the key; otherwise that job with its client, and with its driver and vehicle exactly when it names them |
| JobModel.JobStore.GetDrivers | server/src/models/JobModel.ts:116-121 | exactly the active drivers, by name ascending |
| JobModel.JobStore.GetVehicles | server/src/models/JobModel.ts:124-129 | exactly the active vehicles, by make ascending |
| JobModel.JobStore.GetClients | server/src/models/JobModel.ts:132-136 | a permutation of all clients, by name ascending |
| JobModel.JobsOnDateByTime | server/src/models/JobModel.ts:40-50 | the jobs of a date with multiplicities, ordered by pickup time |
| JobModel.JoinedKeys | server/src/models/JobModel.ts:65-74 | a key occurs among the joined jobs iff it occurs among the stored rows |
| JobModel.CreateKeepsValid | server/src/models/JobModel.ts:8-36 | committing the transaction keeps keys unique, client names unique and every foreign key resolvable |
| JobModel.SingleRowChange | server/src/models/JobModel.ts:77-113 | rewriting one row under its own key changes that row only and keeps keys unique |
| JobController.CreateJob | server/src/controllers/jobController.ts:9-25 | 400 iff name or date is missing or empty; 201 with the job iff valid and creation succeeds; 500 iff valid and creation fails; the fixed messages |
| JobController.RejectedCreateIgnoresStore | server/src/controllers/jobController.ts:14-18 | a rejected request gets the same answer whatever the store would do |
| JobController.UncheckedFieldsReachStore | server/src/controllers/jobController.ts:14-20 | time and locations are not checked: with name and date given the request is never answered 400 |
| JobController.GetJobsByDate | server/src/controllers/jobController.ts:30-45 | 400 unless the date is one non-empty string; 200 with the store's jobs of that date; 500 with "Internal serve error" iff the query fails |
| JobController.GetAllJobs | server/src/controllers/jobController.ts:48-55 | 200 with all jobs iff the query succeeds, else 500 |
| JobController.ServeCreateJob | server/src/controllers/jobController.ts:9-25 | a 400 leaves the store untouched; a 500 changes no job or client; a 201 appends exactly the returned SCHEDULED job; a valid request with all fields and no fault is answered 201 |
| JobController.ServeJobsByDate | server/src/controllers/jobController.ts:30-45 | 200 with the store's listing of the date, or 400 for a missing date |
| JobController.CreateThenListScenario | server/src/controllers/jobController.ts:9-45 | on an empty store a created job is SCHEDULED and is the whole listing of its date |
| FleetService.IsBackendAvailable | client/src/services/fleetService.ts:8-22 | available iff the probe answered with ok; a thrown probe means unavailable |
| FleetService.RealCreateJob | client/src/services/fleetService.ts:25-39 | the returned job iff the reply is ok; "Failed to create job" for a non-ok reply; the fetch error's message when it rejects |
| FleetService.RealGetJobsByDate | client/src/services/fleetService.ts:41-49 | the returned jobs iff the reply is ok; "Failed to fetch jobs" for a non-ok reply; the fetch error's message when it rejects |
| FleetService.RealGetDailySchedule | client/src/services/fleetService.ts:51-57 | the server's jobs paired with the requested date, or the same error |
| FleetService.CreateJob | client/src/services/fleetService.ts:62-68 | with the server available, the server's result and the mock untouched; otherwise the call never fails and the mock appends a SCHEDULED job with the old counter as id, client id one above it, the request's fields, no driver or vehicle, at the end of its date's listing |
| FleetService.GetJobsByDate | client/src/services/fleetService.ts:70-76 | with the server available, the server's result; otherwise exactly the mock's `GetJobsByDate` list for that date, and never a failure |
| FleetService.GetDailySchedule | client/src/services/fleetService.ts:78-84 | with the server available, exactly the server's schedule, error message included; otherwise exactly the mock's schedule of the date; it succeeds iff the listing does, with the same jobs |
| FleetService.DegradedWriteNotReconciled | client/src/services/fleetService.ts:60-76 | a job created while the server is unreachable is appended to the mock only; the server's store is unchanged, so its GET /api/jobs?date=… answer for that date is the same after the write as before |
| FleetService.ProbeAsWrittenNeverSucceeds | client/src/services/fleetService.ts:5-10 | for any base path under which the job routes are served, the health probe is not served, so the server never counts as available |
| FleetService.ProbeOfServedHealthTracksServer | server/src/index.ts:20-23 | probing the served health check, availability equals the server being up |
| FleetService.GetJobsByDateProbed | client/src/services/fleetService.ts:70-76 | with the probe sent to the served health check, the listing comes from the server exactly when it is up |
| JobForm.Set | client/src/pages/Schedule/JobForm.tsx:22-26 | the named field gets the new value and the other four are kept |
| JobForm.IsFormValidEveryField | client/src/pages/Schedule/JobForm.tsx:58-62 | the form is valid iff every one of the five fields is non-empty |
| JobForm.BodyOf | client/src/pages/Schedule/JobForm.tsx:37 | the request carries all five fields |
| JobForm.EnabledSubmitPassesServerCheck | client/src/pages/Schedule/JobForm.tsx:180 | anything the enabled button submits passes the server's 400 check |
| JobForm.ErrorMessage | client/src/pages/Schedule/JobForm.tsx:52 | an Error's own message, otherwise "Failed to create job" |
| JobForm.CompletionOf | client/src/pages/Schedule/JobForm.tsx:36-52 | the call returns iff the service succeeded; a service failure is thrown as an Error with its message |
| JobForm.ServiceErrorShownVerbatim | client/src/pages/Schedule/JobForm.tsx:52 | a fleet-service failure is shown with its own message, never the default |
| JobForm.JobFormState.constructor | client/src/pages/Schedule/JobForm.tsx:10-20 | empty fields, not loading, no error, no success |
| JobForm.JobFormState.HandleInputChange | client/src/pages/Schedule/JobForm.tsx:22-29 | only the named field changes; a non-empty error is cleared, an empty one kept; success cleared |
| JobForm.JobFormState.BeginSubmit | client/src/pages/Schedule/JobForm.tsx:31-34 | loading, error cleared, current fields sent, and the submit button disabled |
| JobForm.JobFormState.FinishSubmit | client/src/pages/Schedule/JobForm.tsx:36-55 | on return: fields reset, success, parent notified; on a throw: message shown, fields kept; never loading afterwards |
| JobForm.JobFormState.HandleSubmit | client/src/pages/Schedule/JobForm.tsx:31-56 | with the server unreachable every submission succeeds into the mock; otherwise success iff the server's reply is ok, and its error is shown on failure |
| LegacyJobForm.Set | client/fleetManagementSystem/src/pages/Schedule/JobForm.tsx:26-30 | the named field gets the new value and the other four are kept |
| LegacyJobForm.IsFormValidEveryField | client/fleetManagementSystem/src/pages/Schedule/JobForm.tsx:72-76 | the form is valid iff every one of the five fields is non-empty |
| LegacyJobForm.BodyOf | client/fleetManagementSystem/src/pages/Schedule/JobForm.tsx:12-18 | the request carries four fields and no `pickupLocation` |
| LegacyJobForm.SubmitToServer | client/fleetManagementSystem/src/pages/Schedule/JobForm.tsx:45 | every form the button lets through, posted unchanged to the server, passes the 400 check, yet the server answers 500 and stores nothing |
| LegacyJobForm.ErrorMessage | client/fleetManagementSystem/src/pages/Schedule/JobForm.tsx:64 | an Error's own message, otherwise "Failed to creat job" |
| LegacyJobForm.LegacyJobFormState.constructor | client/fleetManagementSystem/src/pages/Schedule/JobForm.tsx:12-22 | empty fields, not loading, no error, no success |
| LegacyJobForm.LegacyJobFormState.HandleInputChange | client/fleetManagementSystem/src/pages/Schedule/JobForm.tsx:26-35 | only the named field changes; a non-empty error is cleared; success cleared |
| LegacyJobForm.LegacyJobFormState.BeginSubmit | client/fleetManagementSystem/src/pages/Schedule/JobForm.tsx:39-42 | loading, error cleared, current fields sent, button disabled |
| LegacyJobForm.LegacyJobFormState.FinishSubmit | client/fleetManagementSystem/src/pages/Schedule/JobForm.tsx:44-68 | on return: fields reset, success, parent notified; on a throw: message shown, fields kept; never loading afterwards |
| LegacyJobForm.LegacyJobFormState.HandleSubmit | client/fleetManagementSystem/src/pages/Schedule/JobForm.tsx:39-69 | the whole submission: the fields sent, then the return or throw transitions |
| JobDetailModal.StatusColor | client/src/components/JobDetailModal.tsx:39-47 | each status spelling gets its own class string; any other string the grey default |
| JobDetailModal.StatusColorsDistinct | client/src/components/JobDetailModal.tsx:40-46 | the four status colours differ from each other and from the default |
| JobDetailModal.IndexOf | client/src/components/JobDetailModal.tsx:106 | the first position of the character, with none before it |
| JobDetailModal.ReplaceFirst | client/src/components/JobDetailModal.tsx:106 | same length, and every character other than `from` is kept |
| JobDetailModal.ReplaceFirstAt | client/src/components/JobDetailModal.tsx:106 | exactly the first occurrence is replaced; a string without one is unchanged |
| JobDetailModal.ToLower | client/src/components/JobDetailModal.tsx:106 | each character lower-cased in place |
| JobDetailModal.StatusLabel | client/src/components/JobDetailModal.tsx:106 | same length as the code; the first `_` becomes a space and every other character is ASCII lower-cased, so later `_` stay |
| JobDetailModal.StatusLabels | client/src/components/JobDetailModal.tsx:188 | the labels "scheduled", "in progress", "completed" and "cancelled" |
| JobDetailModal.OnlyFirstUnderscoreReplaced | client/src/components/JobDetailModal.tsx:106 | only the first underscore becomes a space: "A_B_C" reads "a b_c" |
| JobDetailModal.StatusButtonsOncePerStatus | client/src/components/JobDetailModal.tsx:177 | the four buttons name each status exactly once |
| JobDetailModal.ButtonsEnabledIdle | client/src/components/JobDetailModal.tsx:181 | when idle exactly the current status's button is disabled; while loading all are |
| JobDetailModal.JobDetailModalState.constructor | client/src/components/JobDetailModal.tsx:11-14 | not loading and no error |
| JobDetailModal.JobDetailModalState.BeginUpdate | client/src/components/JobDetailModal.tsx:16-27 | loading, error cleared, the new status sent for this job, and every button disabled |
| JobDetailModal.JobDetailModalState.FinishUpdate | client/src/components/JobDetailModal.tsx:28-36 | any response, ok or not, triggers refresh then the parent update; a rejected fetch shows "Failed to update job status"; never loading afterwards |
| JobDetailModal.JobDetailModalState.UpdateJobStatus | client/src/components/JobDetailModal.tsx:16-37 | the whole update: request for this job, then the response or rejection transitions |

## Left out

- Network, fetch, JSON encoding and the 5-second probe timeout. The probe's outcome and each reply, decoded body included, are inputs. A reply whose body fails to decode is not modelled.
- The mock's artificial delays (500 ms and 300 ms) and the forms' 3-second timer that clears the success flag: no time is modelled.
- Record timestamps (createdAt, updatedAt) and the dialog's date formatting (`toLocaleDateString`): locale and clock behaviour.
- Rendering, CSS classes other than the status colours, and the browser's `required` attribute check. A submission through the button is modelled by `SubmitDisabled`.
- The database engine. Concurrency between transactions is not modelled. Keys come from a counter. The database failing at a step is the `fault` input.
- JobModel.JobStore.FindByDate: the order among jobs with equal pickup times is not stated, because the database leaves it unspecified. The same holds for ties in JobModel.JobStore.FindAll, GetDrivers, GetVehicles and GetClients.
- Collections.StrLe: the database's collation is modelled as code-point order.
- JobModel.JobStore.AssignDriver: drivers must exist but their `isActive` flag is not checked, as in the code. Prisma's own error kinds are collapsed into the `StoreError` cases.
- Request bodies whose fields are not strings, and extra body keys that the store's spread would pass on. Body fields are modelled as present or absent strings.
- JobDetailModal.StatusColor: JavaScript's object lookup also finds inherited keys such as "constructor", which would return a non-string. Only the four own keys and the default are modelled.
- JobDetailModal.ToLower: ASCII lower-casing only; JavaScript's Unicode case mapping is not modelled.
- LegacyJobForm.SubmitToServer: assumes the legacy client's fleet service posts the form unchanged to POST /api/jobs. That service is not part of this model. If it probes the way the current client does, the probe path of "## Findings" sends the form to a mock instead, and the server never sees it.
- The legacy form's own fleet service is not part of this model. Its completion is an input, so `LegacyJobForm.LegacyJobFormState.HandleSubmit` does not describe the mock or server path.
- Dashboard refresh counter, server start-up, CORS, the seed script and the screens that only display data.

## Findings

| source | as written | input that shows it | evidently intended | confidence | as-written member | corrected member |
|---|---|---|---|---|---|---|
| client/src/services/fleetService.ts:10 | the health probe goes to the API base path plus `/health`, i.e. `/api/health`; the server serves its health check only at `/health` and the jobs under `/api/jobs` (server/src/index.ts:17-23) | server up, default base `http://localhost:5000/api`: the probe gets a 404, so every call uses the mock | probe the server's own `/health`, so the client uses the server exactly when it is up | high; not executed | FleetService.ProbeAsWrittenNeverSucceeds | FleetService.GetJobsByDateProbed |

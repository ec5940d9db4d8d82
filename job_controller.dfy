/**
 * The server's request handlers for the three routed job endpoints.  Each
 * handler is a function from the request and the repository call it would
 * make to the response it sends.  The repository call is a parameter, so that
 * "the store is not consulted" reads as "the response does not depend on it".
 */
module JobController {
  import opened FleetTypes
  import opened JobModel

  datatype Payload = JobPayload(job: Job) | JobsPayload(jobs: seq<Job>) | ErrorPayload(error: string)

  datatype Response = Response(status: nat, payload: Payload)

  /** A query-string parameter: absent, given once, or repeated (which arrives as a list). */
  datatype QueryParam = Absent | Text(text: string) | Repeated(items: seq<string>)

  const MissingFieldsMessage := "Missing required fields: clientName and pickupDate are required"
  const MissingDateMessage := "Date parameter is required"
  const InternalErrorMessage := "Internal server error"
  const InternalErrorMessageByDate := "Internal serve error"

  /** The only check made on a creation request: client name and pickup date are present and not empty. */
  predicate CreateRequestValid(body: JobBody)
  {
    Truthy(body.clientName) && Truthy(body.pickupDate)
  }

  /** POST /api/jobs: 400 for a missing name or date, else 201 with the created job, or 500 when creation fails. */
  function CreateJob(body: JobBody, create: JobBody -> StoreResult<Job>): (resp: Response)
    ensures resp.status == 400 <==> !CreateRequestValid(body)
    ensures resp.status == 400 ==> resp.payload == ErrorPayload(MissingFieldsMessage)
    ensures resp.status == 201 <==> CreateRequestValid(body) && create(body).Done?
    ensures resp.status == 201 ==> resp.payload == JobPayload(create(body).value)
    ensures resp.status == 500 <==> CreateRequestValid(body) && create(body).Failed?
    ensures resp.status == 500 ==> resp.payload == ErrorPayload(InternalErrorMessage)
  {
    if !CreateRequestValid(body) then
      Response(400, ErrorPayload(MissingFieldsMessage))
    else
      match create(body)
      case Done(job) => Response(201, JobPayload(job))
      case Failed(_) => Response(500, ErrorPayload(InternalErrorMessage))
  }

  /** A rejected creation request never reaches the store: the answer is the same whatever the store would do. */
  lemma RejectedCreateIgnoresStore(body: JobBody, create1: JobBody -> StoreResult<Job>, create2: JobBody -> StoreResult<Job>)
    requires !CreateRequestValid(body)
    ensures CreateJob(body, create1) == CreateJob(body, create2)
  {
  }

  /** Pickup time and both locations are not checked: empty or absent, the request goes to the store. */
  lemma UncheckedFieldsReachStore(name: string, date: string, time: Option<string>, pickup: Option<string>,
                                  dropOff: Option<string>, create: JobBody -> StoreResult<Job>)
    requires name != "" && date != ""
    ensures var body := JobBody(Some(name), Some(date), time, pickup, dropOff);
            CreateJob(body, create).status != 400
  {
  }

  /** GET /api/jobs?date=…: 400 unless the date is a single non-empty string, else the jobs of that date, or 500. */
  function GetJobsByDate(date: QueryParam, findByDate: string -> StoreResult<seq<Job>>): (resp: Response)
    ensures resp.status == 400 <==> !(date.Text? && date.text != "")
    ensures resp.status == 400 ==> resp.payload == ErrorPayload(MissingDateMessage)
    ensures resp.status == 200 ==>
              resp.payload.JobsPayload? && date.Text? && findByDate(date.text) == Done(resp.payload.jobs)
    ensures resp.status == 500 <==> date.Text? && date.text != "" && findByDate(date.text).Failed?
    ensures resp.status == 500 ==> resp.payload == ErrorPayload(InternalErrorMessageByDate)
    ensures resp.status in {200, 400, 500}
  {
    if !date.Text? || date.text == "" then
      Response(400, ErrorPayload(MissingDateMessage))
    else
      match findByDate(date.text)
      case Done(jobs) => Response(200, JobsPayload(jobs))
      case Failed(_) => Response(500, ErrorPayload(InternalErrorMessageByDate))
  }

  /** GET /api/jobs/all: every job, or 500 when the query fails. */
  function GetAllJobs(findAll: StoreResult<seq<Job>>): (resp: Response)
    ensures resp.status == 200 <==> findAll.Done?
    ensures resp.status == 200 ==> resp.payload == JobsPayload(findAll.value)
    ensures resp.status != 200 ==> resp == Response(500, ErrorPayload(InternalErrorMessage))
  {
    match findAll
    case Done(jobs) => Response(200, JobsPayload(jobs))
    case Failed(_) => Response(500, ErrorPayload(InternalErrorMessage))
  }

  // ---- The handlers wired to the repository, as the routes do ----

  /** POST /api/jobs against the store: a rejected request leaves the store untouched. */
  method ServeCreateJob(store: JobStore, body: JobBody, fault: Option<TxStep>) returns (resp: Response)
    requires store.Valid()
    modifies store
    ensures store.Valid()
    ensures store.drivers == old(store.drivers) && store.vehicles == old(store.vehicles)
    ensures !CreateRequestValid(body) ==> resp.status == 400 && unchanged(store)
    ensures resp.status == 500 ==> store.jobs == old(store.jobs) && store.clients == old(store.clients)
    ensures resp.status == 500 ==> resp.payload == ErrorPayload(InternalErrorMessage)
    ensures resp.status == 201 ==>
              && resp.payload.JobPayload?
              && resp.payload.job.status == Scheduled
              && resp.payload.job.client.name == body.clientName.value
              && resp.payload.job.pickupDate == body.pickupDate.value
              && Attached(resp.payload.job, store.clients, store.drivers, store.vehicles)
              && store.jobs == old(store.jobs) + [RowOf(resp.payload.job)]
    ensures CreateRequestValid(body) ==> resp.status in {201, 500}
    ensures resp.status == 201 ==> body.pickupTime.Some? && body.pickupLocation.Some? && body.dropOffLocation.Some?
    ensures CreateRequestValid(body) && fault.None?
            && body.pickupTime.Some? && body.pickupLocation.Some? && body.dropOffLocation.Some?
            ==> resp.status == 201
  {
    if !CreateRequestValid(body) {
      resp := CreateJob(body, _ => Failed(DatabaseFault));
    } else {
      var outcome := store.Create(body, fault);
      resp := CreateJob(body, _ => outcome);
    }
  }

  /** GET /api/jobs?date=… against the store. */
  function ServeJobsByDate(store: JobStore, date: QueryParam): (resp: Response)
    reads store
    requires store.Valid()
    ensures date.Text? && date.text != "" ==> resp == Response(200, JobsPayload(store.FindByDate(date.text)))
    ensures !(date.Text? && date.text != "") ==> resp == Response(400, ErrorPayload(MissingDateMessage))
  {
    var jobs := if date.Text? then store.FindByDate(date.text) else [];
    GetJobsByDate(date, _ => Done(jobs))
  }

  /**
   * Creating a job for "Acme" on an empty store answers 201 with a SCHEDULED
   * job, and listing that date then answers exactly that job.
   */
  method CreateThenListScenario() returns (created: Response, listed: Response)
    ensures created.status == 201 && created.payload.JobPayload?
    ensures created.payload.job.status == Scheduled && created.payload.job.client.name == "Acme"
    ensures listed == Response(200, JobsPayload([created.payload.job]))
  {
    var store := new JobStore([], [], 0);
    var body := JobBody(Some("Acme"), Some("2025-01-10"), Some("09:00"), Some("A"), Some("B"));
    created := ServeCreateJob(store, body, None);
    var job := created.payload.job;
    JoinedSingle(store.clients, store.drivers, store.vehicles, store.nextKey, job);
    assert store.Joined() == [job];
    listed := ServeJobsByDate(store, Text("2025-01-10"));
    ListingSingle(job, "2025-01-10");
  }

  lemma JoinedSingle(clients: seq<Client>, drivers: seq<Driver>, vehicles: seq<Vehicle>, key: nat, job: Job)
    requires StoreValid([RowOf(job)], clients, drivers, vehicles, key)
    requires Attached(job, clients, drivers, vehicles) && drivers == [] && vehicles == []
    ensures AttachAll([RowOf(job)], clients, drivers, vehicles) == [job]
  {
    var all := AttachAll([RowOf(job)], clients, drivers, vehicles);
    assert RowOf(all[0]) == RowOf(job);
    ClientKeyUnique(clients, job.client);
    assert all[0].client == job.client;
  }

  lemma ListingSingle(job: Job, date: string)
    requires job.pickupDate == date
    ensures JobsOnDateByTime([job], date) == [job]
  {
    var r := JobsOnDateByTime([job], date);
    assert multiset(r) == multiset{job} by {
      assert forall j :: multiset(r)[j] == multiset{job}[j];
    }
    assert |r| == 1 && r[0] in multiset(r);
  }
}

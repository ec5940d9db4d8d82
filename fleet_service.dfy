/**
 * The web client's data access: before every operation it probes the
 * server's health endpoint and, when the probe succeeds, calls the server
 * (the "real" service); otherwise it uses the in-memory mock.  Each call
 * probes afresh, so successive calls may go to different sources.  The probe
 * and the server's replies are inputs here: what the network delivered.
 */
module FleetService {
  import opened FleetTypes
  import opened MockFleetService
  import JobModel
  import JobController

  /** What the health probe got: a response, with its `ok` flag, or a thrown error (network failure or the 5-second timeout). */
  datatype ProbeOutcome = ProbeAnswered(ok: bool) | ProbeThrew

  /** A fetch either rejects with an error or yields a response with its `ok` flag and its decoded JSON body. */
  datatype Fetched<T> = Rejected(message: string) | Answered(ok: bool, body: T)

  const CreateFailedMessage := "Failed to create job"
  const FetchFailedMessage := "Failed to fetch jobs"

  /** The server counts as available exactly when the probe answered with a 2xx status. */
  function IsBackendAvailable(probe: ProbeOutcome): (up: bool)
    ensures probe.ProbeThrew? ==> !up
    ensures probe.ProbeAnswered? ==> (up <==> probe.ok)
  {
    match probe
    case ProbeAnswered(ok) => ok
    case ProbeThrew => false
  }

  /** POST /jobs on the server: the created job, or an error for a rejected fetch or a non-2xx reply. */
  function RealCreateJob(req: CreateJobRequest, reply: Fetched<Job>): (r: Result<Job>)
    ensures r.Ok? <==> reply.Answered? && reply.ok
    ensures r.Ok? ==> r.value == reply.body
    ensures reply.Answered? && !reply.ok ==> r == Err(CreateFailedMessage)
    ensures reply.Rejected? ==> r == Err(reply.message)
  {
    match reply
    case Rejected(message) => Err(message)
    case Answered(ok, job) => if ok then Ok(job) else Err(CreateFailedMessage)
  }

  /** GET /jobs?date=… on the server: the jobs, or an error for a rejected fetch or a non-2xx reply. */
  function RealGetJobsByDate(date: string, reply: Fetched<seq<Job>>): (r: Result<seq<Job>>)
    ensures r.Ok? <==> reply.Answered? && reply.ok
    ensures r.Ok? ==> r.value == reply.body
    ensures reply.Answered? && !reply.ok ==> r == Err(FetchFailedMessage)
    ensures reply.Rejected? ==> r == Err(reply.message)
  {
    match reply
    case Rejected(message) => Err(message)
    case Answered(ok, jobs) => if ok then Ok(jobs) else Err(FetchFailedMessage)
  }

  /** The server's schedule of a date: the date itself with the server's jobs of that date. */
  function RealGetDailySchedule(date: string, reply: Fetched<seq<Job>>): (r: Result<DailySchedule>)
    ensures r.Ok? <==> RealGetJobsByDate(date, reply).Ok?
    ensures r.Ok? ==> r.value.date == date && r.value.jobs == RealGetJobsByDate(date, reply).value
    ensures r.Err? ==> r.message == RealGetJobsByDate(date, reply).message
  {
    match RealGetJobsByDate(date, reply)
    case Ok(jobs) => Ok(DailySchedule(date, jobs))
    case Err(message) => Err(message)
  }

  /**
   * Creates a job on the server when this call's probe succeeds, and in the
   * mock otherwise; the mock never fails.
   */
  method CreateJob(req: CreateJobRequest, probe: ProbeOutcome, reply: Fetched<Job>, mock: MockFleetService)
    returns (r: Result<Job>)
    requires mock.Valid()
    modifies mock
    ensures mock.Valid()
    ensures IsBackendAvailable(probe) ==> r == RealCreateJob(req, reply) && unchanged(mock)
    ensures !IsBackendAvailable(probe) ==>
              && r.Ok?
              && mock.jobs == old(mock.jobs) + [r.value]
              && r.value.id == old(mock.nextId) && mock.nextId == old(mock.nextId) + 1
              && r.value.clientId == r.value.id + 1 && r.value.client == Client(r.value.id + 1, req.clientName)
              && r.value.pickupDate == req.pickupDate && r.value.pickupTime == req.pickupTime
              && r.value.pickupLocation == req.pickupLocation && r.value.dropOffLocation == req.dropOffLocation
              && r.value.status == Scheduled
              && r.value.driverId == None && r.value.driver == None
              && r.value.vehicleId == None && r.value.vehicle == None
              && mock.GetJobsByDate(req.pickupDate) == old(mock.GetJobsByDate(req.pickupDate)) + [r.value]
  {
    if IsBackendAvailable(probe) {
      r := RealCreateJob(req, reply);
    } else {
      var job := mock.CreateJob(req);
      r := Ok(job);
    }
  }

  /** Lists a date's jobs from the server when this call's probe succeeds, and from the mock otherwise. */
  function GetJobsByDate(date: string, probe: ProbeOutcome, reply: Fetched<seq<Job>>, mock: MockFleetService)
    : (r: Result<seq<Job>>)
    reads mock
    ensures IsBackendAvailable(probe) ==> r == RealGetJobsByDate(date, reply)
    ensures !IsBackendAvailable(probe) ==> r == Ok(mock.GetJobsByDate(date))
    ensures !IsBackendAvailable(probe) ==>
              r.Ok? && forall j :: j in r.value <==> j in mock.jobs && j.pickupDate == date
  {
    if IsBackendAvailable(probe) then RealGetJobsByDate(date, reply) else Ok(mock.GetJobsByDate(date))
  }

  /** The schedule of a date from the server when this call's probe succeeds, and from the mock otherwise. */
  function GetDailySchedule(date: string, probe: ProbeOutcome, reply: Fetched<seq<Job>>, mock: MockFleetService)
    : (r: Result<DailySchedule>)
    reads mock
    ensures IsBackendAvailable(probe) ==> r == RealGetDailySchedule(date, reply)
    ensures !IsBackendAvailable(probe) ==> r == Ok(mock.GetDailySchedule(date))
    ensures r.Ok? ==> r.value.date == date
    ensures r.Ok? <==> GetJobsByDate(date, probe, reply, mock).Ok?
    ensures r.Ok? ==> r.value.jobs == GetJobsByDate(date, probe, reply, mock).value
  {
    if IsBackendAvailable(probe) then RealGetDailySchedule(date, reply) else Ok(mock.GetDailySchedule(date))
  }

  /**
   * A job created while the server was unreachable goes to the mock only: the
   * server's store is not touched, so the server's listing of that date, as
   * GET /api/jobs?date=… answers it, is the same after the write as before.
   */
  method DegradedWriteNotReconciled(req: CreateJobRequest, probe: ProbeOutcome, mock: MockFleetService,
                                    server: JobModel.JobStore)
    returns (before: JobController.Response, created: Result<Job>, after: JobController.Response)
    requires mock.Valid() && server.Valid()
    requires !IsBackendAvailable(probe)
    modifies mock
    ensures created.Ok? && mock.jobs == old(mock.jobs) + [created.value]
    ensures unchanged(server)
    ensures server.FindByDate(req.pickupDate) == old(server.FindByDate(req.pickupDate))
    ensures req.pickupDate != "" ==> before == JobController.Response(200, JobController.JobsPayload(server.FindByDate(req.pickupDate)))
    ensures after == before
  {
    before := JobController.ServeJobsByDate(server, JobController.Text(req.pickupDate));
    created := CreateJob(req, probe, Rejected("unused"), mock);
    after := JobController.ServeJobsByDate(server, JobController.Text(req.pickupDate));
  }

  // ---- Where the probe is sent ----

  /** The paths the server routes for GET: its health check at the root, and the job routes under /api/jobs. */
  const RoutedGetPaths: set<string> := {"/health", "/api/jobs", "/api/jobs/all"}

  /**
   * A plain GET of `path`: thrown while the server is down, otherwise answered.
   * An unrouted path gets a 404, and /api/jobs without its `date` query a 400.
   */
  function ProbeAt(path: string, serverUp: bool): ProbeOutcome
  {
    if serverUp then ProbeAnswered(path in RoutedGetPaths && path != "/api/jobs") else ProbeThrew
  }

  /** As written, the client probes "/health" under its API base path, beside "/jobs". */
  function HealthPathAsWritten(basePath: string): string
  {
    basePath + "/health"
  }

  function JobsPath(basePath: string): string
  {
    basePath + "/jobs"
  }

  /**
   * Whatever base path is configured, if the client's job listing reaches the
   * server then its health probe does not: the backend never counts as available.
   */
  lemma {:induction false} ProbeAsWrittenNeverSucceeds(basePath: string, serverUp: bool)
    requires JobsPath(basePath) in RoutedGetPaths
    ensures !IsBackendAvailable(ProbeAt(HealthPathAsWritten(basePath), serverUp))
  {
    var b := basePath;
    var jobs := b + "/jobs";
    assert jobs[|b|] == '/' && jobs[|b| + 4] == 's';
    assert jobs == "/api/jobs";
    assert b == jobs[..4];
    assert HealthPathAsWritten(b) == "/api/health";
  }

  /** The health check the server actually serves, at its root whatever the API base path. */
  const HealthPath := "/health"

  /** Probing the served health check, the backend counts as available exactly when the server is up. */
  lemma ProbeOfServedHealthTracksServer(serverUp: bool)
    ensures IsBackendAvailable(ProbeAt(HealthPath, serverUp)) == serverUp
  {
  }

  /** The listing of a date, with the probe sent to the served health check. */
  function GetJobsByDateProbed(date: string, serverUp: bool, reply: Fetched<seq<Job>>, mock: MockFleetService)
    : (r: Result<seq<Job>>)
    reads mock
    ensures serverUp ==> r == RealGetJobsByDate(date, reply)
    ensures !serverUp ==> r == Ok(mock.GetJobsByDate(date))
  {
    ProbeOfServedHealthTracksServer(serverUp);
    GetJobsByDate(date, ProbeAt(HealthPath, serverUp), reply, mock)
  }
}

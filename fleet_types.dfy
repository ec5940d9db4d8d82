/**
 * The records shared by the fleet-scheduling server and its web client:
 * clients, drivers, vehicles, jobs and the job-creation request, with the
 * four-valued job status.  Record timestamps (createdAt, updatedAt) are not
 * part of this model.  Identifiers are opaque keys, modelled as naturals.
 */
module FleetTypes {

  type Id = nat

  datatype Option<+T> = None | Some(value: T)

  /** The outcome of a call that may throw: the value, or the message of the Error thrown. */
  datatype Result<+T> = Ok(value: T) | Err(message: string)

  datatype Status = Scheduled | InProgress | Completed | Cancelled

  /** The wire spelling of a status. */
  function StatusCode(s: Status): string
  {
    match s
    case Scheduled => "SCHEDULED"
    case InProgress => "IN_PROGRESS"
    case Completed => "COMPLETED"
    case Cancelled => "CANCELLED"
  }

  /** Reads a wire spelling back; any other string is not a status. */
  function ParseStatus(code: string): (r: Option<Status>)
    ensures r.Some? ==> StatusCode(r.value) == code
  {
    if code == "SCHEDULED" then Some(Scheduled)
    else if code == "IN_PROGRESS" then Some(InProgress)
    else if code == "COMPLETED" then Some(Completed)
    else if code == "CANCELLED" then Some(Cancelled)
    else None
  }

  lemma ParseStatusCode(s: Status)
    ensures ParseStatus(StatusCode(s)) == Some(s)
  {
  }

  datatype Client = Client(id: Id, name: string)

  datatype Driver = Driver(id: Id, name: string, email: string, phone: Option<string>, isActive: bool)

  datatype Vehicle = Vehicle(id: Id, make: string, model: string, year: Option<int>,
                             plate: string, vin: Option<string>, isActive: bool)

  /** A job as the API returns it: its own columns plus the related client, driver and vehicle. */
  datatype Job = Job(id: Id, clientId: Id, client: Client,
                     pickupDate: string, pickupTime: string,
                     pickupLocation: string, dropOffLocation: string,
                     status: Status,
                     driverId: Option<Id>, driver: Option<Driver>,
                     vehicleId: Option<Id>, vehicle: Option<Vehicle>)

  /** A job as the store keeps it: its own columns, with foreign keys only. */
  datatype JobRow = JobRow(id: Id, clientId: Id,
                           pickupDate: string, pickupTime: string,
                           pickupLocation: string, dropOffLocation: string,
                           status: Status, driverId: Option<Id>, vehicleId: Option<Id>)

  /** The stored columns of a job, without its related records. */
  function RowOf(j: Job): JobRow
  {
    JobRow(j.id, j.clientId, j.pickupDate, j.pickupTime, j.pickupLocation, j.dropOffLocation,
           j.status, j.driverId, j.vehicleId)
  }

  datatype CreateJobRequest = CreateJobRequest(clientName: string, pickupDate: string, pickupTime: string,
                                               pickupLocation: string, dropOffLocation: string)

  /**
   * A job-creation request body as it arrives over HTTP: any of the five
   * fields may be missing (None).
   */
  datatype JobBody = JobBody(clientName: Option<string>, pickupDate: Option<string>, pickupTime: Option<string>,
                             pickupLocation: Option<string>, dropOffLocation: Option<string>)

  datatype DailySchedule = DailySchedule(date: string, jobs: seq<Job>)

  /** JavaScript truthiness of an optional string: present and not empty. */
  predicate Truthy(s: Option<string>)
  {
    s.Some? && s.value != ""
  }
}

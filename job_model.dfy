/**
 * The server's job repository over an in-memory store of four tables: jobs,
 * clients, drivers and vehicles.  The database's key generator is a counter
 * (`nextKey`); client names are unique, as the lookup by name requires; and
 * jobs refer to clients, drivers and vehicles by foreign key, which the store
 * enforces.  Queries return jobs with their client, driver and vehicle
 * attached.
 */
module JobModel {
  import opened FleetTypes
  import opened Collections

  datatype StoreError =
    | RecordNotFound             // an update named a job that does not exist
    | ForeignKeyViolation        // an update named a driver or vehicle that does not exist
    | MissingArgument(field: string)
    | DatabaseFault              // the database failed on its own account

  datatype StoreResult<+T> = Done(value: T) | Failed(error: StoreError)

  /** The steps of job creation at which the database may fail. */
  datatype TxStep = FindClient | CreateClient | CreateJobRow

  /** The steps of the bulk clear, which run one after the other outside any transaction. */
  datatype ClearStep = DeleteJobs | DeleteClients

  /** The first element of `s` that satisfies `p`. */
  function Find<T(!new)>(s: seq<T>, p: T -> bool): (r: Option<T>)
    ensures r.Some? ==> r.value in s && p(r.value)
    ensures r.None? <==> forall x :: x in s ==> !p(x)
  {
    if s == [] then None
    else if p(s[0]) then Some(s[0])
    else Find(s[1..], p)
  }

  lemma FindOnly<T(!new)>(s: seq<T>, p: T -> bool, x: T)
    requires x in s && p(x)
    requires forall y :: y in s && p(y) ==> y == x
    ensures Find(s, p) == Some(x)
  {
  }

  function ClientWithId(id: Id): Client -> bool { (c: Client) => c.id == id }
  function ClientWithName(name: string): Client -> bool { (c: Client) => c.name == name }
  function DriverWithId(id: Id): Driver -> bool { (d: Driver) => d.id == id }
  function VehicleWithId(id: Id): Vehicle -> bool { (v: Vehicle) => v.id == id }
  function JobWithId(id: Id): Job -> bool { (j: Job) => j.id == id }
  function JobOnDate(date: string): Job -> bool { (j: Job) => j.pickupDate == date }
  function DriverIsActive(d: Driver): bool { d.isActive }
  function VehicleIsActive(v: Vehicle): bool { v.isActive }

  /** The position of the job with key `id`, if any. */
  function IndexOfJob(rows: seq<JobRow>, id: Id): (r: Option<nat>)
    ensures r.Some? ==> r.value < |rows| && rows[r.value].id == id
    ensures r.None? <==> forall i :: 0 <= i < |rows| ==> rows[i].id != id
  {
    if rows == [] then None
    else if rows[0].id == id then Some(0)
    else match IndexOfJob(rows[1..], id)
      case None => None
      case Some(k) => Some(k + 1)
  }

  // ---- Orders used by the queries ----

  function ByKey<T>(key: T -> string): (T, T) -> bool
  {
    (a: T, b: T) => StrLe(key(a), key(b))
  }

  lemma ByKeyTotalPreorder<T(!new)>(key: T -> string)
    ensures TotalPreorder(ByKey(key))
  {
    forall a: T, b: T
      ensures ByKey(key)(a, b) || ByKey(key)(b, a)
    {
      StrLeTotal(key(a), key(b));
    }
    forall a: T, b: T, c: T | ByKey(key)(a, b) && ByKey(key)(b, c)
      ensures ByKey(key)(a, c)
    {
      StrLeTransitive(key(a), key(b), key(c));
    }
  }

  lemma SortedByKey<T>(s: seq<T>, key: T -> string)
    requires Sorted(s, ByKey(key))
    ensures forall i, k :: 0 <= i < k < |s| ==> StrLe(key(s[i]), key(s[k]))
  {
  }

  function PickupTimeOf(j: Job): string { j.pickupTime }
  function DriverName(d: Driver): string { d.name }
  function VehicleMake(v: Vehicle): string { v.make }
  function ClientName(c: Client): string { c.name }

  /** Pickup date descending, then pickup time ascending. */
  predicate ByDateDescThenTime(a: Job, b: Job)
  {
    if a.pickupDate != b.pickupDate then StrLe(b.pickupDate, a.pickupDate)
    else StrLe(a.pickupTime, b.pickupTime)
  }

  lemma ByDateDescThenTimeTotalPreorder()
    ensures TotalPreorder(ByDateDescThenTime)
  {
    forall a: Job, b: Job
      ensures ByDateDescThenTime(a, b) || ByDateDescThenTime(b, a)
    {
      StrLeTotal(a.pickupDate, b.pickupDate);
      StrLeTotal(a.pickupTime, b.pickupTime);
    }
    forall a: Job, b: Job, c: Job | ByDateDescThenTime(a, b) && ByDateDescThenTime(b, c)
      ensures ByDateDescThenTime(a, c)
    {
      if a.pickupDate == b.pickupDate && b.pickupDate == c.pickupDate {
        StrLeTransitive(a.pickupTime, b.pickupTime, c.pickupTime);
      } else if a.pickupDate == c.pickupDate {
        // b's date differs from a's and lies both above and below it
        StrLeAntisymmetric(a.pickupDate, b.pickupDate);
      } else if a.pickupDate != b.pickupDate && b.pickupDate != c.pickupDate {
        StrLeTransitive(c.pickupDate, b.pickupDate, a.pickupDate);
      }
    }
  }

  // ---- Attaching related records (the queries' `include`) ----

  /** `j` carries the client, driver and vehicle its keys name, taken from the given tables. */
  ghost predicate Attached(j: Job, clients: seq<Client>, drivers: seq<Driver>, vehicles: seq<Vehicle>)
  {
    && j.client in clients && j.client.id == j.clientId
    && (j.driver.Some? ==> j.driver.value in drivers && j.driverId == Some(j.driver.value.id))
    && (j.driverId.Some? <==> j.driver.Some?)
    && (j.vehicle.Some? ==> j.vehicle.value in vehicles && j.vehicleId == Some(j.vehicle.value.id))
    && (j.vehicleId.Some? <==> j.vehicle.Some?)
  }

  /** The row's client exists, and so do its driver and vehicle when it names them. */
  predicate KeysResolve(row: JobRow, clients: seq<Client>, drivers: seq<Driver>, vehicles: seq<Vehicle>)
  {
    && Find(clients, ClientWithId(row.clientId)).Some?
    && (row.driverId.Some? ==> Find(drivers, DriverWithId(row.driverId.value)).Some?)
    && (row.vehicleId.Some? ==> Find(vehicles, VehicleWithId(row.vehicleId.value)).Some?)
  }

  function Attach(row: JobRow, clients: seq<Client>, drivers: seq<Driver>, vehicles: seq<Vehicle>): (j: Job)
    requires KeysResolve(row, clients, drivers, vehicles)
    ensures RowOf(j) == row
    ensures Attached(j, clients, drivers, vehicles)
  {
    var client := Find(clients, ClientWithId(row.clientId)).value;
    var driver := if row.driverId.Some? then Find(drivers, DriverWithId(row.driverId.value)) else None;
    var vehicle := if row.vehicleId.Some? then Find(vehicles, VehicleWithId(row.vehicleId.value)) else None;
    Job(row.id, row.clientId, client, row.pickupDate, row.pickupTime, row.pickupLocation,
        row.dropOffLocation, row.status, row.driverId, driver, row.vehicleId, vehicle)
  }

  function AttachAll(rows: seq<JobRow>, clients: seq<Client>, drivers: seq<Driver>, vehicles: seq<Vehicle>): (r: seq<Job>)
    requires forall row :: row in rows ==> KeysResolve(row, clients, drivers, vehicles)
    ensures |r| == |rows|
    ensures forall i :: 0 <= i < |r| ==> RowOf(r[i]) == rows[i] && Attached(r[i], clients, drivers, vehicles)
  {
    if rows == [] then []
    else [Attach(rows[0], clients, drivers, vehicles)] + AttachAll(rows[1..], clients, drivers, vehicles)
  }

  // ---- Store invariants ----

  ghost predicate JobIdsUnique(rows: seq<JobRow>)
  {
    forall i, k :: 0 <= i < k < |rows| ==> rows[i].id != rows[k].id
  }

  ghost predicate ClientsWellKeyed(clients: seq<Client>)
  {
    && (forall i, k :: 0 <= i < k < |clients| ==> clients[i].id != clients[k].id)
    && (forall i, k :: 0 <= i < k < |clients| ==> clients[i].name != clients[k].name)
  }

  /** Every job names an existing client, and an existing driver and vehicle when it names one. */
  ghost predicate ForeignKeysHold(rows: seq<JobRow>, clients: seq<Client>, drivers: seq<Driver>, vehicles: seq<Vehicle>)
  {
    forall row :: row in rows ==> KeysResolve(row, clients, drivers, vehicles)
  }

  /**
   * Looks a client up by name and, when there is none, adds one under the
   * next key: the find-or-create step of job creation.
   */
  function FindOrCreateClient(clients: seq<Client>, name: string, key: nat): (r: (Client, seq<Client>))
    ensures r.0.name == name && r.0 in r.1
    ensures Find(clients, ClientWithName(name)).Some? ==> r.1 == clients && r.0 in clients
    ensures Find(clients, ClientWithName(name)).None? ==> r.1 == clients + [r.0] && r.0.id == key
  {
    match Find(clients, ClientWithName(name))
    case Some(c) => (c, clients)
    case None => (Client(key, name), clients + [Client(key, name)])
  }

  /** A second find-or-create with the same name reuses the client of the first and adds nothing. */
  lemma {:induction false} FindOrCreateReuses(clients: seq<Client>, name: string, key1: nat, key2: nat)
    ensures var (c1, after) := FindOrCreateClient(clients, name, key1);
            FindOrCreateClient(after, name, key2) == (c1, after)
  {
    var (c1, after) := FindOrCreateClient(clients, name, key1);
    match Find(clients, ClientWithName(name))
    case Some(c) =>
    case None =>
      FindFirstAppended(clients, ClientWithName(name), c1);
  }

  lemma {:induction false} FindFirstAppended<T(!new)>(s: seq<T>, p: T -> bool, x: T)
    requires Find(s, p).None? && p(x)
    ensures Find(s + [x], p) == Some(x)
  {
    if s == [] {
      assert s + [x] == [x];
    } else {
      assert (s + [x])[0] == s[0] && (s + [x])[1..] == s[1..] + [x];
      FindFirstAppended(s[1..], p, x);
    }
  }

  class JobStore {
    var jobs: seq<JobRow>
    var clients: seq<Client>
    var drivers: seq<Driver>
    var vehicles: seq<Vehicle>
    var nextKey: nat

    ghost predicate Valid()
      reads this
    {
      StoreValid(jobs, clients, drivers, vehicles, nextKey)
    }

    /** An empty job and client table beside the given drivers and vehicles. */
    constructor (drivers: seq<Driver>, vehicles: seq<Vehicle>, nextKey: nat)
      ensures Valid()
      ensures this.jobs == [] && this.clients == []
      ensures this.drivers == drivers && this.vehicles == vehicles && this.nextKey == nextKey
    {
      this.jobs := [];
      this.clients := [];
      this.drivers := drivers;
      this.vehicles := vehicles;
      this.nextKey := nextKey;
    }

    /** Every job with its related records attached, in table order. */
    function Joined(): (r: seq<Job>)
      reads this
      requires Valid()
      ensures |r| == |jobs|
      ensures forall i :: 0 <= i < |r| ==> RowOf(r[i]) == jobs[i] && Attached(r[i], clients, drivers, vehicles)
    {
      AttachAll(jobs, clients, drivers, vehicles)
    }

    /**
     * Creates a job in one transaction: find the client by name or create it,
     * then insert the job with status SCHEDULED, no driver and no vehicle.  The
     * database may fail at any step (`fault`), and the job insert fails when a
     * column is missing; in either case nothing is committed.
     */
    method Create(data: JobBody, fault: Option<TxStep>) returns (r: StoreResult<Job>)
      requires Valid()
      modifies this
      ensures Valid()
      ensures drivers == old(drivers) && vehicles == old(vehicles)
      ensures r.Failed? ==> jobs == old(jobs) && clients == old(clients) && nextKey == old(nextKey)
      ensures r.Done? <==>
                && data.clientName.Some? && fault != Some(FindClient)
                && (Find(old(clients), ClientWithName(data.clientName.value)).None? ==> fault != Some(CreateClient))
                && data.pickupDate.Some? && data.pickupTime.Some?
                && data.pickupLocation.Some? && data.dropOffLocation.Some?
                && fault != Some(CreateJobRow)
      ensures r.Done? ==>
                var job := r.value;
                var existing := Find(old(clients), ClientWithName(data.clientName.value));
                && jobs == old(jobs) + [RowOf(job)]
                && Attached(job, clients, drivers, vehicles)
                && (forall row :: row in old(jobs) ==> row.id != job.id)
                && job.client.name == data.clientName.value && job.clientId == job.client.id
                && (existing.Some? ==> clients == old(clients) && job.client == existing.value)
                && (existing.None? ==> clients == old(clients) + [job.client]
                                       && forall c :: c in old(clients) ==> c.id != job.client.id)
                && job.status == Scheduled
                && job.pickupDate == data.pickupDate.value && job.pickupTime == data.pickupTime.value
                && job.pickupLocation == data.pickupLocation.value
                && job.dropOffLocation == data.dropOffLocation.value
                && job.driverId == None && job.driver == None && job.vehicleId == None && job.vehicle == None
    {
      if data.clientName.None? {
        return Failed(MissingArgument("clientName"));
      }
      if fault == Some(FindClient) {
        return Failed(DatabaseFault);
      }
      var name := data.clientName.value;
      var isNew := Find(clients, ClientWithName(name)).None?;
      if isNew && fault == Some(CreateClient) {
        return Failed(DatabaseFault);
      }
      if data.pickupDate.None? || data.pickupTime.None? || data.pickupLocation.None? || data.dropOffLocation.None? {
        return Failed(MissingArgument("job column"));
      }
      if fault == Some(CreateJobRow) {
        return Failed(DatabaseFault);
      }
      // the transaction's writes, committed together below
      var (client, txClients) := FindOrCreateClient(clients, name, nextKey);
      var key := if isNew then nextKey + 1 else nextKey;
      var row := JobRow(key, client.id, data.pickupDate.value, data.pickupTime.value,
                        data.pickupLocation.value, data.dropOffLocation.value, Scheduled, None, None);
      CreateKeepsValid(jobs, clients, drivers, vehicles, nextKey, name, row);
      clients := txClients;
      jobs := jobs + [row];
      nextKey := key + 1;
      r := Done(Attach(row, clients, drivers, vehicles));
    }

    /** Sets the status of the job with key `jobId`; any status may replace any other. */
    method UpdateStatus(jobId: Id, status: Status) returns (r: StoreResult<Job>)
      requires Valid()
      modifies this
      ensures Valid()
      ensures clients == old(clients) && drivers == old(drivers) && vehicles == old(vehicles) && nextKey == old(nextKey)
      ensures r.Failed? <==> forall row :: row in old(jobs) ==> row.id != jobId
      ensures r.Failed? ==> r.error == RecordNotFound
      ensures |jobs| == |old(jobs)|
      ensures forall i :: 0 <= i < |jobs| ==>
                jobs[i] == if old(jobs)[i].id == jobId then old(jobs)[i].(status := status) else old(jobs)[i]
      ensures r.Done? ==> r.value.id == jobId && r.value.status == status && RowOf(r.value) in jobs
                          && Attached(r.value, clients, drivers, vehicles)
    {
      match IndexOfJob(jobs, jobId)
      case None =>
        r := Failed(RecordNotFound);
      case Some(i) =>
        var row := jobs[i].(status := status);
        SingleRowChange(jobs, i, row);
        jobs := jobs[i := row];
        r := Done(Attach(row, clients, drivers, vehicles));
    }

    /** Sets the driver of the job with key `jobId`; the driver must exist, active or not. */
    method AssignDriver(jobId: Id, driverId: Id) returns (r: StoreResult<Job>)
      requires Valid()
      modifies this
      ensures Valid()
      ensures clients == old(clients) && drivers == old(drivers) && vehicles == old(vehicles) && nextKey == old(nextKey)
      ensures (forall row :: row in old(jobs) ==> row.id != jobId) ==> r == Failed(RecordNotFound)
      ensures (exists row :: row in old(jobs) && row.id == jobId) ==>
                (r.Failed? <==> Find(drivers, DriverWithId(driverId)).None?)
      ensures r.Failed? ==> jobs == old(jobs)
      ensures r.Done? ==>
                && |jobs| == |old(jobs)|
                && (forall i :: 0 <= i < |jobs| ==>
                      jobs[i] == if old(jobs)[i].id == jobId then old(jobs)[i].(driverId := Some(driverId)) else old(jobs)[i])
                && r.value.id == jobId && r.value.driverId == Some(driverId) && r.value.driver.Some?
                && Attached(r.value, clients, drivers, vehicles)
    {
      match IndexOfJob(jobs, jobId)
      case None =>
        r := Failed(RecordNotFound);
      case Some(i) =>
        if Find(drivers, DriverWithId(driverId)).None? {
          r := Failed(ForeignKeyViolation);
        } else {
          var row := jobs[i].(driverId := Some(driverId));
          SingleRowChange(jobs, i, row);
          jobs := jobs[i := row];
          r := Done(Attach(row, clients, drivers, vehicles));
        }
    }

    /** Sets the vehicle of the job with key `jobId`; the vehicle must exist, active or not. */
    method AssignVehicle(jobId: Id, vehicleId: Id) returns (r: StoreResult<Job>)
      requires Valid()
      modifies this
      ensures Valid()
      ensures clients == old(clients) && drivers == old(drivers) && vehicles == old(vehicles) && nextKey == old(nextKey)
      ensures (forall row :: row in old(jobs) ==> row.id != jobId) ==> r == Failed(RecordNotFound)
      ensures (exists row :: row in old(jobs) && row.id == jobId) ==>
                (r.Failed? <==> Find(vehicles, VehicleWithId(vehicleId)).None?)
      ensures r.Failed? ==> jobs == old(jobs)
      ensures r.Done? ==>
                && |jobs| == |old(jobs)|
                && (forall i :: 0 <= i < |jobs| ==>
                      jobs[i] == if old(jobs)[i].id == jobId then old(jobs)[i].(vehicleId := Some(vehicleId)) else old(jobs)[i])
                && r.value.id == jobId && r.value.vehicleId == Some(vehicleId) && r.value.vehicle.Some?
                && Attached(r.value, clients, drivers, vehicles)
    {
      match IndexOfJob(jobs, jobId)
      case None =>
        r := Failed(RecordNotFound);
      case Some(i) =>
        if Find(vehicles, VehicleWithId(vehicleId)).None? {
          r := Failed(ForeignKeyViolation);
        } else {
          var row := jobs[i].(vehicleId := Some(vehicleId));
          SingleRowChange(jobs, i, row);
          jobs := jobs[i := row];
          r := Done(Attach(row, clients, drivers, vehicles));
        }
    }

    /**
     * Deletes every job, then every client; drivers and vehicles stay.  The two
     * deletions are separate statements, so a failure of the second leaves the
     * jobs deleted and the clients in place.
     */
    method Clear(fault: Option<ClearStep>) returns (r: StoreResult<()>)
      requires Valid()
      modifies this
      ensures Valid()
      ensures drivers == old(drivers) && vehicles == old(vehicles) && nextKey == old(nextKey)
      ensures r.Done? <==> fault.None?
      ensures jobs == if fault == Some(DeleteJobs) then old(jobs) else []
      ensures clients == if fault.None? then [] else old(clients)
    {
      match fault
      case Some(DeleteJobs) =>
        r := Failed(DatabaseFault);
      case Some(DeleteClients) =>
        jobs := [];
        r := Failed(DatabaseFault);
      case None =>
        jobs := [];
        clients := [];
        r := Done(());
    }

    /** The jobs picked up on `date`, by pickup time ascending. */
    function FindByDate(date: string): (r: seq<Job>)
      reads this
      requires Valid()
      ensures forall j :: multiset(r)[j] == if j.pickupDate == date then multiset(Joined())[j] else 0
      ensures forall i, k :: 0 <= i < k < |r| ==> StrLe(r[i].pickupTime, r[k].pickupTime)
      ensures forall j :: j in r ==> RowOf(j) in jobs && Attached(j, clients, drivers, vehicles)
    {
      var joined := Joined();
      var r := JobsOnDateByTime(joined, date);
      forall j | j in r
        ensures RowOf(j) in jobs && Attached(j, clients, drivers, vehicles)
      {
        var i :| 0 <= i < |joined| && joined[i] == j;
      }
      r
    }

    /** Every job, by pickup date descending and, within a date, by pickup time ascending. */
    function FindAll(): (r: seq<Job>)
      reads this
      requires Valid()
      ensures multiset(r) == multiset(Joined())
      ensures forall i, k :: 0 <= i < k < |r| && r[i].pickupDate != r[k].pickupDate ==>
                StrLe(r[k].pickupDate, r[i].pickupDate)
      ensures forall i, k :: 0 <= i < k < |r| && r[i].pickupDate == r[k].pickupDate ==>
                StrLe(r[i].pickupTime, r[k].pickupTime)
    {
      ByDateDescThenTimeTotalPreorder();
      SortBySorted(Joined(), ByDateDescThenTime);
      SortBy(Joined(), ByDateDescThenTime)
    }

    /** The job with key `id`, or nothing when there is none. */
    function FindById(id: Id): (r: Option<Job>)
      reads this
      requires Valid()
      ensures r.None? <==> forall row :: row in jobs ==> row.id != id
      ensures r.Some? ==> r.value.id == id && RowOf(r.value) in jobs && Attached(r.value, clients, drivers, vehicles)
    {
      var joined := Joined();
      JoinedKeys(jobs, joined, id);
      Find(joined, JobWithId(id))
    }

    /** The active drivers, by name ascending. */
    function GetDrivers(): (r: seq<Driver>)
      reads this
      ensures forall d :: multiset(r)[d] == if d.isActive then multiset(drivers)[d] else 0
      ensures forall i, k :: 0 <= i < k < |r| ==> StrLe(r[i].name, r[k].name)
    {
      ByKeyTotalPreorder(DriverName);
      var active := Filter(drivers, DriverIsActive);
      SortBySorted(active, ByKey(DriverName));
      SortedByKey(SortBy(active, ByKey(DriverName)), DriverName);
      SortBy(active, ByKey(DriverName))
    }

    /** The active vehicles, by make ascending. */
    function GetVehicles(): (r: seq<Vehicle>)
      reads this
      ensures forall v :: multiset(r)[v] == if v.isActive then multiset(vehicles)[v] else 0
      ensures forall i, k :: 0 <= i < k < |r| ==> StrLe(r[i].make, r[k].make)
    {
      ByKeyTotalPreorder(VehicleMake);
      var active := Filter(vehicles, VehicleIsActive);
      SortBySorted(active, ByKey(VehicleMake));
      SortedByKey(SortBy(active, ByKey(VehicleMake)), VehicleMake);
      SortBy(active, ByKey(VehicleMake))
    }

    /** Every client, by name ascending. */
    function GetClients(): (r: seq<Client>)
      reads this
      ensures multiset(r) == multiset(clients)
      ensures forall i, k :: 0 <= i < k < |r| ==> StrLe(r[i].name, r[k].name)
    {
      ByKeyTotalPreorder(ClientName);
      SortBySorted(clients, ByKey(ClientName));
      SortedByKey(SortBy(clients, ByKey(ClientName)), ClientName);
      SortBy(clients, ByKey(ClientName))
    }
  }

  /** The jobs of `joined` picked up on `date`, by pickup time ascending. */
  function JobsOnDateByTime(joined: seq<Job>, date: string): (r: seq<Job>)
    ensures forall j :: multiset(r)[j] == if j.pickupDate == date then multiset(joined)[j] else 0
    ensures forall i, k :: 0 <= i < k < |r| ==> StrLe(r[i].pickupTime, r[k].pickupTime)
    ensures forall j :: j in r ==> j in joined
  {
    var onDate := Filter(joined, JobOnDate(date));
    ByKeyTotalPreorder(PickupTimeOf);
    SortBySorted(onDate, ByKey(PickupTimeOf));
    var r := SortBy(onDate, ByKey(PickupTimeOf));
    SortedByKey(r, PickupTimeOf);
    assert multiset(r) == multiset(onDate);
    assert forall j :: JobOnDate(date)(j) == (j.pickupDate == date);
    assert forall j :: j in r ==> j in multiset(onDate);
    r
  }

  /** A key occurs in the joined jobs exactly when it occurs in the rows they were built from. */
  lemma JoinedKeys(rows: seq<JobRow>, joined: seq<Job>, id: Id)
    requires |joined| == |rows|
    requires forall i :: 0 <= i < |joined| ==> RowOf(joined[i]) == rows[i]
    ensures (forall j :: j in joined ==> !JobWithId(id)(j)) <==> (forall row :: row in rows ==> row.id != id)
    ensures forall j :: j in joined ==> RowOf(j) in rows
  {
    forall j | j in joined
      ensures RowOf(j) in rows
    {
      var i :| 0 <= i < |joined| && joined[i] == j;
    }
    if exists row :: row in rows && row.id == id {
      var row :| row in rows && row.id == id;
      var i :| 0 <= i < |rows| && rows[i] == row;
      assert joined[i] in joined && JobWithId(id)(joined[i]);
    }
  }

  // ---- Invariant maintenance ----

  ghost predicate StoreValid(jobs: seq<JobRow>, clients: seq<Client>, drivers: seq<Driver>, vehicles: seq<Vehicle>,
                             nextKey: nat)
  {
    && JobIdsUnique(jobs)
    && ClientsWellKeyed(clients)
    && ForeignKeysHold(jobs, clients, drivers, vehicles)
    && (forall row :: row in jobs ==> row.id < nextKey)
    && (forall c :: c in clients ==> c.id < nextKey)
  }

  /** Committing the find-or-create and the new job row keeps the store valid and keys the row's client. */
  lemma CreateKeepsValid(jobs: seq<JobRow>, clients: seq<Client>, drivers: seq<Driver>, vehicles: seq<Vehicle>,
                         nextKey: nat, name: string, row: JobRow)
    requires StoreValid(jobs, clients, drivers, vehicles, nextKey)
    requires row.clientId == FindOrCreateClient(clients, name, nextKey).0.id
    requires row.id == if Find(clients, ClientWithName(name)).None? then nextKey + 1 else nextKey
    requires row.driverId.None? && row.vehicleId.None?
    ensures var (client, txClients) := FindOrCreateClient(clients, name, nextKey);
            && StoreValid(jobs + [row], txClients, drivers, vehicles, row.id + 1)
            && Find(txClients, ClientWithId(row.clientId)) == Some(client)
  {
    var (client, txClients) := FindOrCreateClient(clients, name, nextKey);
    var isNew := Find(clients, ClientWithName(name)).None?;
    NewClientKeepsKeys(clients, client, txClients, isNew, nextKey);
    ClientKeyUnique(txClients, client);
    FindOnly(txClients, ClientWithId(client.id), client);
    NewRowKeepsForeignKeys(jobs, row, clients, txClients, drivers, vehicles);
    AppendFreshRow(jobs, row, nextKey);
  }

  lemma ClientKeyUnique(clients: seq<Client>, client: Client)
    requires ClientsWellKeyed(clients) && client in clients
    ensures forall c :: c in clients && ClientWithId(client.id)(c) ==> c == client
  {
    forall c | c in clients && c.id == client.id
      ensures c == client
    {
      var i :| 0 <= i < |clients| && clients[i] == c;
      var k :| 0 <= k < |clients| && clients[k] == client;
      assert clients[i].id == clients[k].id;
    }
  }

  lemma AppendFreshRow(jobs: seq<JobRow>, row: JobRow, bound: nat)
    requires JobIdsUnique(jobs)
    requires forall x :: x in jobs ==> x.id < bound
    requires bound <= row.id
    ensures JobIdsUnique(jobs + [row])
    ensures forall x :: x in jobs + [row] ==> x.id < row.id + 1
  {
    var rows := jobs + [row];
    forall i, k | 0 <= i < k < |rows|
      ensures rows[i].id != rows[k].id
    {
      if k < |jobs| {
        assert rows[i] == jobs[i] && rows[k] == jobs[k];
      } else {
        assert rows[i] in jobs;
      }
    }
    assert forall x :: x in rows ==> x in jobs || x == row;
  }

  lemma NewClientKeepsKeys(clients: seq<Client>, client: Client, txClients: seq<Client>, isNew: bool, key: nat)
    requires ClientsWellKeyed(clients)
    requires forall c :: c in clients ==> c.id < key
    requires isNew ==> Find(clients, ClientWithName(client.name)).None? && client.id == key
                       && txClients == clients + [client]
    requires !isNew ==> txClients == clients && client in clients
    ensures ClientsWellKeyed(txClients) && client in txClients
    ensures forall c :: c in clients ==> c in txClients
    ensures forall c :: c in txClients ==> c.id < key + 1
  {
    if isNew {
      forall i, k | 0 <= i < k < |txClients|
        ensures txClients[i].id != txClients[k].id && txClients[i].name != txClients[k].name
      {
        if k == |clients| {
          assert txClients[i] in clients && txClients[k] == client;
        } else {
          assert txClients[i] == clients[i] && txClients[k] == clients[k];
        }
      }
    }
  }

  lemma FindKeptInLarger<T(!new)>(s: seq<T>, t: seq<T>, p: T -> bool)
    requires forall x :: x in s ==> x in t
    requires Find(s, p).Some?
    ensures Find(t, p).Some?
  {
    assert Find(s, p).value in t;
  }

  lemma NewRowKeepsForeignKeys(rows: seq<JobRow>, row: JobRow, clients: seq<Client>, txClients: seq<Client>,
                               drivers: seq<Driver>, vehicles: seq<Vehicle>)
    requires ForeignKeysHold(rows, clients, drivers, vehicles)
    requires forall c :: c in clients ==> c in txClients
    requires Find(txClients, ClientWithId(row.clientId)).Some?
    requires row.driverId.None? && row.vehicleId.None?
    ensures ForeignKeysHold(rows + [row], txClients, drivers, vehicles)
  {
    forall x | x in rows
      ensures Find(txClients, ClientWithId(x.clientId)).Some?
    {
      FindKeptInLarger(clients, txClients, ClientWithId(x.clientId));
    }
  }

  /** Replacing row `i` by one with the same key and client keeps every table invariant. */
  lemma SingleRowChange(rows: seq<JobRow>, i: nat, row: JobRow)
    requires i < |rows| && row.id == rows[i].id && row.clientId == rows[i].clientId
    requires JobIdsUnique(rows)
    ensures JobIdsUnique(rows[i := row])
    ensures forall k :: 0 <= k < |rows| ==> rows[i := row][k] == if rows[k].id == row.id then row else rows[k]
    ensures forall x :: x in rows[i := row] ==> x == row || x in rows
  {
    forall x | x in rows[i := row]
      ensures x == row || x in rows
    {
      var k :| 0 <= k < |rows| && rows[i := row][k] == x;
      if k != i {
        assert x == rows[k];
      }
    }
  }
}

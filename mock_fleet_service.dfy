/**
 * The web client's in-memory stand-in for the server, used when the server
 * does not answer: a module-level list of jobs seeded with two sample jobs and
 * an id counter that starts at 3.  Creating a job appends it and advances the
 * counter; listing by date filters the list.  The artificial delays are not
 * part of this model.
 */
module MockFleetService {
  import opened FleetTypes
  import opened Collections

  /** The filter the mock applies: the job's pickup date is exactly `date`. */
  function OnDate(date: string): Job -> bool
  {
    (j: Job) => j.pickupDate == date
  }

  /** The jobs of `jobs` picked up on `date`, in list order. */
  function JobsOnDate(jobs: seq<Job>, date: string): (r: seq<Job>)
    ensures forall j :: j in r <==> j in jobs && j.pickupDate == date
    ensures forall j :: multiset(r)[j] == if j.pickupDate == date then multiset(jobs)[j] else 0
  {
    Filter(jobs, OnDate(date))
  }

  /** Appending a job adds it at the end of its own date's listing and leaves other dates' listings alone. */
  lemma JobsOnDateAppend(jobs: seq<Job>, job: Job, date: string)
    ensures JobsOnDate(jobs + [job], date)
         == JobsOnDate(jobs, date) + (if job.pickupDate == date then [job] else [])
  {
    FilterAppend(jobs, [job], OnDate(date));
    assert [job][1..] == [];
  }

  /** Ids strictly increase along the list and stay below the counter. */
  ghost predicate IdsIncreasingBelow(jobs: seq<Job>, bound: nat)
  {
    && (forall i, k :: 0 <= i < k < |jobs| ==> jobs[i].id < jobs[k].id)
    && (forall i :: 0 <= i < |jobs| ==> jobs[i].id < bound)
  }

  lemma AppendKeepsIdsIncreasing(jobs: seq<Job>, bound: nat, job: Job)
    requires IdsIncreasingBelow(jobs, bound)
    requires job.id == bound
    ensures IdsIncreasingBelow(jobs + [job], bound + 1)
    ensures forall j :: j in jobs ==> j.id < job.id
  {
    var s := jobs + [job];
    forall i, k | 0 <= i < k < |s|
      ensures s[i].id < s[k].id
    {
      if k < |jobs| {
        assert s[i] == jobs[i] && s[k] == jobs[k];
      } else {
        assert s[i] == jobs[i] && s[k] == job;
      }
    }
  }

  /** Every job's client id is its client's key. */
  ghost predicate ClientKeysMatch(jobs: seq<Job>)
  {
    forall i :: 0 <= i < |jobs| ==> jobs[i].client.id == jobs[i].clientId
  }

  lemma AppendKeepsClientKeys(jobs: seq<Job>, job: Job)
    requires ClientKeysMatch(jobs) && job.client.id == job.clientId
    ensures ClientKeysMatch(jobs + [job])
  {
    var s := jobs + [job];
    forall i | 0 <= i < |s|
      ensures s[i].client.id == s[i].clientId
    {
      if i < |jobs| {
        assert s[i] == jobs[i];
      }
    }
  }

  /** Every client key handed out so far is at most the counter. */
  ghost predicate ClientKeysAtMost(jobs: seq<Job>, bound: nat)
  {
    forall i :: 0 <= i < |jobs| ==> jobs[i].clientId <= bound
  }

  lemma AppendKeepsClientKeysAtMost(jobs: seq<Job>, bound: nat, job: Job)
    requires ClientKeysAtMost(jobs, bound)
    requires job.clientId == bound + 1
    ensures ClientKeysAtMost(jobs + [job], bound + 1)
    ensures forall j :: j in jobs ==> j.clientId < job.clientId
  {
    var s := jobs + [job];
    forall i | 0 <= i < |s|
      ensures s[i].clientId <= bound + 1
    {
      if i < |jobs| {
        assert s[i] == jobs[i];
      }
    }
  }

  lemma IdsDistinct(jobs: seq<Job>, bound: nat, i: nat, k: nat)
    requires IdsIncreasingBelow(jobs, bound)
    requires i < |jobs| && k < |jobs| && i != k
    ensures jobs[i].id != jobs[k].id
  {
    if i < k {
      assert jobs[i].id < jobs[k].id;
    } else {
      assert jobs[k].id < jobs[i].id;
    }
  }

  class MockFleetService {
    var jobs: seq<Job>
    var nextId: nat

    ghost predicate Valid()
      reads this
    {
      && nextId >= 3
      && IdsIncreasingBelow(jobs, nextId)
      && ClientKeysMatch(jobs)
      && ClientKeysAtMost(jobs, nextId)
    }

    /** The two sample jobs of 9 October 2025, and the counter at 3. */
    constructor ()
      ensures Valid()
      ensures nextId == 3 && |jobs| == 2
      ensures jobs[0].id == 1 && jobs[1].id == 2
      ensures jobs[0].pickupDate == "2025-10-09" && jobs[1].pickupDate == "2025-10-09"
      ensures jobs[0].status == Scheduled && jobs[1].status == Scheduled
    {
      var john := Driver(1, "John Doe", "john.doe@example.com", Some("+1234567890"), true);
      var jane := Driver(2, "Jane Smith", "jane.smith@example.com", Some("+1987654321"), true);
      var transit := Vehicle(1, "Ford", "Transit", Some(2022), "ABC123", Some("1FTRE342X5HA12345"), true);
      var sprinter := Vehicle(2, "Mercedes-Benz", "Sprinter", Some(2023), "XYZ789", Some("WD3RE542X5HA67890"), true);
      jobs := [
        Job(1, 1, Client(1, "ABC Corporation"), "2025-10-09", "09:00",
            "123 Main St, City A", "456 Oak St, City B", Scheduled,
            Some(1), Some(john), Some(1), Some(transit)),
        Job(2, 2, Client(2, "XYZ Ltd"), "2025-10-09", "14:30",
            "789 Pine St, City C", "321 Elm St, City D", Scheduled,
            Some(2), Some(jane), Some(2), Some(sprinter))
      ];
      nextId := 3;
    }

    /**
     * Appends a new SCHEDULED job without driver or vehicle.  The job takes the
     * counter's value as its id; the counter is then incremented and its new
     * value becomes the id of a fresh client carrying the requested name.
     */
    method CreateJob(req: CreateJobRequest) returns (job: Job)
      requires Valid()
      modifies this
      ensures Valid()
      ensures jobs == old(jobs) + [job]
      ensures job.id == old(nextId) && nextId == old(nextId) + 1
      ensures forall j :: j in old(jobs) ==> j.id < job.id
      ensures job.clientId == job.id + 1 && job.client == Client(job.id + 1, req.clientName)
      ensures forall j :: j in old(jobs) ==> j.clientId < job.clientId && j.client.id != job.client.id
      ensures job.pickupDate == req.pickupDate && job.pickupTime == req.pickupTime
      ensures job.pickupLocation == req.pickupLocation && job.dropOffLocation == req.dropOffLocation
      ensures job.status == Scheduled
      ensures job.driverId == None && job.driver == None && job.vehicleId == None && job.vehicle == None
      ensures GetJobsByDate(req.pickupDate) == old(GetJobsByDate(req.pickupDate)) + [job]
    {
      var id := nextId;
      var clientId := id + 1;
      job := Job(id, clientId, Client(clientId, req.clientName),
                 req.pickupDate, req.pickupTime, req.pickupLocation, req.dropOffLocation,
                 Scheduled, None, None, None, None);
      JobsOnDateAppend(jobs, job, req.pickupDate);
      AppendKeepsIdsIncreasing(jobs, id, job);
      AppendKeepsClientKeys(jobs, job);
      AppendKeepsClientKeysAtMost(jobs, id, job);
      jobs := jobs + [job];
      nextId := clientId;
    }

    /** The stored jobs picked up on `date`, in list order; the list itself is not touched. */
    function GetJobsByDate(date: string): (r: seq<Job>)
      reads this
      ensures forall j :: j in r <==> j in jobs && j.pickupDate == date
      ensures forall j :: multiset(r)[j] == if j.pickupDate == date then multiset(jobs)[j] else 0
    {
      JobsOnDate(jobs, date)
    }

    /** The schedule of `date`: the date itself with that date's jobs. */
    function GetDailySchedule(date: string): (s: DailySchedule)
      reads this
      ensures s.date == date
      ensures s.jobs == GetJobsByDate(date)
      ensures forall j :: j in s.jobs <==> j in jobs && j.pickupDate == date
    {
      DailySchedule(date, GetJobsByDate(date))
    }
  }
}

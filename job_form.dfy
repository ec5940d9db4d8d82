/**
 * The "Schedule New Job" form of the web client: five text fields, a
 * loading flag, an error message and a success flag.  Submitting sends the
 * fields to the fleet service; on success the fields are cleared, the success
 * flag is raised and the parent is told to refresh its schedule; on failure
 * the error's message is shown and the fields are kept.
 */
module JobForm {
  import opened FleetTypes
  import MockFleetService
  import FleetService
  import JobController

  datatype Field = ClientName | PickupDate | PickupTime | PickupLocation | DropOffLocation

  const EmptyForm := CreateJobRequest("", "", "", "", "")

  /** What an awaited call ended with: it returned, or it threw a value (an Error object or anything else). */
  datatype Thrown = ErrorObject(message: string) | OtherValue
  datatype Completion = Returned | Threw(thrown: Thrown)

  const DefaultErrorMessage := "Failed to create job"

  function Get(form: CreateJobRequest, f: Field): string
  {
    match f
    case ClientName => form.clientName
    case PickupDate => form.pickupDate
    case PickupTime => form.pickupTime
    case PickupLocation => form.pickupLocation
    case DropOffLocation => form.dropOffLocation
  }

  /** The form with field `f` replaced by `value`; the other four fields are kept. */
  function Set(form: CreateJobRequest, f: Field, value: string): (r: CreateJobRequest)
    ensures Get(r, f) == value
    ensures forall g :: g != f ==> Get(r, g) == Get(form, g)
  {
    match f
    case ClientName => form.(clientName := value)
    case PickupDate => form.(pickupDate := value)
    case PickupTime => form.(pickupTime := value)
    case PickupLocation => form.(pickupLocation := value)
    case DropOffLocation => form.(dropOffLocation := value)
  }

  /** The form is valid when all five fields are non-empty strings. */
  predicate IsFormValid(form: CreateJobRequest)
  {
    && form.clientName != "" && form.pickupDate != "" && form.pickupTime != ""
    && form.pickupLocation != "" && form.dropOffLocation != ""
  }

  lemma IsFormValidEveryField(form: CreateJobRequest)
    ensures IsFormValid(form) <==> forall f :: Get(form, f) != ""
  {
    if !IsFormValid(form) {
      if form.clientName == "" { assert Get(form, ClientName) == ""; }
      else if form.pickupDate == "" { assert Get(form, PickupDate) == ""; }
      else if form.pickupTime == "" { assert Get(form, PickupTime) == ""; }
      else if form.pickupLocation == "" { assert Get(form, PickupLocation) == ""; }
      else { assert Get(form, DropOffLocation) == ""; }
    }
  }

  /** The submit button is disabled while a submission is pending or while the form is invalid. */
  predicate SubmitDisabled(form: CreateJobRequest, loading: bool)
  {
    !IsFormValid(form) || loading
  }

  /** The form as the server receives it: every field present. */
  function BodyOf(form: CreateJobRequest): (body: JobBody)
    ensures body.clientName == Some(form.clientName) && body.pickupDate == Some(form.pickupDate)
    ensures body.pickupTime == Some(form.pickupTime)
    ensures body.pickupLocation == Some(form.pickupLocation) && body.dropOffLocation == Some(form.dropOffLocation)
  {
    JobBody(Some(form.clientName), Some(form.pickupDate), Some(form.pickupTime),
            Some(form.pickupLocation), Some(form.dropOffLocation))
  }

  /** Whatever the button lets through passes the server's request check. */
  lemma EnabledSubmitPassesServerCheck(form: CreateJobRequest)
    requires !SubmitDisabled(form, false)
    ensures JobController.CreateRequestValid(BodyOf(form))
  {
  }

  /** The message shown for a thrown value: an Error's own message, anything else the fixed default. */
  function ErrorMessage(t: Thrown): (m: string)
    ensures t.ErrorObject? ==> m == t.message
    ensures t.OtherValue? ==> m == DefaultErrorMessage
  {
    match t
    case ErrorObject(message) => message
    case OtherValue => DefaultErrorMessage
  }

  /** How a fleet-service call completes: every failure it reports is thrown as an Error object. */
  function CompletionOf(r: Result<Job>): (c: Completion)
    ensures c.Returned? <==> r.Ok?
    ensures r.Err? ==> c == Threw(ErrorObject(r.message))
  {
    match r
    case Ok(_) => Returned
    case Err(message) => Threw(ErrorObject(message))
  }

  /** A failure of the fleet service is shown with its own message, never with the default. */
  lemma ServiceErrorShownVerbatim(r: Result<Job>)
    requires r.Err?
    ensures CompletionOf(r).Threw? && ErrorMessage(CompletionOf(r).thrown) == r.message
  {
  }

  class JobFormState {
    var formData: CreateJobRequest
    var loading: bool
    var error: Option<string>
    var success: bool

    /** A fresh form: empty fields, idle, no message. */
    constructor ()
      ensures formData == EmptyForm && !loading && error == None && !success
    {
      formData := EmptyForm;
      loading := false;
      error := None;
      success := false;
    }

    /**
     * Typing into a field replaces that field only.  A shown error is cleared
     * (an empty message counts as none shown and stays), and so is the success flag.
     */
    method HandleInputChange(field: Field, value: string)
      modifies this
      ensures formData == Set(old(formData), field, value)
      ensures Get(formData, field) == value
      ensures forall g :: g != field ==> Get(formData, g) == Get(old(formData), g)
      ensures Truthy(old(error)) ==> error == None
      ensures !Truthy(old(error)) ==> error == old(error)
      ensures !success && loading == old(loading)
    {
      formData := Set(formData, field, value);
      if Truthy(error) {
        error := None;
      }
      if success {
        success := false;
      }
    }

    /** The part of a submission before the service call: pending, no error, the current fields sent. */
    method BeginSubmit() returns (sent: CreateJobRequest)
      modifies this
      ensures sent == old(formData) && formData == old(formData)
      ensures loading && error == None && success == old(success)
      ensures SubmitDisabled(formData, loading)
    {
      loading := true;
      error := None;
      sent := formData;
    }

    /**
     * The part after the service call.  On return: fields cleared, success
     * raised, the parent notified.  On a throw: the message shown, the fields
     * and the success flag as they were.  Either way no longer pending.
     */
    method FinishSubmit(completion: Completion) returns (notified: bool)
      modifies this
      ensures !loading
      ensures notified <==> completion.Returned?
      ensures completion.Returned? ==> formData == EmptyForm && success && error == old(error)
      ensures completion.Threw? ==>
                formData == old(formData) && success == old(success)
                && error == Some(ErrorMessage(completion.thrown))
    {
      notified := false;
      match completion {
        case Returned =>
          success := true;
          formData := EmptyForm;
          notified := true;
        case Threw(thrown) =>
          error := Some(ErrorMessage(thrown));
      }
      loading := false;
    }

    /**
     * A whole submission through the fleet service.  With the server
     * unreachable the mock takes the job and the submission always succeeds;
     * otherwise the outcome is the server's.
     */
    method HandleSubmit(probe: FleetService.ProbeOutcome, reply: FleetService.Fetched<Job>,
                        mock: MockFleetService.MockFleetService) returns (notified: bool)
      requires mock.Valid()
      modifies this, mock
      ensures mock.Valid() && !loading
      ensures var r := FleetService.RealCreateJob(old(formData), reply);
              FleetService.IsBackendAvailable(probe) ==>
                && unchanged(mock)
                && (notified <==> r.Ok?)
                && (r.Ok? ==> formData == EmptyForm && success && error == None)
                && (r.Err? ==> formData == old(formData) && success == old(success) && error == Some(r.message))
      ensures !FleetService.IsBackendAvailable(probe) ==>
                && notified && formData == EmptyForm && success && error == None
                && |mock.jobs| == |old(mock.jobs)| + 1
                && mock.jobs[|mock.jobs| - 1].client.name == old(formData).clientName
                && mock.jobs[|mock.jobs| - 1].pickupDate == old(formData).pickupDate
    {
      var sent := BeginSubmit();
      var r := FleetService.CreateJob(sent, probe, reply, mock);
      notified := FinishSubmit(CompletionOf(r));
    }
  }
}

/**
 * The earlier copy of the "Schedule New Job" form, kept in a second client
 * tree.  It behaves like the current form except that its pickup-location
 * field is named `pickupLocations` (so the request it sends carries no
 * `pickupLocation`) and its fallback error message reads "Failed to creat job".
 * That client's own fleet service is not part of this model: the outcome of
 * the call is an input.
 */
module LegacyJobForm {
  import opened FleetTypes
  import JobModel
  import JobController
  import JobForm

  datatype Field = ClientName | PickupDate | PickupTime | PickupLocations | DropOffLocation

  datatype FormData = FormData(clientName: string, pickupDate: string, pickupTime: string,
                               pickupLocations: string, dropOffLocation: string)

  const EmptyForm := FormData("", "", "", "", "")

  const DefaultErrorMessage := "Failed to creat job"

  function Get(form: FormData, f: Field): string
  {
    match f
    case ClientName => form.clientName
    case PickupDate => form.pickupDate
    case PickupTime => form.pickupTime
    case PickupLocations => form.pickupLocations
    case DropOffLocation => form.dropOffLocation
  }

  /** The form with field `f` replaced by `value`; the other four fields are kept. */
  function Set(form: FormData, f: Field, value: string): (r: FormData)
    ensures Get(r, f) == value
    ensures forall g :: g != f ==> Get(r, g) == Get(form, g)
  {
    match f
    case ClientName => form.(clientName := value)
    case PickupDate => form.(pickupDate := value)
    case PickupTime => form.(pickupTime := value)
    case PickupLocations => form.(pickupLocations := value)
    case DropOffLocation => form.(dropOffLocation := value)
  }

  /** The form is valid when all five fields are non-empty strings. */
  predicate IsFormValid(form: FormData)
  {
    && form.clientName != "" && form.pickupDate != "" && form.pickupTime != ""
    && form.pickupLocations != "" && form.dropOffLocation != ""
  }

  lemma IsFormValidEveryField(form: FormData)
    ensures IsFormValid(form) <==> forall f :: Get(form, f) != ""
  {
    if !IsFormValid(form) {
      if form.clientName == "" { assert Get(form, ClientName) == ""; }
      else if form.pickupDate == "" { assert Get(form, PickupDate) == ""; }
      else if form.pickupTime == "" { assert Get(form, PickupTime) == ""; }
      else if form.pickupLocations == "" { assert Get(form, PickupLocations) == ""; }
      else { assert Get(form, DropOffLocation) == ""; }
    }
  }

  predicate SubmitDisabled(form: FormData, loading: bool)
  {
    !IsFormValid(form) || loading
  }

  /**
   * The form as the server receives it: the pickup location travels under the
   * key `pickupLocations`, which the server does not read, so it arrives absent.
   */
  function BodyOf(form: FormData): (body: JobBody)
    ensures body.clientName == Some(form.clientName) && body.pickupDate == Some(form.pickupDate)
    ensures body.pickupTime == Some(form.pickupTime) && body.dropOffLocation == Some(form.dropOffLocation)
    ensures body.pickupLocation == None
  {
    JobBody(Some(form.clientName), Some(form.pickupDate), Some(form.pickupTime), None, Some(form.dropOffLocation))
  }

  /**
   * The server's request check lets every submittable legacy form through,
   * but the job row cannot be written without a pickup location: the server
   * answers 500 and stores nothing.
   */
  method SubmitToServer(store: JobModel.JobStore, form: FormData, fault: Option<JobModel.TxStep>)
    returns (resp: JobController.Response)
    requires store.Valid()
    requires !SubmitDisabled(form, false)
    modifies store
    ensures store.Valid()
    ensures resp.status == 500
    ensures resp.payload == JobController.ErrorPayload(JobController.InternalErrorMessage)
    ensures store.jobs == old(store.jobs) && store.clients == old(store.clients)
  {
    assert JobController.CreateRequestValid(BodyOf(form));
    resp := JobController.ServeCreateJob(store, BodyOf(form), fault);
  }

  function ErrorMessage(t: JobForm.Thrown): (m: string)
    ensures t.ErrorObject? ==> m == t.message
    ensures t.OtherValue? ==> m == DefaultErrorMessage
  {
    match t
    case ErrorObject(message) => message
    case OtherValue => DefaultErrorMessage
  }

  class LegacyJobFormState {
    var formData: FormData
    var loading: bool
    var error: Option<string>
    var success: bool

    constructor ()
      ensures formData == EmptyForm && !loading && error == None && !success
    {
      formData := EmptyForm;
      loading := false;
      error := None;
      success := false;
    }

    /** Typing replaces one field, clears a shown (non-empty) error and the success flag. */
    method HandleInputChange(field: Field, value: string)
      modifies this
      ensures formData == Set(old(formData), field, value)
      ensures Get(formData, field) == value
      ensures forall g :: g != field ==> Get(formData, g) == Get(old(formData), g)
      ensures Truthy(old(error)) ==> error == None
      ensures !Truthy(old(error)) ==> error == old(error)
      ensures !success && loading == old(loading)
    {
      formData := Set(formData, field, value);
      if Truthy(error) {
        error := None;
      }
      if success {
        success := false;
      }
    }

    /** Before the service call: pending, no error, the current fields sent. */
    method BeginSubmit() returns (sent: FormData)
      modifies this
      ensures sent == old(formData) && formData == old(formData)
      ensures loading && error == None && success == old(success)
      ensures SubmitDisabled(formData, loading)
    {
      loading := true;
      error := None;
      sent := formData;
    }

    /** After the service call: cleared and notified on return, message shown on a throw; no longer pending. */
    method FinishSubmit(completion: JobForm.Completion) returns (notified: bool)
      modifies this
      ensures !loading
      ensures notified <==> completion.Returned?
      ensures completion.Returned? ==> formData == EmptyForm && success && error == old(error)
      ensures completion.Threw? ==>
                formData == old(formData) && success == old(success)
                && error == Some(ErrorMessage(completion.thrown))
    {
      notified := false;
      match completion {
        case Returned =>
          success := true;
          formData := EmptyForm;
          notified := true;
        case Threw(thrown) =>
          error := Some(ErrorMessage(thrown));
      }
      loading := false;
    }

    /** A whole submission whose service call completed with `completion`. */
    method HandleSubmit(completion: JobForm.Completion) returns (sent: FormData, notified: bool)
      modifies this
      ensures sent == old(formData) && !loading
      ensures notified <==> completion.Returned?
      ensures completion.Returned? ==> formData == EmptyForm && success && error == None
      ensures completion.Threw? ==>
                formData == old(formData) && success == old(success)
                && error == Some(ErrorMessage(completion.thrown))
    {
      sent := BeginSubmit();
      notified := FinishSubmit(completion);
    }
  }
}

/**
 * The job detail dialog of the web client: how a status is coloured and
 * labelled, which of the four status buttons can be pressed, and the
 * loading/error transitions around a status update request.
 */
module JobDetailModal {
  import opened FleetTypes

  const ScheduledColor := "bg-yellow-100 text-yellow-800 border-yellow-200"
  const InProgressColor := "bg-blue-100 text-blue-800 border-blue-200"
  const CompletedColor := "bg-green-100 text-green-800 border-green-200"
  const CancelledColor := "bg-red-100 text-red-800 border-red-200"
  const DefaultColor := "bg-gray-100 text-gray-800 border-gray-200"

  const UpdateFailedMessage := "Failed to update job status"

  function ColorOf(s: Status): string
  {
    match s
    case Scheduled => ScheduledColor
    case InProgress => InProgressColor
    case Completed => CompletedColor
    case Cancelled => CancelledColor
  }

  /** The badge classes of a status string: its own colour for one of the four codes, grey for anything else. */
  function StatusColor(status: string): (c: string)
    ensures forall s :: status == StatusCode(s) ==> c == ColorOf(s)
    ensures (forall s :: status != StatusCode(s)) ==> c == DefaultColor
  {
    match ParseStatus(status)
    case Some(s) => ParseStatusCode(s); ColorOf(s)
    case None => DefaultColor
  }

  /** The colour classes differ at their sixth character: yel-, blu-, gre-, red, gra-. */
  lemma ColorOfDistinct(s: Status, t: Status)
    ensures ColorOf(s) != DefaultColor
    ensures s != t ==> ColorOf(s) != ColorOf(t)
  {
    assert ScheduledColor[5] == 'l' && InProgressColor[5] == 'u' && CompletedColor[5] == 'e';
    assert CancelledColor[5] == 'd' && DefaultColor[5] == 'a';
  }

  /** The four statuses get four different colours, none of them the grey default. */
  lemma StatusColorsDistinct(s: Status, t: Status)
    ensures StatusColor(StatusCode(s)) != DefaultColor
    ensures s != t ==> StatusColor(StatusCode(s)) != StatusColor(StatusCode(t))
  {
    assert StatusColor(StatusCode(s)) == ColorOf(s);
    assert StatusColor(StatusCode(t)) == ColorOf(t);
    ColorOfDistinct(s, t);
  }

  /** The position of the first `c` in `s`, or `|s|` when there is none. */
  function IndexOf(s: string, c: char): (k: nat)
    ensures k <= |s|
    ensures c !in s[..k]
    ensures k < |s| ==> s[k] == c
  {
    if s == [] then 0
    else if s[0] == c then 0
    else
      var k := 1 + IndexOf(s[1..], c);
      assert s[..k] == [s[0]] + s[1..][..k - 1];
      k
  }

  /** `s` with its first `from` replaced by `to`; every other character is kept. */
  function ReplaceFirst(s: string, from: char, to: char): (r: string)
    ensures |r| == |s|
    ensures forall i :: 0 <= i < |s| && s[i] != from ==> r[i] == s[i]
  {
    if s == [] then []
    else if s[0] == from then [to] + s[1..]
    else [s[0]] + ReplaceFirst(s[1..], from, to)
  }

  /** Only the first occurrence changes: before it nothing, after it nothing. */
  lemma {:induction false} ReplaceFirstAt(s: string, from: char, to: char)
    ensures var k := IndexOf(s, from);
            ReplaceFirst(s, from, to) == if k < |s| then s[..k] + [to] + s[k + 1..] else s
  {
    if s != [] && s[0] != from {
      var t := s[1..];
      ReplaceFirstAt(t, from, to);
      var k := IndexOf(s, from);
      assert k == 1 + IndexOf(t, from);
      if k < |s| {
        assert s[..k] == [s[0]] + t[..k - 1];
        assert s[k + 1..] == t[k..];
      } else {
        assert s == [s[0]] + t;
      }
    }
  }

  /** ASCII lower-casing of one character. */
  function LowerChar(c: char): char
  {
    if 'A' <= c <= 'Z' then (c as int + 32) as char else c
  }

  function ToLower(s: string): (r: string)
    ensures |r| == |s|
    ensures forall i :: 0 <= i < |s| ==> r[i] == LowerChar(s[i])
  {
    if s == [] then [] else [LowerChar(s[0])] + ToLower(s[1..])
  }

  /** The text shown for a status code: its first underscore turned into a space, then lower-cased. */
  function StatusLabel(code: string): (text: string)
    ensures |text| == |code|
    ensures forall i :: 0 <= i < |code| ==>
              text[i] == if i == IndexOf(code, '_') then ' ' else LowerChar(code[i])
    ensures forall i :: 0 <= i < |code| && code[i] != '_' && !('A' <= code[i] <= 'Z') ==> text[i] == code[i]
  {
    ReplaceFirstAt(code, '_', ' ');
    ToLower(ReplaceFirst(code, '_', ' '))
  }

  /** A label is known once its code's first underscore is replaced and each character lower-cased. */
  lemma {:induction false} LabelIs(code: string, replaced: string, expected: string)
    requires ReplaceFirst(code, '_', ' ') == replaced
    requires |expected| == |replaced|
    requires forall i :: 0 <= i < |replaced| ==> expected[i] == LowerChar(replaced[i])
    ensures StatusLabel(code) == expected
  {
  }

  /** A code without underscore is left as it is. */
  lemma {:induction false} ReplaceAbsent(code: string)
    requires '_' !in code
    ensures ReplaceFirst(code, '_', ' ') == code
  {
    ReplaceFirstAt(code, '_', ' ');
  }

  lemma ReplaceInProgress()
    ensures ReplaceFirst("IN_PROGRESS", '_', ' ') == "IN PROGRESS"
  {
    ReplaceFirstAt("IN_PROGRESS", '_', ' ');
    assert IndexOf("IN_PROGRESS", '_') == 2 by {
      assert "IN_PROGRESS"[2] == '_' && "IN_PROGRESS"[0] != '_' && "IN_PROGRESS"[1] != '_';
      assert "IN_PROGRESS"[..3][2] == '_';
    }
  }

  lemma ScheduledLabel()
    ensures StatusLabel("SCHEDULED") == "scheduled"
  {
    ReplaceAbsent("SCHEDULED");
    LabelIs("SCHEDULED", "SCHEDULED", "scheduled");
  }

  lemma InProgressLabel()
    ensures StatusLabel("IN_PROGRESS") == "in progress"
  {
    ReplaceInProgress();
    LabelIs("IN_PROGRESS", "IN PROGRESS", "in progress");
  }

  lemma CompletedLabel()
    ensures StatusLabel("COMPLETED") == "completed"
  {
    ReplaceAbsent("COMPLETED");
    LabelIs("COMPLETED", "COMPLETED", "completed");
  }

  lemma CancelledLabel()
    ensures StatusLabel("CANCELLED") == "cancelled"
  {
    ReplaceAbsent("CANCELLED");
    LabelIs("CANCELLED", "CANCELLED", "cancelled");
  }

  /** The four labels: "scheduled", "in progress", "completed", "cancelled". */
  lemma StatusLabels()
    ensures StatusLabel(StatusCode(Scheduled)) == "scheduled"
    ensures StatusLabel(StatusCode(InProgress)) == "in progress"
    ensures StatusLabel(StatusCode(Completed)) == "completed"
    ensures StatusLabel(StatusCode(Cancelled)) == "cancelled"
  {
    ScheduledLabel();
    InProgressLabel();
    CompletedLabel();
    CancelledLabel();
  }

  /** Only the first underscore becomes a space: "A_B_C" is shown as "a b_c". */
  lemma OnlyFirstUnderscoreReplaced()
    ensures StatusLabel("A_B_C") == "a b_c"
  {
    ReplaceFirstAt("A_B_C", '_', ' ');
    assert IndexOf("A_B_C", '_') == 1 by {
      assert "A_B_C"[1] == '_' && "A_B_C"[0] != '_';
      assert "A_B_C"[..2][1] == '_';
    }
    LabelIs("A_B_C", "A B_C", "a b_c");
  }

  /** The status buttons, in the order they are shown. */
  const StatusButtons: seq<Status> := [Scheduled, InProgress, Completed, Cancelled]

  /** Every status has exactly one button. */
  lemma StatusButtonsOncePerStatus(s: Status)
    ensures s in StatusButtons
    ensures forall i, k :: 0 <= i < k < |StatusButtons| ==> StatusButtons[i] != StatusButtons[k]
  {
  }

  /** A button cannot be pressed while an update is pending, nor for the job's current status. */
  predicate ButtonDisabled(loading: bool, current: Status, button: Status)
  {
    loading || current == button
  }

  /** When idle exactly the current status's button is disabled; while loading all four are. */
  lemma ButtonsEnabledIdle(current: Status)
    ensures forall i :: 0 <= i < |StatusButtons| ==>
              (ButtonDisabled(false, current, StatusButtons[i]) <==> StatusButtons[i] == current)
    ensures exists i :: 0 <= i < |StatusButtons| && ButtonDisabled(false, current, StatusButtons[i])
    ensures forall i :: 0 <= i < |StatusButtons| ==> ButtonDisabled(true, current, StatusButtons[i])
  {
    match current
    case Scheduled => assert StatusButtons[0] == current;
    case InProgress => assert StatusButtons[1] == current;
    case Completed => assert StatusButtons[2] == current;
    case Cancelled => assert StatusButtons[3] == current;
  }

  /** The status update sent: PATCH of the new status code for the job's id. */
  datatype StatusRequest = StatusRequest(jobId: Id, status: string)

  /** How the request ended: the fetch rejected, or a response arrived (`ok` or not). */
  datatype FetchOutcome = FetchRejected | FetchResolved(ok: bool)

  /** The parent callbacks a finished update calls, in order. */
  datatype Callback = TriggerRefresh | OnUpdate

  class JobDetailModalState {
    const job: Job
    var loading: bool
    var error: Option<string>

    constructor (job: Job)
      ensures this.job == job && !loading && error == None
    {
      this.job := job;
      loading := false;
      error := None;
    }

    /** Before the request: pending, no error, the new status sent for this job. */
    method BeginUpdate(newStatus: Status) returns (request: StatusRequest)
      modifies this
      ensures loading && error == None
      ensures request == StatusRequest(job.id, StatusCode(newStatus))
      ensures forall s :: ButtonDisabled(loading, job.status, s)
    {
      loading := true;
      error := None;
      request := StatusRequest(job.id, StatusCode(newStatus));
    }

    /**
     * After the request.  Any response, successful or not, refreshes the
     * dashboard and notifies the parent; only a rejected fetch shows the error.
     */
    method FinishUpdate(outcome: FetchOutcome) returns (callbacks: seq<Callback>)
      modifies this
      ensures !loading
      ensures outcome.FetchResolved? ==> callbacks == [TriggerRefresh, OnUpdate] && error == old(error)
      ensures outcome.FetchRejected? ==> callbacks == [] && error == Some(UpdateFailedMessage)
    {
      match outcome {
        case FetchResolved(_) =>
          callbacks := [TriggerRefresh, OnUpdate];
        case FetchRejected =>
          callbacks := [];
          error := Some(UpdateFailedMessage);
      }
      loading := false;
    }

    /** A whole status update whose request ended with `outcome`. */
    method UpdateJobStatus(newStatus: Status, outcome: FetchOutcome)
      returns (request: StatusRequest, callbacks: seq<Callback>)
      modifies this
      ensures request == StatusRequest(job.id, StatusCode(newStatus))
      ensures !loading
      ensures outcome.FetchResolved? ==> callbacks == [TriggerRefresh, OnUpdate] && error == None
      ensures outcome.FetchRejected? ==> callbacks == [] && error == Some(UpdateFailedMessage)
    {
      request := BeginUpdate(newStatus);
      callbacks := FinishUpdate(outcome);
    }
  }
}

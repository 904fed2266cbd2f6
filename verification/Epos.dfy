// The ePOS-Print client's verdict on a job (core/src/epos.cpp, Client::classify and
// Client::print): one submission answer, then retrievals until an answer settles it or the
// time is up.

module Epos {
  import opened PrinterTypes

  datatype ResponseCode =
    | NoCode
    | EptrAutomatical | EptrBatteryLow | EptrCoverOpen | EptrCutter | EptrMechanical | EptrRecEmpty
    | EptrUnrecoverable | ErrorWaitEject
    | SchemaError | DeviceNotFound | PrintSystemError | ExBadport | ExTimeout | ExSpooler | TooManyRequests
    | RequestEntityTooLarge
    | JobNotFound | Printing | JobSpooling
    | Unrecognised

  type uint32 = x: int | 0 <= x < 0x1_0000_0000

  // What a reply said; `parsed` is false when nothing answered or it was not this service.
  datatype Response = Response(parsed: bool, success: bool, code: ResponseCode, status: uint32)

  predicate Bit(status: uint32, weight: nat)
    requires weight > 0
  {
    status / weight % 2 == 1
  }

  const PRINTING_COMPLETED := 0x2
  const CUTTER_ERROR := 0x800
  const SPOOLER_STOPPED := 0x8000_0000

  predicate IsNonTerminal(code: ResponseCode) { code == Printing || code == JobSpooling }

  function ReasonFor(code: ResponseCode): FailureReason {
    match code
    case EptrCoverOpen => PreflightCoverOpen
    case EptrRecEmpty => PreflightPaperOut
    case EptrCutter => CutterFault
    case EptrAutomatical => PreflightHardwareError
    case EptrBatteryLow => PreflightHardwareError
    case EptrMechanical => PreflightHardwareError
    case EptrUnrecoverable => PreflightHardwareError
    case ErrorWaitEject => PreflightHardwareError
    case ExSpooler => QueueOverflow
    case TooManyRequests => QueueOverflow
    case SchemaError => Unsupported
    case RequestEntityTooLarge => Unsupported
    case DeviceNotFound => TransportUnreachable
    case ExBadport => TransportUnreachable
    case ExTimeout => TimeoutAwaitingCompletion
    case _ => UnknownReason
  }

  datatype Outcome = Outcome(terminal: bool, state: JobState, confidence: ConfidenceLevel, reason: FailureReason,
                             evidence: JobEvidence, accepted: bool, polls: nat, submission: Response, last: Response)

  const SPOOLED := JobEvidence(APlusDurableQueryableJob, VendorSpooler, "ePOS JobID")
  const DIRECT := JobEvidence(AJobLevelConfirmation, PhysicalPrinter, "ePOS-Print response")
  const FAULT := JobEvidence(CDeviceStatusAround, VendorSpooler, "ePOS status")
  const NOTHING := JobEvidence(ETransportOnly, TransportOnly, "transport-only")

  function Verdict(r: Response, state: JobState, c: ConfidenceLevel, reason: FailureReason, e: JobEvidence): Outcome {
    Outcome(true, state, c, reason, e, false, 0, r, r)
  }

  function AskAgain(r: Response): Outcome {
    Outcome(false, BytesSent, TransportAccepted, NoReason, NoEvidence, true, 0, r, r)
  }

  // One answer. `first` marks the submission's own, which with a spooler is only an
  // enqueue acknowledgement whatever its status bits say.
  function Classify(r: Response, spooler: bool, first: bool): Outcome {
    if !r.parsed then Verdict(r, Unknown, TransportAccepted, UnknownReason, NOTHING)
    else if IsNonTerminal(r.code) then AskAgain(r)
    else if r.code == JobNotFound then Verdict(r, Unknown, TransportAccepted, UnknownReason, NOTHING)
    else if !r.success || r.code != NoCode then Verdict(r, FailedKnown, TransportAccepted, ReasonFor(r.code), FAULT)
    else if spooler && first then AskAgain(r)
    else if Bit(r.status, CUTTER_ERROR) then Verdict(r, FailedKnown, PrintAcknowledged, CutterFault, FAULT)
    else if !spooler then Verdict(r, DoneSoftware, CutProcessed, NoReason, DIRECT)
    else if Bit(r.status, PRINTING_COMPLETED) then Verdict(r, DoneSoftware, CutProcessed, NoReason, SPOOLED)
    else if Bit(r.status, SPOOLER_STOPPED) then Verdict(r, FailedKnown, TransportAccepted, PreflightHardwareError, FAULT)
    else AskAgain(r)
  }

  // A retrieval that ends the wait.
  predicate Settles(r: Response, spooler: bool) { r.parsed && Classify(r, spooler, false).terminal }

  predicate FirstSettling(answers: seq<Response>, spooler: bool, k: nat) {
    k < |answers| && Settles(answers[k], spooler) && forall j :: 0 <= j < k ==> !Settles(answers[j], spooler)
  }

  // `unanswered` says that submitting left an error text, `answers` are the retrievals that
  // came back before the deadline.
  method Print(submission: Response, unanswered: bool, hasJobId: bool, spooler: bool, answers: seq<Response>) returns (out: Outcome)
    ensures out.terminal && out.submission == submission
    ensures !submission.parsed ==> out.polls == 0 && if unanswered then out.state == FailedKnown && out.reason == TransportUnreachable
                                                     else out.state == Unknown && out.reason == UnknownReason
    ensures submission.parsed && Classify(submission, spooler, true).terminal ==> out == Classify(submission, spooler, true)
    ensures submission.parsed && !Classify(submission, spooler, true).terminal ==>
              Waited(submission, hasJobId, spooler, answers, out)
  {
    if unanswered && !submission.parsed {
      return Verdict(submission, FailedKnown, TransportAccepted, TransportUnreachable, NOTHING);
    }
    out := Classify(submission, spooler, true);
    if out.terminal { return; }
    if !hasJobId {
      out := out.(terminal := true, state := Unknown, confidence := TransportAccepted, reason := UnknownReason, evidence := NOTHING);
      return;
    }
    out := Retrieve(out, spooler, answers);
  }

  // The loop of retrievals, from an accepted submission on.
  method Retrieve(accepted: Outcome, spooler: bool, answers: seq<Response>) returns (out: Outcome)
    requires accepted.accepted && !accepted.terminal && accepted.polls == 0
    ensures out.terminal && out.submission == accepted.submission
    ensures Waited(accepted.submission, true, spooler, answers, out)
  {
    out := accepted;
    var i := 0;
    while i < |answers|
      invariant 0 <= i <= |answers| && out.polls == i
      invariant out.submission == accepted.submission && out.accepted && !out.terminal
      invariant forall j :: 0 <= j < i ==> !Settles(answers[j], spooler)
    {
      var answer := answers[i];
      i := i + 1;
      out := out.(polls := out.polls + 1);
      if answer.parsed {
        var step := Classify(answer, spooler, false);
        out := step.(polls := out.polls, submission := out.submission, accepted := out.accepted || step.accepted);
        if out.terminal {
          SettledAt(accepted.submission, spooler, answers, i - 1, out);
          return;
        }
      }
    }
    out := out.(terminal := true, state := Unknown, confidence := TransportAccepted, reason := TimeoutAwaitingCompletion, evidence := NOTHING);
  }

  lemma SettledAt(submission: Response, spooler: bool, answers: seq<Response>, k: nat, out: Outcome)
    requires FirstSettling(answers, spooler, k)
    requires out == Classify(answers[k], spooler, false).(polls := k + 1, submission := submission, accepted := true)
    ensures Waited(submission, true, spooler, answers, out)
  {
    forall j: nat | FirstSettling(answers, spooler, j) ensures j == k { }
  }

  // The verdict of a job that had to be waited for: that of the first retrieval to settle
  // it, asked for exactly so often; or Unknown, for want of a job id or of time.
  ghost predicate Waited(submission: Response, hasJobId: bool, spooler: bool, answers: seq<Response>, out: Outcome) {
    && out.accepted
    && (!hasJobId ==> out.state == Unknown && out.reason == UnknownReason && out.polls == 0)
    && (hasJobId && (forall k :: 0 <= k < |answers| ==> !Settles(answers[k], spooler)) ==>
          out.state == Unknown && out.reason == TimeoutAwaitingCompletion && out.polls == |answers|)
    && (hasJobId ==> forall k: nat :: FirstSettling(answers, spooler, k) ==>
          out == Classify(answers[k], spooler, false).(polls := k + 1, submission := submission, accepted := true))
  }

  // --- What a verdict rests on ----------------------------------------------------

  lemma {:induction false} SomeFirst(answers: seq<Response>, spooler: bool, n: nat) returns (k: nat)
    requires n < |answers| && Settles(answers[n], spooler)
    ensures FirstSettling(answers, spooler, k)
    decreases n
  {
    if j :| 0 <= j < n && Settles(answers[j], spooler) {
      k := SomeFirst(answers, spooler, j);
    } else {
      k := n;
    }
  }

  predicate SaysPrinted(r: Response) {
    r.parsed && r.success && r.code == NoCode && Bit(r.status, PRINTING_COMPLETED) && !Bit(r.status, CUTTER_ERROR)
  }

  lemma RetrievalDoneIff(r: Response)
    ensures Classify(r, true, false).state == DoneSoftware <==> SaysPrinted(r)
    ensures SaysPrinted(r) ==> Settles(r, true)
    ensures Classify(r, true, true).state != DoneSoftware
  {
  }

  // With the spooler on, a job is Done exactly when it was accepted under a job id and the
  // first settling retrieval said success, no code, completed and no cutter error. The
  // submission's own answer never makes it so, whatever bits it carries.
  lemma DoneRestsOnARetrieval(submission: Response, hasJobId: bool, answers: seq<Response>, out: Outcome)
    requires submission.parsed
    requires if Classify(submission, true, true).terminal then out == Classify(submission, true, true)
             else Waited(submission, hasJobId, true, answers, out)
    ensures out.state == DoneSoftware <==>
              !Classify(submission, true, true).terminal && hasJobId
              && exists k: nat :: FirstSettling(answers, true, k) && SaysPrinted(answers[k])
    ensures out.state == DoneSoftware ==> out.evidence == SPOOLED && out.polls > 0
  {
    RetrievalDoneIff(submission);
    if !Classify(submission, true, true).terminal && hasJobId {
      if n :| 0 <= n < |answers| && Settles(answers[n], true) {
        var k := SomeFirst(answers, true, n);
        RetrievalDoneIff(answers[k]);
        forall j: nat | FirstSettling(answers, true, j) ensures j == k { }
      }
    }
  }

  // Running out of time is never a failure: an unsettled wait is Unknown.
  lemma SilenceIsUnknown(submission: Response, spooler: bool, answers: seq<Response>, out: Outcome)
    requires submission.parsed && !Classify(submission, spooler, true).terminal && Waited(submission, true, spooler, answers, out)
    ensures out.state == Unknown && out.reason == TimeoutAwaitingCompletion
            <==> forall k :: 0 <= k < |answers| ==> !Settles(answers[k], spooler)
  {
    if n :| 0 <= n < |answers| && Settles(answers[n], spooler) {
      var k := SomeFirst(answers, spooler, n);
      assert out == Classify(answers[k], spooler, false).(polls := k + 1, submission := submission, accepted := true);
    }
  }
}

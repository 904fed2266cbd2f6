// The closed enumerations every component shares (core/include/printerdriver/types.hpp).

module PrinterTypes {

  type byte = x: int | 0 <= x < 256

  const UINT16 := 0x1_0000
  type uint16 = x: int | 0 <= x < UINT16

  datatype Option<+T> = None | Some(value: T)

  datatype JobState =
    | Queued | PreflightOk | SendStarted | BytesSent | PrintConfirmed | CutCommandProcessed
    | DoneSoftware | PhysicallyVerified | FailedKnown | Unknown | HeldOffline

  // PrintAcknowledged and PhysicalProof are the source's PrintConfirmed and
  // PhysicallyVerified levels, renamed apart from the states of the same name.
  datatype ConfidenceLevel =
    | TransportAccepted | PrinterHealthy | PrintAcknowledged | CutProcessed | CutFaultFree
    | PhysicalProof

  datatype FailureReason =
    | NoReason | TransportUnreachable | PreflightCoverOpen | PreflightPaperOut
    | PreflightHardwareError | TimeoutAwaitingCompletion | CutterFault | Unsupported
    | UnknownReason | Expired | QueueOverflow

  datatype ConfidenceGrade =
    | APlusDurableQueryableJob | AJobLevelConfirmation | BOrderedDeviceResponse
    | CDeviceStatusAround | DSpoolerCompleted | ETransportOnly

  datatype CompletionAuthority = PhysicalPrinter | VendorSpooler | PdAgent | PrintServer | TransportOnly

  datatype JobEvidence = JobEvidence(grade: ConfidenceGrade, authority: CompletionAuthority, method_: string)

  // How a wait on a printer ends.
  datatype WaitOutcome = Signalled | LinkDown | Timeout | Aborted

  const NoEvidence := JobEvidence(ETransportOnly, TransportOnly, "none")

  // Position on the evidence ladder; the enumeration order of ConfidenceLevel.
  function Rank(c: ConfidenceLevel): nat {
    match c
    case TransportAccepted => 0
    case PrinterHealthy => 1
    case PrintAcknowledged => 2
    case CutProcessed => 3
    case CutFaultFree => 4
    case PhysicalProof => 5
  }

  // Strength of a grade; larger is stronger, A+ first in the enumeration.
  function GradeStrength(g: ConfidenceGrade): nat {
    match g
    case APlusDurableQueryableJob => 5
    case AJobLevelConfirmation => 4
    case BOrderedDeviceResponse => 3
    case CDeviceStatusAround => 2
    case DSpoolerCompleted => 1
    case ETransportOnly => 0
  }

  predicate IsTerminal(s: JobState) {
    s == DoneSoftware || s == PhysicallyVerified || s == FailedKnown || s == Unknown
  }

  // Reads, or writes, put back together.
  function Flatten(chunks: seq<seq<byte>>): seq<byte> {
    if chunks == [] then [] else chunks[0] + Flatten(chunks[1..])
  }

  lemma FlattenOne(data: seq<byte>)
    ensures Flatten([data]) == data
  {
    var one := [data];
    assert one[1..] == [];
  }

  lemma {:induction false} FlattenConcat(a: seq<seq<byte>>, b: seq<seq<byte>>)
    ensures Flatten(a + b) == Flatten(a) + Flatten(b)
  {
    if a == [] {
      assert a + b == b;
    } else {
      assert (a + b)[0] == a[0] && (a + b)[1..] == a[1..] + b;
      FlattenConcat(a[1..], b);
    }
  }
}

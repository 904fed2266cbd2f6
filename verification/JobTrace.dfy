// What one print attempt does, in the order it happens: the journaled transitions and every
// byte the link took, payload or command (core/src/driver.cpp, runJob and runStarJob). A
// crash anywhere leaves a prefix of such a trace.

module JobTraces {
  import opened PrinterTypes
  import Markers

  // What a transport write is for.
  datatype Purpose = Probing | Printing | Fencing | Cutting | CheckingBlade

  // A journal record, or what the link took of one transport write.
  datatype Action =
    | Record(state: JobState, confidence: ConfidenceLevel, reason: FailureReason, evidence: JobEvidence)
    | Tokens(pair: Markers.Pair)
    | Took(what: Purpose, bytes: seq<byte>)

  type Trace = seq<Action>

  // --- The law every attempt obeys ------------------------------------------------

  // Where an attempt stands: its last journaled state, and what the link has taken.
  datatype View = View(state: JobState, rank: nat, reason: FailureReason, accepted: nat)

  const START := View(Queued, 0, NoReason, 0)

  predicate Edge(a: JobState, b: JobState) {
    match a
    case Queued => b == PreflightOk || b == SendStarted || b == FailedKnown
    case PreflightOk => b == SendStarted
    case SendStarted => b == BytesSent || b == FailedKnown || b == Unknown
    case BytesSent => b == PrintConfirmed || b == DoneSoftware || b == Unknown
    case PrintConfirmed => b == CutCommandProcessed || b == DoneSoftware || b == Unknown
    case CutCommandProcessed => b == DoneSoftware || b == FailedKnown
    case _ => false
  }

  predicate Legal(size: nat, ceiling: ConfidenceLevel, v: View, a: Action) {
    match a
    case Record(s, c, r, _) =>
      && Edge(v.state, s)
      && v.rank <= Rank(c) <= Rank(ceiling)
      && (r == NoReason <==> s != FailedKnown && s != Unknown)
      && (s == FailedKnown ==> if v.state == CutCommandProcessed then r == CutterFault else r != CutterFault && v.accepted == 0)
      && (s == Unknown ==> v.accepted > 0)
      && (s == BytesSent ==> v.accepted == size)
    case Tokens(_) => v.state == Queued || v.state == PreflightOk
    case Took(Probing, _) => v.state == Queued
    case Took(Printing, bytes) => v.state == SendStarted && v.accepted + |bytes| <= size
    case Took(Fencing, _) => v.state == SendStarted && v.accepted == size
    case Took(Cutting, _) => (v.state == SendStarted || v.state == PrintConfirmed) && v.accepted == size
    case Took(CheckingBlade, _) => v.state == CutCommandProcessed
  }

  function Next(v: View, a: Action): View {
    match a
    case Record(s, c, r, _) => v.(state := s, rank := Rank(c), reason := r)
    case Tokens(_) => v
    case Took(what, bytes) => if what == Printing then v.(accepted := v.accepted + |bytes|) else v
  }

  predicate Lawful(size: nat, ceiling: ConfidenceLevel, v: View, t: Trace)
    decreases |t|
  {
    t == [] || (Legal(size, ceiling, v, t[0]) && Lawful(size, ceiling, Next(v, t[0]), t[1..]))
  }

  function Final(v: View, t: Trace): View
    decreases |t|
  {
    if t == [] then v else Final(Next(v, t[0]), t[1..])
  }

  lemma {:induction false} LawfulConcat(size: nat, ceiling: ConfidenceLevel, v: View, a: Trace, b: Trace)
    ensures Lawful(size, ceiling, v, a + b) <==> Lawful(size, ceiling, v, a) && Lawful(size, ceiling, Final(v, a), b)
    ensures Final(v, a + b) == Final(Final(v, a), b)
    decreases |a|
  {
    if a == [] {
      assert a + b == b;
    } else {
      assert (a + b)[0] == a[0] && (a + b)[1..] == a[1..] + b;
      LawfulConcat(size, ceiling, Next(v, a[0]), a[1..], b);
    }
  }

  // A crash after any number of actions leaves a lawful trace.
  lemma LawfulPrefix(size: nat, ceiling: ConfidenceLevel, v: View, t: Trace, n: nat)
    requires Lawful(size, ceiling, v, t) && n <= |t|
    ensures Lawful(size, ceiling, v, t[..n])
  {
    assert t[..n] + t[n..] == t;
    LawfulConcat(size, ceiling, v, t[..n], t[n..]);
  }

  // Every record and every write happens where the law lets it: the cut behind the
  // confirmation, the cutter's status behind the cut, a fence behind the whole payload.
  lemma LegalWhereItHappens(size: nat, ceiling: ConfidenceLevel, v: View, t: Trace, i: nat)
    requires Lawful(size, ceiling, v, t) && i < |t|
    ensures Legal(size, ceiling, Final(v, t[..i]), t[i])
  {
    assert t[..i] + t[i..] == t;
    LawfulConcat(size, ceiling, v, t[..i], t[i..]);
  }

  // The payload bytes the link took.
  function PaperOf(t: Trace): seq<byte> {
    if t == [] then [] else (if IsPaper(t[0]) then t[0].bytes else []) + PaperOf(t[1..])
  }

  predicate IsPaper(a: Action) { a.Took? && a.what == Printing }

  lemma {:induction false} AcceptedCountsPaper(v: View, t: Trace)
    ensures Final(v, t).accepted == v.accepted + |PaperOf(t)|
    decreases |t|
  {
    if t != [] { AcceptedCountsPaper(Next(v, t[0]), t[1..]); }
  }

  lemma {:induction false} PaperOfConcat(a: Trace, b: Trace)
    ensures PaperOf(a + b) == PaperOf(a) + PaperOf(b)
  {
    if a == [] {
      assert a + b == b;
    } else {
      assert (a + b)[0] == a[0] && (a + b)[1..] == a[1..] + b;
      PaperOfConcat(a[1..], b);
    }
  }

  // What the last journaled state says about paper.
  predicate Honest(size: nat, v: View) {
    && v.accepted <= size
    && (v.state == Queued || v.state == PreflightOk ==> v.accepted == 0)
    && (v.state == FailedKnown ==> (v.accepted > 0 <==> v.reason == CutterFault))
    && (v.state == Unknown ==> v.accepted > 0)
    && (v.state in {BytesSent, PrintConfirmed, CutCommandProcessed, DoneSoftware} ==> v.accepted == size)
    && v.state != PhysicallyVerified && v.state != HeldOffline
  }

  lemma HonestStays(size: nat, ceiling: ConfidenceLevel, v: View, a: Action)
    requires size > 0 && Honest(size, v) && Legal(size, ceiling, v, a)
    ensures Honest(size, Next(v, a))
  {
  }

  // At every point of every lawful attempt -- hence at every crash point -- the journaled
  // state is honest: nothing before SendStarted has touched paper, and a known failure
  // has touched it exactly when its reason is the cutter fault.
  lemma {:induction false} AlwaysHonest(size: nat, ceiling: ConfidenceLevel, v: View, t: Trace)
    requires size > 0 && Honest(size, v) && Lawful(size, ceiling, v, t)
    ensures Honest(size, Final(v, t))
    decreases |t|
  {
    if t != [] {
      HonestStays(size, ceiling, v, t[0]);
      AlwaysHonest(size, ceiling, Next(v, t[0]), t[1..]);
    }
  }

  // --- Published history ----------------------------------------------------------

  // The events a subscriber sees: the queued event, then every journaled transition.
  function Events(t: Trace): seq<Action> {
    if t == [] then [] else (if t[0].Record? then [t[0]] else []) + Events(t[1..])
  }

  // Place of a state on the way from submission to verdict.
  function Milestone(s: JobState): nat {
    match s
    case Queued => 0
    case PreflightOk => 1
    case SendStarted => 2
    case BytesSent => 3
    case PrintConfirmed => 4
    case CutCommandProcessed => 5
    case _ => 6
  }

  // One event is past everything in a view, or past an earlier event.
  predicate Past(state: JobState, rank: nat, ceiling: ConfidenceLevel, e: Action) {
    e.Record? && Milestone(state) < Milestone(e.state) && rank <= Rank(e.confidence) <= Rank(ceiling)
  }

  predicate EventsAscend(v: View, ceiling: ConfidenceLevel, h: seq<Action>) {
    && (forall i :: 0 <= i < |h| ==> Past(v.state, v.rank, ceiling, h[i]))
    && (forall i, j :: 0 <= i < j < |h| ==> h[i].Record? && Past(h[i].state, Rank(h[i].confidence), ceiling, h[j]))
    && (forall i :: 0 <= i < |h| - 1 ==> h[i].Record? && !IsTerminal(h[i].state))
  }

  lemma PrependAscends(v: View, ceiling: ConfidenceLevel, e: Action, h: seq<Action>)
    requires Past(v.state, v.rank, ceiling, e) && EventsAscend(Next(v, e), ceiling, h)
    requires IsTerminal(e.state) ==> h == []
    ensures EventsAscend(v, ceiling, [e] + h)
  {
    var g := [e] + h;
    assert forall k :: 1 <= k < |g| ==> g[k] == h[k - 1];
  }

  // States only move forward, confidence never falls and never passes the ceiling, and a
  // terminal event is the last one.
  lemma {:induction false} HistoryAscends(size: nat, ceiling: ConfidenceLevel, v: View, t: Trace)
    requires Lawful(size, ceiling, v, t)
    ensures EventsAscend(v, ceiling, Events(t))
    decreases |t|
  {
    if t != [] {
      var e, w := t[0], Next(v, t[0]);
      HistoryAscends(size, ceiling, w, t[1..]);
      if e.Record? {
        if IsTerminal(e.state) { NothingAfterTerminal(size, ceiling, w, t[1..]); }
        EdgeAdvances(v.state, e.state);
        PrependAscends(v, ceiling, e, Events(t[1..]));
      } else {
        assert Events(t) == Events(t[1..]);
      }
    }
  }

  lemma EdgeAdvances(a: JobState, b: JobState)
    requires Edge(a, b)
    ensures Milestone(a) < Milestone(b)
  {
  }

  lemma NothingAfterTerminal(size: nat, ceiling: ConfidenceLevel, v: View, t: Trace)
    requires Lawful(size, ceiling, v, t) && IsTerminal(v.state)
    ensures t == []
  {
  }

  // Consecutive events are single edges of the state diagram: no milestone is skipped
  // that the diagram does not let skip.
  predicate Path(s: JobState, h: seq<Action>)
    decreases |h|
  {
    h == [] || (h[0].Record? && Edge(s, h[0].state) && Path(h[0].state, h[1..]))
  }

  lemma {:induction false} HistoryIsAPath(size: nat, ceiling: ConfidenceLevel, v: View, t: Trace)
    requires Lawful(size, ceiling, v, t)
    ensures Path(v.state, Events(t))
    decreases |t|
  {
    if t != [] {
      HistoryIsAPath(size, ceiling, Next(v, t[0]), t[1..]);
      if t[0].Record? {
        assert Events(t)[1..] == Events(t[1..]);
      } else {
        assert Events(t) == Events(t[1..]);
      }
    }
  }

  // No payload byte is accepted before SendStarted is in the journal.
  lemma {:induction false} SendStartedComesFirst(size: nat, ceiling: ConfidenceLevel, v: View, t: Trace, i: nat)
    requires Lawful(size, ceiling, v, t) && v.state in {Queued, PreflightOk}
    requires i < |t| && IsPaper(t[i])
    ensures exists j :: 0 <= j < i && t[j].Record? && t[j].state == SendStarted
    decreases |t|
  {
    if t[0].Record? && t[0].state == SendStarted {
    } else {
      assert i > 0;
      var rest := t[1..];
      if t[0].Record? && t[0].state == FailedKnown { NothingAfterTerminal(size, ceiling, Next(v, t[0]), rest); }
      SendStartedComesFirst(size, ceiling, Next(v, t[0]), rest, i - 1);
      var j :| 0 <= j < i - 1 && rest[j].Record? && rest[j].state == SendStarted;
      assert t[j + 1] == rest[j];
    }
  }

  // --- Profiles -------------------------------------------------------------------

  datatype Mechanism =
    | GsParenH | GsR1 | VendorIdle | EposJobId | StarCheckedBlock | StarEtb | StarEscGsEtx | NoCompletion

  datatype Language = EscPos | StarPrnt | StarLine | OtherLanguage

  datatype Cut = CutNone | CutPartial | CutFull
  datatype CutSetting = ProfileCut | PartialCut | FullCut | NoCut

  // `custom` is the completion method registered for a vendor-idle profile, if any.
  datatype Profile = Profile(language: Language, completion: Mechanism, cut: Cut, dleEot: bool,
                             exclusiveSession: bool, asbBlockBytes: byte, chunkBytes: nat,
                             cutterFeedDots: uint16, extraFeedBeforeCut: byte, registered: Option<JobEvidence>)

  datatype Options = Options(cut: CutSetting, strictPreflight: bool, bottomFeedDots: uint16)

  function MaxConfidence(p: Profile): ConfidenceLevel {
    match p.completion
    case GsParenH => CutFaultFree
    case NoCompletion => TransportAccepted
    case _ => CutProcessed
  }

  function EvidenceFor(m: Mechanism): JobEvidence {
    match m
    case GsParenH => JobEvidence(AJobLevelConfirmation, PhysicalPrinter, "GS(H) fn48")
    case GsR1 => JobEvidence(BOrderedDeviceResponse, PhysicalPrinter, "GS r 1")
    case VendorIdle => JobEvidence(BOrderedDeviceResponse, PhysicalPrinter, "vendor idle query")
    case EposJobId => JobEvidence(APlusDurableQueryableJob, VendorSpooler, "ePOS JobID")
    case StarCheckedBlock => JobEvidence(AJobLevelConfirmation, PhysicalPrinter, "Star checked block")
    case StarEtb => JobEvidence(AJobLevelConfirmation, PhysicalPrinter, "ETB")
    case StarEscGsEtx => JobEvidence(AJobLevelConfirmation, PhysicalPrinter, "ESC GS ETX")
    case NoCompletion => JobEvidence(ETransportOnly, TransportOnly, "transport-only")
  }

  const STATUS_EVIDENCE := JobEvidence(CDeviceStatusAround, PhysicalPrinter, "DLE EOT")
  const TRANSPORT_EVIDENCE := JobEvidence(ETransportOnly, TransportOnly, "transport-only")

  function Custom(p: Profile): Option<JobEvidence> {
    if p.completion == VendorIdle then p.registered else None
  }

  function SuccessEvidence(p: Profile): JobEvidence {
    if Custom(p).Some? then Custom(p).value else EvidenceFor(p.completion)
  }

  predicate DrivableByEscPos(p: Profile) {
    p.language == EscPos && p.completion in {GsParenH, GsR1, NoCompletion}
  }

  predicate DrivableByStar(p: Profile) {
    && (p.language == StarPrnt || p.language == StarLine)
    && p.completion in {StarEtb, StarEscGsEtx, NoCompletion}
    && (p.completion == StarEtb ==> p.exclusiveSession)
  }

  function EffectiveCut(setting: CutSetting, p: Profile): Cut {
    match setting
    case ProfileCut => p.cut
    case PartialCut => CutPartial
    case FullCut => CutFull
    case NoCut => CutNone
  }

  function ClampTo(value: ConfidenceLevel, ceiling: ConfidenceLevel): ConfidenceLevel {
    if Rank(value) > Rank(ceiling) then ceiling else value
  }

  // --- What the environment did, and the trace it leads to ------------------------

  datatype Preflight = NotRun | ProbeLost | Refused(reason: FailureReason) | Healthy | Silent
  datatype Blade = Jammed | FaultFree | Unread

  // Per transfer, what the link took write by write and whether the transfer succeeded.
  datatype Facts = Facts(connected: bool, probe: seq<seq<byte>>, preflight: Preflight, pair: Option<Markers.Pair>,
                         payload: seq<seq<byte>>, sentOk: bool, fence: seq<seq<byte>>, fenceOk: bool, printAck: WaitOutcome,
                         cut: seq<seq<byte>>, cutOk: bool, cutAck: WaitOutcome, status: seq<seq<byte>>, blade: Blade)

  function Takes(what: Purpose, writes: seq<seq<byte>>): Trace {
    if writes == [] then [] else [Took(what, writes[0])] + Takes(what, writes[1..])
  }

  // A transport reports what it wrote; a refusal has one of the three preflight reasons.
  predicate Consistent(size: nat, f: Facts) {
    && |Flatten(f.payload)| <= size
    && (f.sentOk ==> |Flatten(f.payload)| == size)
    && (f.preflight.Refused? ==> f.preflight.reason in {PreflightCoverOpen, PreflightPaperOut, PreflightHardwareError})
  }

  predicate UsesTokens(p: Profile) { p.completion == GsParenH || Custom(p).Some? }

  // What is written behind the payload before BytesSent: a fence, or on a profile without
  // one the cut itself.
  function Behind(p: Profile): Purpose { if p.completion == NoCompletion then Cutting else Fencing }

  function Fail(reason: FailureReason, c: ConfidenceLevel, e: JobEvidence): Trace { [Record(FailedKnown, c, reason, e)] }
  function Ambiguous(reason: FailureReason, c: ConfidenceLevel): Trace { [Record(Unknown, c, reason, TRANSPORT_EVIDENCE)] }
  function Done(c: ConfidenceLevel, e: JobEvidence): Trace { [Record(DoneSoftware, c, NoReason, e)] }
  function Step(s: JobState, c: ConfidenceLevel): Trace { [Record(s, c, NoReason, NoEvidence)] }

  function NoAckReason(w: WaitOutcome): FailureReason {
    if w == Timeout then TimeoutAwaitingCompletion else UnknownReason
  }

  function BladeVerdict(p: Profile, blade: Blade): Trace {
    var c := ClampTo(CutProcessed, MaxConfidence(p));
    match blade
    case Jammed => Fail(CutterFault, c, STATUS_EVIDENCE)
    case FaultFree => Done(ClampTo(CutFaultFree, MaxConfidence(p)), EvidenceFor(p.completion))
    case Unread => Done(c, EvidenceFor(p.completion))
  }

  // From the cut acknowledgement on.
  function BladeTrace(p: Profile, f: Facts): Trace {
    if p.completion != GsParenH then Done(ClampTo(CutProcessed, MaxConfidence(p)), SuccessEvidence(p))
    else Takes(CheckingBlade, f.status) + BladeVerdict(p, f.blade)
  }

  // From the cut command on.
  function CutOutcome(p: Profile, f: Facts): Trace {
    var c := ClampTo(PrintAcknowledged, MaxConfidence(p));
    if !f.cutOk then Ambiguous(UnknownReason, c)
    else if f.cutAck != Signalled then Ambiguous(NoAckReason(f.cutAck), c)
    else Step(CutCommandProcessed, ClampTo(CutProcessed, MaxConfidence(p))) + BladeTrace(p, f)
  }

  // From the print acknowledgement on.
  function CutTrace(p: Profile, cut: Cut, f: Facts): Trace {
    if cut == CutNone then Done(ClampTo(PrintAcknowledged, MaxConfidence(p)), SuccessEvidence(p))
    else Takes(Cutting, f.cut) + CutOutcome(p, f)
  }

  // From the print fence's answer on.
  function AckTrace(p: Profile, cut: Cut, c: ConfidenceLevel, f: Facts): Trace {
    if f.printAck != Signalled then Ambiguous(NoAckReason(f.printAck), c)
    else Step(PrintConfirmed, ClampTo(PrintAcknowledged, MaxConfidence(p))) + CutTrace(p, cut, f)
  }

  // From the end of the fence on; `c` is the confidence reached before sending.
  function ConfirmTrace(p: Profile, cut: Cut, c: ConfidenceLevel, f: Facts): Trace {
    if !f.fenceOk then Ambiguous(UnknownReason, c)
    else if p.completion == NoCompletion then
      Step(BytesSent, c) + Done(ClampTo(TransportAccepted, MaxConfidence(p)), EvidenceFor(p.completion))
    else Step(BytesSent, c) + AckTrace(p, cut, c, f)
  }

  // From the end of the payload on.
  function TailTrace(p: Profile, cut: Cut, c: ConfidenceLevel, f: Facts): Trace {
    if !f.sentOk then
      if Flatten(f.payload) == [] then Fail(TransportUnreachable, c, NoEvidence) else Ambiguous(UnknownReason, c)
    else Takes(Behind(p), f.fence) + ConfirmTrace(p, cut, c, f)
  }

  function SendTrace(p: Profile, cut: Cut, c: ConfidenceLevel, f: Facts): Trace {
    Step(SendStarted, c) + (Takes(Printing, f.payload) + TailTrace(p, cut, c, f))
  }

  // From the lease on; without a lease the allocator threw on the worker.
  function LeasedTrace(p: Profile, o: Options, c: ConfidenceLevel, f: Facts): Trace {
    if !UsesTokens(p) then SendTrace(p, EffectiveCut(o.cut, p), c, f)
    else if f.pair.None? then []
    else [Tokens(f.pair.value)] + SendTrace(p, EffectiveCut(o.cut, p), c, f)
  }

  // From the end of preflight on.
  function PreflightTrace(p: Profile, o: Options, f: Facts): Trace {
    var low := ClampTo(TransportAccepted, MaxConfidence(p));
    match f.preflight
    case ProbeLost => Fail(TransportUnreachable, low, NoEvidence)
    case Refused(reason) => Fail(reason, low, STATUS_EVIDENCE)
    case Healthy =>
      var c := ClampTo(PrinterHealthy, MaxConfidence(p));
      Step(PreflightOk, c) + LeasedTrace(p, o, c, f)
    case _ => LeasedTrace(p, o, low, f)
  }

  function EscPosTrace(p: Profile, o: Options, f: Facts): Trace {
    if !f.connected then Fail(TransportUnreachable, ClampTo(TransportAccepted, MaxConfidence(p)), NoEvidence)
    else Takes(Probing, f.probe) + PreflightTrace(p, o, f)
  }

  // A Star job is not preflighted; what it sends first prepares the counter.
  function StarTrace(p: Profile, o: Options, f: Facts): Trace {
    var low := ClampTo(TransportAccepted, MaxConfidence(p));
    if !f.connected then Fail(TransportUnreachable, low, NoEvidence)
    else Takes(Probing, f.probe)
         + if f.preflight.ProbeLost? then Fail(TransportUnreachable, low, NoEvidence) else SendTrace(p, EffectiveCut(o.cut, p), low, f)
  }

  function JobTrace(p: Profile, o: Options, f: Facts): Trace {
    if DrivableByEscPos(p) || Custom(p).Some? then EscPosTrace(p, o, f)
    else if DrivableByStar(p) then StarTrace(p, o, f)
    else Fail(Unsupported, ClampTo(TransportAccepted, MaxConfidence(p)), NoEvidence)
  }

  // --- Every run obeys the law ----------------------------------------------------

  lemma {:induction false} PayloadLawful(size: nat, ceiling: ConfidenceLevel, v: View, writes: seq<seq<byte>>)
    requires v.state == SendStarted && v.accepted + |Flatten(writes)| <= size
    ensures Lawful(size, ceiling, v, Takes(Printing, writes))
    ensures Final(v, Takes(Printing, writes)) == v.(accepted := v.accepted + |Flatten(writes)|)
    decreases |writes|
  {
    if writes != [] {
      var t := Takes(Printing, writes);
      assert t[0] == Took(Printing, writes[0]) && t[1..] == Takes(Printing, writes[1..]);
      PayloadLawful(size, ceiling, Next(v, t[0]), writes[1..]);
    }
  }

  // A command may go out in any number of writes wherever it may go out at all.
  lemma {:induction false} CommandLawful(size: nat, ceiling: ConfidenceLevel, v: View, what: Purpose, writes: seq<seq<byte>>)
    requires what != Printing && Legal(size, ceiling, v, Took(what, []))
    ensures Lawful(size, ceiling, v, Takes(what, writes)) && Final(v, Takes(what, writes)) == v
    decreases |writes|
  {
    if writes != [] {
      var t := Takes(what, writes);
      assert t[0] == Took(what, writes[0]) && t[1..] == Takes(what, writes[1..]);
      CommandLawful(size, ceiling, v, what, writes[1..]);
    }
  }

  predicate EndsWell(size: nat, ceiling: ConfidenceLevel, v: View, t: Trace) {
    Lawful(size, ceiling, v, t) && IsTerminal(Final(v, t).state)
  }

  lemma ThenLawful(size: nat, ceiling: ConfidenceLevel, v: View, a: Trace, b: Trace)
    requires Lawful(size, ceiling, v, a)
    ensures EndsWell(size, ceiling, Final(v, a), b) ==> EndsWell(size, ceiling, v, a + b)
    ensures Lawful(size, ceiling, Final(v, a), b) ==> Lawful(size, ceiling, v, a + b)
    ensures Final(v, a + b) == Final(Final(v, a), b)
  {
    LawfulConcat(size, ceiling, v, a, b);
  }

  lemma OneLawful(size: nat, ceiling: ConfidenceLevel, v: View, a: Action)
    requires Legal(size, ceiling, v, a)
    ensures Lawful(size, ceiling, v, [a]) && Final(v, [a]) == Next(v, a)
  {
    assert [a][1..] == [];
  }

  lemma BladeTraceLawful(size: nat, p: Profile, f: Facts, v: View)
    requires v.state == CutCommandProcessed && v.rank == Rank(ClampTo(CutProcessed, MaxConfidence(p))) && p.completion != NoCompletion
    ensures EndsWell(size, MaxConfidence(p), v, BladeTrace(p, f))
  {
    var ceiling := MaxConfidence(p);
    if p.completion == GsParenH {
      CommandLawful(size, ceiling, v, CheckingBlade, f.status);
      OneLawful(size, ceiling, v, BladeVerdict(p, f.blade)[0]);
      ThenLawful(size, ceiling, v, Takes(CheckingBlade, f.status), BladeVerdict(p, f.blade));
    } else {
      OneLawful(size, ceiling, v, BladeTrace(p, f)[0]);
    }
  }

  lemma CutOutcomeLawful(size: nat, p: Profile, f: Facts, v: View)
    requires size > 0 && v.state == PrintConfirmed && v.accepted == size && p.completion != NoCompletion
    requires v.rank == Rank(PrintAcknowledged)
    ensures EndsWell(size, MaxConfidence(p), v, CutOutcome(p, f))
  {
    var ceiling := MaxConfidence(p);
    var t := CutOutcome(p, f);
    OneLawful(size, ceiling, v, t[0]);
    if f.cutOk && f.cutAck == Signalled {
      BladeTraceLawful(size, p, f, Next(v, t[0]));
      ThenLawful(size, ceiling, v, [t[0]], BladeTrace(p, f));
    }
  }

  lemma CutTraceLawful(size: nat, p: Profile, cut: Cut, f: Facts, v: View)
    requires size > 0 && v.state == PrintConfirmed && v.accepted == size && p.completion != NoCompletion
    requires v.rank == Rank(PrintAcknowledged)
    ensures EndsWell(size, MaxConfidence(p), v, CutTrace(p, cut, f))
  {
    var ceiling := MaxConfidence(p);
    if cut == CutNone {
      OneLawful(size, ceiling, v, CutTrace(p, cut, f)[0]);
    } else {
      CommandLawful(size, ceiling, v, Cutting, f.cut);
      CutOutcomeLawful(size, p, f, v);
      ThenLawful(size, ceiling, v, Takes(Cutting, f.cut), CutOutcome(p, f));
    }
  }

  // The confidence a run may have reached before it sends.
  predicate Modest(p: Profile, c: ConfidenceLevel) {
    && Rank(c) <= Rank(MaxConfidence(p)) && Rank(c) <= Rank(PrinterHealthy)
    && (p.completion == NoCompletion ==> c == TransportAccepted)
  }

  lemma AckTraceLawful(size: nat, p: Profile, cut: Cut, c: ConfidenceLevel, f: Facts, v: View)
    requires size > 0 && v.state == BytesSent && v.accepted == size && v.rank == Rank(c) && Modest(p, c) && p.completion != NoCompletion
    ensures EndsWell(size, MaxConfidence(p), v, AckTrace(p, cut, c, f))
  {
    var ceiling := MaxConfidence(p);
    var t := AckTrace(p, cut, c, f);
    OneLawful(size, ceiling, v, t[0]);
    if f.printAck == Signalled {
      CutTraceLawful(size, p, cut, f, Next(v, t[0]));
      ThenLawful(size, ceiling, v, [t[0]], CutTrace(p, cut, f));
    }
  }

  lemma ConfirmTraceLawful(size: nat, p: Profile, cut: Cut, c: ConfidenceLevel, f: Facts, v: View)
    requires size > 0 && v.state == SendStarted && v.accepted == size && v.rank == Rank(c) && Modest(p, c)
    ensures EndsWell(size, MaxConfidence(p), v, ConfirmTrace(p, cut, c, f))
  {
    var ceiling := MaxConfidence(p);
    var t := ConfirmTrace(p, cut, c, f);
    OneLawful(size, ceiling, v, t[0]);
    if f.fenceOk && p.completion == NoCompletion {
      OneLawful(size, ceiling, Next(v, t[0]), t[1]);
      ThenLawful(size, ceiling, v, [t[0]], [t[1]]);
      assert t == [t[0]] + [t[1]];
    } else if f.fenceOk {
      AckTraceLawful(size, p, cut, c, f, Next(v, t[0]));
      ThenLawful(size, ceiling, v, [t[0]], AckTrace(p, cut, c, f));
    }
  }

  lemma TailTraceLawful(size: nat, p: Profile, cut: Cut, c: ConfidenceLevel, f: Facts, v: View)
    requires size > 0 && Consistent(size, f) && Modest(p, c)
    requires v.state == SendStarted && v.accepted == |Flatten(f.payload)| && v.rank == Rank(c)
    ensures EndsWell(size, MaxConfidence(p), v, TailTrace(p, cut, c, f))
  {
    var ceiling := MaxConfidence(p);
    if !f.sentOk {
      OneLawful(size, ceiling, v, TailTrace(p, cut, c, f)[0]);
    } else {
      CommandLawful(size, ceiling, v, Behind(p), f.fence);
      ConfirmTraceLawful(size, p, cut, c, f, v);
      ThenLawful(size, ceiling, v, Takes(Behind(p), f.fence), ConfirmTrace(p, cut, c, f));
    }
  }

  lemma SendTraceLawful(size: nat, p: Profile, cut: Cut, c: ConfidenceLevel, f: Facts, v: View)
    requires size > 0 && Consistent(size, f) && Modest(p, c)
    requires (v.state == Queued || v.state == PreflightOk) && v.accepted == 0 && v.rank <= Rank(c)
    ensures EndsWell(size, MaxConfidence(p), v, SendTrace(p, cut, c, f))
  {
    var ceiling := MaxConfidence(p);
    var started := Step(SendStarted, c)[0];
    var w := Next(v, started);
    OneLawful(size, ceiling, v, started);
    PayloadLawful(size, ceiling, w, f.payload);
    TailTraceLawful(size, p, cut, c, f, Final(w, Takes(Printing, f.payload)));
    ThenLawful(size, ceiling, w, Takes(Printing, f.payload), TailTrace(p, cut, c, f));
    ThenLawful(size, ceiling, v, [started], Takes(Printing, f.payload) + TailTrace(p, cut, c, f));
  }

  lemma LeasedTraceLawful(size: nat, p: Profile, o: Options, c: ConfidenceLevel, f: Facts, v: View)
    requires size > 0 && Consistent(size, f) && Modest(p, c)
    requires (v.state == Queued || v.state == PreflightOk) && v.accepted == 0 && v.rank <= Rank(c)
    ensures Lawful(size, MaxConfidence(p), v, LeasedTrace(p, o, c, f))
    ensures (UsesTokens(p) && f.pair.None?) || IsTerminal(Final(v, LeasedTrace(p, o, c, f)).state)
  {
    var ceiling := MaxConfidence(p);
    var cut := EffectiveCut(o.cut, p);
    SendTraceLawful(size, p, cut, c, f, v);
    if UsesTokens(p) && f.pair.Some? {
      OneLawful(size, ceiling, v, Tokens(f.pair.value));
      ThenLawful(size, ceiling, v, [Tokens(f.pair.value)], SendTrace(p, cut, c, f));
    }
  }

  lemma PreflightTraceLawful(size: nat, p: Profile, o: Options, f: Facts)
    requires size > 0 && Consistent(size, f)
    ensures Lawful(size, MaxConfidence(p), START, PreflightTrace(p, o, f))
    ensures (UsesTokens(p) && f.pair.None?) || IsTerminal(Final(START, PreflightTrace(p, o, f)).state)
  {
    var ceiling := MaxConfidence(p);
    var t := PreflightTrace(p, o, f);
    match f.preflight
    case ProbeLost => OneLawful(size, ceiling, START, t[0]);
    case Refused(_) => OneLawful(size, ceiling, START, t[0]);
    case Healthy =>
      var c := ClampTo(PrinterHealthy, ceiling);
      OneLawful(size, ceiling, START, t[0]);
      LeasedTraceLawful(size, p, o, c, f, Next(START, t[0]));
      ThenLawful(size, ceiling, START, [t[0]], LeasedTrace(p, o, c, f));
    case _ => LeasedTraceLawful(size, p, o, ClampTo(TransportAccepted, ceiling), f, START);
  }

  // Whatever the profile, the options and the link do, the attempt obeys the law, and it
  // ends in a verdict unless the marker allocator gave out.
  lemma RunIsLawful(size: nat, p: Profile, o: Options, f: Facts)
    requires size > 0 && Consistent(size, f)
    ensures Lawful(size, MaxConfidence(p), START, JobTrace(p, o, f))
    ensures IsTerminal(Final(START, JobTrace(p, o, f)).state) || (UsesTokens(p) && f.pair.None?)
  {
    var ceiling := MaxConfidence(p);
    var low := ClampTo(TransportAccepted, ceiling);
    var engine := DrivableByEscPos(p) || Custom(p).Some?;
    if (!engine && !DrivableByStar(p)) || !f.connected {
      OneLawful(size, ceiling, START, JobTrace(p, o, f)[0]);
    } else {
      CommandLawful(size, ceiling, START, Probing, f.probe);
      if engine {
        PreflightTraceLawful(size, p, o, f);
        ThenLawful(size, ceiling, START, Takes(Probing, f.probe), PreflightTrace(p, o, f));
      } else {
        OneLawful(size, ceiling, START, Record(FailedKnown, low, TransportUnreachable, NoEvidence));
        SendTraceLawful(size, p, EffectiveCut(o.cut, p), low, f, START);
        ThenLawful(size, ceiling, START, Takes(Probing, f.probe), SendTrace(p, EffectiveCut(o.cut, p), low, f));
        ThenLawful(size, ceiling, START, Takes(Probing, f.probe), Fail(TransportUnreachable, low, NoEvidence));
      }
    }
  }

  // The last event published is the state the attempt is in.
  lemma {:induction false} LastEventIsTheState(v: View, t: Trace)
    ensures Events(t) == [] ==> Final(v, t).state == v.state
    ensures Events(t) != [] ==> Events(t)[|Events(t)| - 1].Record? && Events(t)[|Events(t)| - 1].state == Final(v, t).state
    decreases |t|
  {
    if t != [] {
      LastEventIsTheState(Next(v, t[0]), t[1..]);
    }
  }

  // Every run, whatever the profile, the options and the link: its history is a path of
  // the state diagram from Queued, under the profile's ceiling, that ends in its one
  // verdict, and the verdict is honest about the bytes on paper.
  lemma EveryRunIsAnHonestPath(size: nat, p: Profile, o: Options, f: Facts)
    requires size > 0 && Consistent(size, f) && (UsesTokens(p) ==> f.pair.Some?)
    ensures var t := JobTrace(p, o, f);
            var h := Events(t);
            && h != [] && Path(Queued, h) && EventsAscend(START, MaxConfidence(p), h)
            && IsTerminal(h[|h| - 1].state) && h[|h| - 1].state == Final(START, t).state
            && Honest(size, Final(START, t)) && Final(START, t).accepted == |PaperOf(t)| <= size
  {
    var t := JobTrace(p, o, f);
    RunIsLawful(size, p, o, f);
    HistoryAscends(size, MaxConfidence(p), START, t);
    HistoryIsAPath(size, MaxConfidence(p), START, t);
    LastEventIsTheState(START, t);
    AlwaysHonest(size, MaxConfidence(p), START, t);
    AcceptedCountsPaper(START, t);
  }

  predicate Acknowledged(p: Profile, f: Facts) {
    p.completion != NoCompletion && f.sentOk && f.fenceOk && f.printAck == Signalled
  }

  predicate ClaimsPrinted(t: Trace) { exists i :: 0 <= i < |t| && t[i].Record? && t[i].state == PrintConfirmed }

  lemma ClaimConcat(a: Trace, b: Trace)
    ensures ClaimsPrinted(a + b) <==> ClaimsPrinted(a) || ClaimsPrinted(b)
  {
    if ClaimsPrinted(a) {
      var i :| 0 <= i < |a| && a[i].Record? && a[i].state == PrintConfirmed;
      assert (a + b)[i] == a[i];
    }
    if ClaimsPrinted(b) {
      var i :| 0 <= i < |b| && b[i].Record? && b[i].state == PrintConfirmed;
      assert (a + b)[|a| + i] == b[i];
    }
  }

  lemma {:induction false} WritesClaimNothing(what: Purpose, writes: seq<seq<byte>>)
    ensures forall a :: a in Takes(what, writes) ==> a.Took?
    ensures !ClaimsPrinted(Takes(what, writes))
  {
    if writes != [] { WritesClaimNothing(what, writes[1..]); }
  }

  lemma TailClaims(p: Profile, cut: Cut, c: ConfidenceLevel, f: Facts)
    ensures ClaimsPrinted(TailTrace(p, cut, c, f)) <==> Acknowledged(p, f)
  {
    WritesClaimNothing(Behind(p), f.fence);
    ClaimConcat(Takes(Behind(p), f.fence), ConfirmTrace(p, cut, c, f));
    if f.fenceOk && p.completion != NoCompletion {
      ClaimConcat(Step(BytesSent, c), AckTrace(p, cut, c, f));
      var confirmed := Step(PrintConfirmed, ClampTo(PrintAcknowledged, MaxConfidence(p)));
      assert confirmed[0].state == PrintConfirmed;
      ClaimConcat(confirmed, CutTrace(p, cut, f));
    }
  }

  lemma SendClaims(p: Profile, cut: Cut, c: ConfidenceLevel, f: Facts)
    ensures ClaimsPrinted(SendTrace(p, cut, c, f)) <==> Acknowledged(p, f)
  {
    TailClaims(p, cut, c, f);
    WritesClaimNothing(Printing, f.payload);
    ClaimConcat(Takes(Printing, f.payload), TailTrace(p, cut, c, f));
    ClaimConcat(Step(SendStarted, c), Takes(Printing, f.payload) + TailTrace(p, cut, c, f));
  }

  // Whether an attempt gets as far as its payload.
  predicate Sends(p: Profile, f: Facts) {
    && f.connected && !f.preflight.ProbeLost?
    && if DrivableByEscPos(p) || Custom(p).Some? then !f.preflight.Refused? && (UsesTokens(p) ==> f.pair.Some?) else DrivableByStar(p)
  }

  lemma LeasedClaims(p: Profile, o: Options, c: ConfidenceLevel, f: Facts)
    ensures ClaimsPrinted(LeasedTrace(p, o, c, f)) <==> (UsesTokens(p) ==> f.pair.Some?) && Acknowledged(p, f)
  {
    var send := SendTrace(p, EffectiveCut(o.cut, p), c, f);
    SendClaims(p, EffectiveCut(o.cut, p), c, f);
    if f.pair.Some? { ClaimConcat([Tokens(f.pair.value)], send); }
  }

  lemma PreflightClaims(p: Profile, o: Options, f: Facts)
    ensures ClaimsPrinted(PreflightTrace(p, o, f)) <==>
            !f.preflight.ProbeLost? && !f.preflight.Refused? && (UsesTokens(p) ==> f.pair.Some?) && Acknowledged(p, f)
  {
    var high := ClampTo(PrinterHealthy, MaxConfidence(p));
    LeasedClaims(p, o, ClampTo(TransportAccepted, MaxConfidence(p)), f);
    LeasedClaims(p, o, high, f);
    ClaimConcat(Step(PreflightOk, high), LeasedTrace(p, o, high, f));
  }

  // The claim that a receipt printed is made exactly when the payload went out whole, its
  // fence went out whole, and the fence was answered.
  lemma ConfirmedIffAcknowledged(p: Profile, o: Options, f: Facts)
    ensures ClaimsPrinted(JobTrace(p, o, f)) <==> Sends(p, f) && Acknowledged(p, f)
  {
    var low := ClampTo(TransportAccepted, MaxConfidence(p));
    WritesClaimNothing(Probing, f.probe);
    PreflightClaims(p, o, f);
    SendClaims(p, EffectiveCut(o.cut, p), low, f);
    ClaimConcat(Takes(Probing, f.probe), PreflightTrace(p, o, f));
    ClaimConcat(Takes(Probing, f.probe), SendTrace(p, EffectiveCut(o.cut, p), low, f));
    ClaimConcat(Takes(Probing, f.probe), Fail(TransportUnreachable, low, NoEvidence));
  }

  // What a record may claim: a failure or an ambiguity carries at best what DLE EOT said,
  // a success exactly what the profile's fence is worth.
  predicate ClaimsHonestly(p: Profile, a: Action) {
    a.Record? ==>
      && (a.state in {FailedKnown, Unknown} ==> GradeStrength(a.evidence.grade) <= GradeStrength(CDeviceStatusAround))
      && (a.state == DoneSoftware ==> a.evidence == SuccessEvidence(p))
  }

  predicate AllHonest(p: Profile, t: Trace) { forall a :: a in t ==> ClaimsHonestly(p, a) }

  lemma HonestConcat(p: Profile, a: Trace, b: Trace)
    requires AllHonest(p, a) && AllHonest(p, b)
    ensures AllHonest(p, a + b)
  {
  }

  lemma CutHonest(p: Profile, cut: Cut, f: Facts)
    ensures AllHonest(p, CutTrace(p, cut, f))
  {
    WritesClaimNothing(CheckingBlade, f.status);
    WritesClaimNothing(Cutting, f.cut);
    if p.completion == GsParenH { HonestConcat(p, Takes(CheckingBlade, f.status), BladeVerdict(p, f.blade)); }
    HonestConcat(p, Step(CutCommandProcessed, ClampTo(CutProcessed, MaxConfidence(p))), BladeTrace(p, f));
    HonestConcat(p, Takes(Cutting, f.cut), CutOutcome(p, f));
  }

  lemma SendHonest(p: Profile, cut: Cut, c: ConfidenceLevel, f: Facts)
    ensures AllHonest(p, SendTrace(p, cut, c, f))
  {
    WritesClaimNothing(Printing, f.payload);
    WritesClaimNothing(Behind(p), f.fence);
    CutHonest(p, cut, f);
    HonestConcat(p, Step(PrintConfirmed, ClampTo(PrintAcknowledged, MaxConfidence(p))), CutTrace(p, cut, f));
    HonestConcat(p, Step(BytesSent, c), AckTrace(p, cut, c, f));
    HonestConcat(p, Takes(Behind(p), f.fence), ConfirmTrace(p, cut, c, f));
    HonestConcat(p, Takes(Printing, f.payload), TailTrace(p, cut, c, f));
    HonestConcat(p, Step(SendStarted, c), Takes(Printing, f.payload) + TailTrace(p, cut, c, f));
  }

  lemma LeasedHonest(p: Profile, o: Options, c: ConfidenceLevel, f: Facts)
    ensures AllHonest(p, LeasedTrace(p, o, c, f))
  {
    SendHonest(p, EffectiveCut(o.cut, p), c, f);
    if f.pair.Some? { HonestConcat(p, [Tokens(f.pair.value)], SendTrace(p, EffectiveCut(o.cut, p), c, f)); }
  }

  lemma PreflightHonest(p: Profile, o: Options, f: Facts)
    ensures AllHonest(p, PreflightTrace(p, o, f))
  {
    var high := ClampTo(PrinterHealthy, MaxConfidence(p));
    LeasedHonest(p, o, ClampTo(TransportAccepted, MaxConfidence(p)), f);
    LeasedHonest(p, o, high, f);
    HonestConcat(p, Step(PreflightOk, high), LeasedTrace(p, o, high, f));
  }

  lemma VerdictsClaimHonestly(p: Profile, o: Options, f: Facts)
    ensures AllHonest(p, JobTrace(p, o, f))
  {
    var low := ClampTo(TransportAccepted, MaxConfidence(p));
    SendHonest(p, EffectiveCut(o.cut, p), low, f);
    PreflightHonest(p, o, f);
    WritesClaimNothing(Probing, f.probe);
    HonestConcat(p, Takes(Probing, f.probe), PreflightTrace(p, o, f));
    HonestConcat(p, Takes(Probing, f.probe), SendTrace(p, EffectiveCut(o.cut, p), low, f));
    HonestConcat(p, Takes(Probing, f.probe), Fail(TransportUnreachable, low, NoEvidence));
  }

  // --- What lands on paper --------------------------------------------------------

  lemma {:induction false} PaperOfWrites(what: Purpose, writes: seq<seq<byte>>)
    ensures PaperOf(Takes(what, writes)) == if what == Printing then Flatten(writes) else []
  {
    if writes != [] {
      var t := Takes(what, writes);
      assert t[0] == Took(what, writes[0]) && t[1..] == Takes(what, writes[1..]);
      PaperOfWrites(what, writes[1..]);
    }
  }

  lemma PaperOfSteps(a: Action, t: Trace)
    ensures !IsPaper(a) ==> PaperOf([a] + t) == PaperOf(t)
  {
    assert ([a] + t)[1..] == t;
  }

  lemma PaperOfCut(p: Profile, cut: Cut, f: Facts)
    ensures PaperOf(CutTrace(p, cut, f)) == []
  {
    PaperOfWrites(CheckingBlade, f.status);
    PaperOfConcat(Takes(CheckingBlade, f.status), BladeVerdict(p, f.blade));
    PaperOfSteps(Step(CutCommandProcessed, ClampTo(CutProcessed, MaxConfidence(p)))[0], BladeTrace(p, f));
    PaperOfWrites(Cutting, f.cut);
    PaperOfConcat(Takes(Cutting, f.cut), CutOutcome(p, f));
  }

  lemma PaperOfTail(p: Profile, cut: Cut, c: ConfidenceLevel, f: Facts)
    ensures PaperOf(TailTrace(p, cut, c, f)) == []
  {
    PaperOfConfirm(p, cut, c, f);
    PaperOfWrites(Behind(p), f.fence);
    PaperOfConcat(Takes(Behind(p), f.fence), ConfirmTrace(p, cut, c, f));
  }

  lemma PaperOfAck(p: Profile, cut: Cut, c: ConfidenceLevel, f: Facts)
    ensures PaperOf(AckTrace(p, cut, c, f)) == []
  {
    PaperOfCut(p, cut, f);
    PaperOfSteps(AckTrace(p, cut, c, f)[0], if f.printAck == Signalled then CutTrace(p, cut, f) else []);
  }

  lemma PaperOfConfirm(p: Profile, cut: Cut, c: ConfidenceLevel, f: Facts)
    ensures PaperOf(ConfirmTrace(p, cut, c, f)) == []
  {
    PaperOfAck(p, cut, c, f);
    PaperOfSteps(Step(BytesSent, c)[0], AckTrace(p, cut, c, f));
  }

  lemma PaperOfSend(p: Profile, cut: Cut, c: ConfidenceLevel, f: Facts)
    ensures PaperOf(SendTrace(p, cut, c, f)) == Flatten(f.payload)
  {
    PaperOfWrites(Printing, f.payload);
    PaperOfTail(p, cut, c, f);
    PaperOfConcat(Takes(Printing, f.payload), TailTrace(p, cut, c, f));
    PaperOfSteps(Step(SendStarted, c)[0], Takes(Printing, f.payload) + TailTrace(p, cut, c, f));
  }

  lemma PaperOfLeased(p: Profile, o: Options, c: ConfidenceLevel, f: Facts)
    ensures PaperOf(LeasedTrace(p, o, c, f)) == if UsesTokens(p) && f.pair.None? then [] else Flatten(f.payload)
  {
    PaperOfSend(p, EffectiveCut(o.cut, p), c, f);
    if f.pair.Some? { PaperOfSteps(Tokens(f.pair.value), SendTrace(p, EffectiveCut(o.cut, p), c, f)); }
  }

  lemma PaperOfPreflight(p: Profile, o: Options, f: Facts)
    ensures PaperOf(PreflightTrace(p, o, f)) ==
            if f.preflight.ProbeLost? || f.preflight.Refused? || (UsesTokens(p) && f.pair.None?) then [] else Flatten(f.payload)
  {
    match f.preflight
    case ProbeLost => PaperOfSteps(PreflightTrace(p, o, f)[0], []);
    case Refused(_) => PaperOfSteps(PreflightTrace(p, o, f)[0], []);
    case Healthy =>
      var high := ClampTo(PrinterHealthy, MaxConfidence(p));
      PaperOfLeased(p, o, high, f);
      PaperOfSteps(Step(PreflightOk, high)[0], LeasedTrace(p, o, high, f));
    case _ => PaperOfLeased(p, o, ClampTo(TransportAccepted, MaxConfidence(p)), f);
  }

  // An attempt puts on paper what the link took of its payload, once it gets to send at
  // all, and no byte of any command.
  lemma PaperIsThePayload(p: Profile, o: Options, f: Facts)
    ensures PaperOf(JobTrace(p, o, f)) == if Sends(p, f) then Flatten(f.payload) else []
  {
    if DrivableByEscPos(p) || Custom(p).Some? {
      PaperOfEscPos(p, o, f);
    } else if DrivableByStar(p) {
      PaperOfStar(p, o, f);
    } else {
      PaperOfSteps(JobTrace(p, o, f)[0], []);
    }
  }

  lemma PaperOfEscPos(p: Profile, o: Options, f: Facts)
    ensures PaperOf(EscPosTrace(p, o, f)) ==
            if !f.connected || f.preflight.ProbeLost? || f.preflight.Refused? || (UsesTokens(p) && f.pair.None?) then [] else Flatten(f.payload)
  {
    if !f.connected {
      PaperOfSteps(EscPosTrace(p, o, f)[0], []);
    } else {
      PaperOfWrites(Probing, f.probe);
      PaperOfPreflight(p, o, f);
      PaperOfConcat(Takes(Probing, f.probe), PreflightTrace(p, o, f));
    }
  }

  lemma PaperOfStar(p: Profile, o: Options, f: Facts)
    ensures PaperOf(StarTrace(p, o, f)) == if !f.connected || f.preflight.ProbeLost? then [] else Flatten(f.payload)
  {
    var low := ClampTo(TransportAccepted, MaxConfidence(p));
    var lost := Fail(TransportUnreachable, low, NoEvidence);
    PaperOfSteps(lost[0], []);
    if f.connected {
      PaperOfWrites(Probing, f.probe);
      PaperOfSend(p, EffectiveCut(o.cut, p), low, f);
      PaperOfConcat(Takes(Probing, f.probe), if f.preflight.ProbeLost? then lost else SendTrace(p, EffectiveCut(o.cut, p), low, f));
    }
  }
}

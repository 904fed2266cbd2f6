// The crash-safe job store (core/src/job_store.cpp): record syntax, replay, recovery,
// compaction, and the store object whose journal always rebuilds its maps.

module JobStoreModel {
  import opened PrinterTypes
  import opened JournalText

  const UINT32 := 0x1_0000_0000
  type uint32 = x: int | 0 <= x < UINT32

  datatype PayloadKind = Raster | Document | Raw

  datatype JobRecord = JobRecord(
    id: string, key: string, printerId: string, createdMs: uint64, attempt: uint32,
    kind: PayloadKind, payloadBytes: uint64, printToken: string, cutToken: string,
    state: JobState, confidence: ConfidenceLevel, reason: FailureReason,
    grade: ConfidenceGrade, authority: CompletionAuthority, method_: string,
    updatedMs: uint64, recovered: bool)

  // One parsed journal line.
  datatype Entry =
    | JobLineEntry(record: JobRecord)
    | StateLineEntry(id: string, state: JobState, confidence: ConfidenceLevel, reason: FailureReason,
                     atMs: uint64, evidence: JobEvidence)
    | TokenLineEntry(id: string, printToken: string, cutToken: string)

  // --- Enumeration names ----------------------------------------------------------

  function StateName(s: JobState): string {
    match s
    case Queued => "Queued"
    case PreflightOk => "PreflightOk"
    case SendStarted => "SendStarted"
    case BytesSent => "BytesSent"
    case PrintConfirmed => "PrintConfirmed"
    case CutCommandProcessed => "CutCommandProcessed"
    case DoneSoftware => "DoneSoftware"
    case PhysicallyVerified => "PhysicallyVerified"
    case FailedKnown => "FailedKnown"
    case Unknown => "Unknown"
    case HeldOffline => "HeldOffline"
  }

  function ConfidenceName(c: ConfidenceLevel): string {
    match c
    case TransportAccepted => "TransportAccepted"
    case PrinterHealthy => "PrinterHealthy"
    case PrintAcknowledged => "PrintConfirmed"
    case CutProcessed => "CutProcessed"
    case CutFaultFree => "CutFaultFree"
    case PhysicalProof => "PhysicallyVerified"
  }

  function ReasonName(r: FailureReason): string {
    match r
    case NoReason => "None"
    case TransportUnreachable => "TransportUnreachable"
    case PreflightCoverOpen => "PreflightCoverOpen"
    case PreflightPaperOut => "PreflightPaperOut"
    case PreflightHardwareError => "PreflightHardwareError"
    case TimeoutAwaitingCompletion => "TimeoutAwaitingCompletion"
    case CutterFault => "CutterFault"
    case Unsupported => "Unsupported"
    case UnknownReason => "Unknown"
    case Expired => "Expired"
    case QueueOverflow => "QueueOverflow"
  }

  function GradeName(g: ConfidenceGrade): string {
    match g
    case APlusDurableQueryableJob => "APlus_DurableQueryableJob"
    case AJobLevelConfirmation => "A_JobLevelConfirmation"
    case BOrderedDeviceResponse => "B_OrderedDeviceResponse"
    case CDeviceStatusAround => "C_DeviceStatusAround"
    case DSpoolerCompleted => "D_SpoolerCompleted"
    case ETransportOnly => "E_TransportOnly"
  }

  function AuthorityName(a: CompletionAuthority): string {
    match a
    case PhysicalPrinter => "PhysicalPrinter"
    case VendorSpooler => "VendorSpooler"
    case PdAgent => "PdAgent"
    case PrintServer => "PrintServer"
    case TransportOnly => "TransportOnly"
  }

  function KindName(k: PayloadKind): string {
    match k
    case Raster => "Raster"
    case Document => "Document"
    case Raw => "Raw"
  }

  const ALL_STATES: seq<JobState> := [Queued, PreflightOk, SendStarted, BytesSent, PrintConfirmed,
    CutCommandProcessed, DoneSoftware, PhysicallyVerified, FailedKnown, Unknown, HeldOffline]
  const ALL_CONFIDENCES: seq<ConfidenceLevel> := [TransportAccepted, PrinterHealthy, PrintAcknowledged,
    CutProcessed, CutFaultFree, PhysicalProof]
  const ALL_REASONS: seq<FailureReason> := [NoReason, TransportUnreachable, PreflightCoverOpen,
    PreflightPaperOut, PreflightHardwareError, TimeoutAwaitingCompletion, CutterFault, Unsupported,
    UnknownReason, Expired, QueueOverflow]
  const ALL_GRADES: seq<ConfidenceGrade> := [APlusDurableQueryableJob, AJobLevelConfirmation,
    BOrderedDeviceResponse, CDeviceStatusAround, DSpoolerCompleted, ETransportOnly]
  const ALL_AUTHORITIES: seq<CompletionAuthority> := [PhysicalPrinter, VendorSpooler, PdAgent,
    PrintServer, TransportOnly]
  const ALL_KINDS: seq<PayloadKind> := [Raster, Document, Raw]

  // The first member whose printed name is `name`.
  function FirstNamed<T>(name: string, all: seq<T>, toString: T -> string): Option<T> {
    if all == [] then None
    else if name == toString(all[0]) then Some(all[0])
    else FirstNamed(name, all[1..], toString)
  }

  lemma {:induction false} FirstNamedFinds<T>(v: T, all: seq<T>, toString: T -> string)
    requires v in all && forall u :: u in all && toString(u) == toString(v) ==> u == v
    ensures FirstNamed(toString(v), all, toString) == Some(v)
  {
    if all[0] != v { FirstNamedFinds(v, all[1..], toString); }
  }

  // Length and last letter tell the names of one enumeration apart.
  function Tag(name: string): (nat, char) {
    (|name|, if name == [] then ' ' else name[|name| - 1])
  }

  function StateTag(s: JobState): (nat, char) {
    match s
    case Queued => (6, 'd')
    case PreflightOk => (11, 'k')
    case SendStarted => (11, 'd')
    case BytesSent => (9, 't')
    case PrintConfirmed => (14, 'd')
    case CutCommandProcessed => (19, 'd')
    case DoneSoftware => (12, 'e')
    case PhysicallyVerified => (18, 'd')
    case FailedKnown => (11, 'n')
    case Unknown => (7, 'n')
    case HeldOffline => (11, 'e')
  }

  lemma StateNameHasTag(s: JobState)
    ensures Tag(StateName(s)) == StateTag(s)
  {
  }

  lemma StateNameIsPlain1(s: JobState)
    requires s.Queued? || s.PreflightOk? || s.SendStarted? || s.BytesSent?
    ensures Plain(StateName(s))
  {
  }

  lemma StateNameIsPlain2(s: JobState)
    requires s.PrintConfirmed? || s.CutCommandProcessed?
    ensures Plain(StateName(s))
  {
  }

  lemma StateNameIsPlain3(s: JobState)
    requires s.DoneSoftware? || s.PhysicallyVerified?
    ensures Plain(StateName(s))
  {
  }

  lemma StateNameIsPlain4(s: JobState)
    requires s.FailedKnown? || s.Unknown? || s.HeldOffline?
    ensures Plain(StateName(s))
  {
  }

  lemma StateNameIsPlain(s: JobState)
    ensures Plain(StateName(s))
  {
    match s
    case Queued => StateNameIsPlain1(s);
    case PreflightOk => StateNameIsPlain1(s);
    case SendStarted => StateNameIsPlain1(s);
    case BytesSent => StateNameIsPlain1(s);
    case PrintConfirmed => StateNameIsPlain2(s);
    case CutCommandProcessed => StateNameIsPlain2(s);
    case DoneSoftware => StateNameIsPlain3(s);
    case PhysicallyVerified => StateNameIsPlain3(s);
    case FailedKnown => StateNameIsPlain4(s);
    case Unknown => StateNameIsPlain4(s);
    case HeldOffline => StateNameIsPlain4(s);
  }

  lemma StateNameParses(s: JobState)
    ensures FirstNamed(StateName(s), ALL_STATES, StateName) == Some(s) && Plain(StateName(s))
  {
    StateNameIsPlain(s);
    StateNameHasTag(s);
    forall u | u in ALL_STATES && StateName(u) == StateName(s) ensures u == s {
      StateNameHasTag(u);
      assert StateTag(u) == StateTag(s);
    }
    FirstNamedFinds(s, ALL_STATES, StateName);
  }

  function ConfidenceTag(c: ConfidenceLevel): (nat, char) {
    match c
    case TransportAccepted => (17, 'd')
    case PrinterHealthy => (14, 'y')
    case PrintAcknowledged => (14, 'd')
    case CutProcessed => (12, 'd')
    case CutFaultFree => (12, 'e')
    case PhysicalProof => (18, 'd')
  }

  lemma ConfidenceNameHasTag(c: ConfidenceLevel)
    ensures Tag(ConfidenceName(c)) == ConfidenceTag(c)
  {
  }

  lemma ConfidenceNameIsPlain1(c: ConfidenceLevel)
    requires c.TransportAccepted? || c.PrinterHealthy?
    ensures Plain(ConfidenceName(c))
  {
  }

  lemma ConfidenceNameIsPlain2(c: ConfidenceLevel)
    requires c.PrintAcknowledged? || c.CutProcessed?
    ensures Plain(ConfidenceName(c))
  {
  }

  lemma ConfidenceNameIsPlain3(c: ConfidenceLevel)
    requires c.CutFaultFree? || c.PhysicalProof?
    ensures Plain(ConfidenceName(c))
  {
  }

  lemma ConfidenceNameIsPlain(c: ConfidenceLevel)
    ensures Plain(ConfidenceName(c))
  {
    match c
    case TransportAccepted => ConfidenceNameIsPlain1(c);
    case PrinterHealthy => ConfidenceNameIsPlain1(c);
    case PrintAcknowledged => ConfidenceNameIsPlain2(c);
    case CutProcessed => ConfidenceNameIsPlain2(c);
    case CutFaultFree => ConfidenceNameIsPlain3(c);
    case PhysicalProof => ConfidenceNameIsPlain3(c);
  }

  lemma ConfidenceNameParses(c: ConfidenceLevel)
    ensures FirstNamed(ConfidenceName(c), ALL_CONFIDENCES, ConfidenceName) == Some(c) && Plain(ConfidenceName(c))
  {
    ConfidenceNameIsPlain(c);
    ConfidenceNameHasTag(c);
    forall u | u in ALL_CONFIDENCES && ConfidenceName(u) == ConfidenceName(c) ensures u == c {
      ConfidenceNameHasTag(u);
      assert ConfidenceTag(u) == ConfidenceTag(c);
    }
    FirstNamedFinds(c, ALL_CONFIDENCES, ConfidenceName);
  }

  function ReasonTag(r: FailureReason): (nat, char) {
    match r
    case NoReason => (4, 'e')
    case TransportUnreachable => (20, 'e')
    case PreflightCoverOpen => (18, 'n')
    case PreflightPaperOut => (17, 't')
    case PreflightHardwareError => (22, 'r')
    case TimeoutAwaitingCompletion => (25, 'n')
    case CutterFault => (11, 't')
    case Unsupported => (11, 'd')
    case UnknownReason => (7, 'n')
    case Expired => (7, 'd')
    case QueueOverflow => (13, 'w')
  }

  lemma ReasonNameHasTag(r: FailureReason)
    ensures Tag(ReasonName(r)) == ReasonTag(r)
  {
  }

  lemma ReasonNameIsPlain1(r: FailureReason)
    requires r.NoReason? || r.TransportUnreachable?
    ensures Plain(ReasonName(r))
  {
  }

  lemma ReasonNameIsPlain2(r: FailureReason)
    requires r.PreflightCoverOpen? || r.PreflightPaperOut?
    ensures Plain(ReasonName(r))
  {
  }

  lemma ReasonNameIsPlain3(r: FailureReason)
    requires r.PreflightHardwareError?
    ensures Plain(ReasonName(r))
  {
  }

  lemma ReasonNameIsPlain4(r: FailureReason)
    requires r.TimeoutAwaitingCompletion?
    ensures Plain(ReasonName(r))
  {
  }

  lemma ReasonNameIsPlain5(r: FailureReason)
    requires r.CutterFault? || r.Unsupported?
    ensures Plain(ReasonName(r))
  {
  }

  lemma ReasonNameIsPlain6(r: FailureReason)
    requires r.UnknownReason? || r.Expired? || r.QueueOverflow?
    ensures Plain(ReasonName(r))
  {
  }

  lemma ReasonNameIsPlain(r: FailureReason)
    ensures Plain(ReasonName(r))
  {
    match r
    case NoReason => ReasonNameIsPlain1(r);
    case TransportUnreachable => ReasonNameIsPlain1(r);
    case PreflightCoverOpen => ReasonNameIsPlain2(r);
    case PreflightPaperOut => ReasonNameIsPlain2(r);
    case PreflightHardwareError => ReasonNameIsPlain3(r);
    case TimeoutAwaitingCompletion => ReasonNameIsPlain4(r);
    case CutterFault => ReasonNameIsPlain5(r);
    case Unsupported => ReasonNameIsPlain5(r);
    case UnknownReason => ReasonNameIsPlain6(r);
    case Expired => ReasonNameIsPlain6(r);
    case QueueOverflow => ReasonNameIsPlain6(r);
  }

  lemma ReasonNameParses(r: FailureReason)
    ensures FirstNamed(ReasonName(r), ALL_REASONS, ReasonName) == Some(r) && Plain(ReasonName(r))
  {
    ReasonNameIsPlain(r);
    ReasonNameHasTag(r);
    forall u | u in ALL_REASONS && ReasonName(u) == ReasonName(r) ensures u == r {
      ReasonNameHasTag(u);
      assert ReasonTag(u) == ReasonTag(r);
    }
    FirstNamedFinds(r, ALL_REASONS, ReasonName);
  }

  function GradeTag(g: ConfidenceGrade): (nat, char) {
    match g
    case APlusDurableQueryableJob => (25, 'b')
    case AJobLevelConfirmation => (22, 'n')
    case BOrderedDeviceResponse => (23, 'e')
    case CDeviceStatusAround => (20, 'd')
    case DSpoolerCompleted => (18, 'd')
    case ETransportOnly => (15, 'y')
  }

  lemma GradeNameHasTag(g: ConfidenceGrade)
    ensures Tag(GradeName(g)) == GradeTag(g)
  {
  }

  lemma GradeNameIsPlain1(g: ConfidenceGrade)
    requires g.APlusDurableQueryableJob?
    ensures Plain(GradeName(g))
  {
  }

  lemma GradeNameIsPlain2(g: ConfidenceGrade)
    requires g.AJobLevelConfirmation?
    ensures Plain(GradeName(g))
  {
  }

  lemma GradeNameIsPlain3(g: ConfidenceGrade)
    requires g.BOrderedDeviceResponse?
    ensures Plain(GradeName(g))
  {
  }

  lemma GradeNameIsPlain4(g: ConfidenceGrade)
    requires g.CDeviceStatusAround?
    ensures Plain(GradeName(g))
  {
  }

  lemma GradeNameIsPlain5(g: ConfidenceGrade)
    requires g.DSpoolerCompleted? || g.ETransportOnly?
    ensures Plain(GradeName(g))
  {
  }

  lemma GradeNameIsPlain(g: ConfidenceGrade)
    ensures Plain(GradeName(g))
  {
    match g
    case APlusDurableQueryableJob => GradeNameIsPlain1(g);
    case AJobLevelConfirmation => GradeNameIsPlain2(g);
    case BOrderedDeviceResponse => GradeNameIsPlain3(g);
    case CDeviceStatusAround => GradeNameIsPlain4(g);
    case DSpoolerCompleted => GradeNameIsPlain5(g);
    case ETransportOnly => GradeNameIsPlain5(g);
  }

  lemma GradeNameParses(g: ConfidenceGrade)
    ensures FirstNamed(GradeName(g), ALL_GRADES, GradeName) == Some(g) && Plain(GradeName(g))
  {
    GradeNameIsPlain(g);
    GradeNameHasTag(g);
    forall u | u in ALL_GRADES && GradeName(u) == GradeName(g) ensures u == g {
      GradeNameHasTag(u);
      assert GradeTag(u) == GradeTag(g);
    }
    FirstNamedFinds(g, ALL_GRADES, GradeName);
  }

  function AuthorityTag(a: CompletionAuthority): (nat, char) {
    match a
    case PhysicalPrinter => (15, 'r')
    case VendorSpooler => (13, 'r')
    case PdAgent => (7, 't')
    case PrintServer => (11, 'r')
    case TransportOnly => (13, 'y')
  }

  lemma AuthorityNameHasTag(a: CompletionAuthority)
    ensures Tag(AuthorityName(a)) == AuthorityTag(a)
  {
  }

  lemma AuthorityNameIsPlain1(a: CompletionAuthority)
    requires a.PhysicalPrinter? || a.VendorSpooler?
    ensures Plain(AuthorityName(a))
  {
  }

  lemma AuthorityNameIsPlain(a: CompletionAuthority)
    ensures Plain(AuthorityName(a))
  {
    if a.PhysicalPrinter? || a.VendorSpooler? { AuthorityNameIsPlain1(a); }
  }

  lemma AuthorityNameParses(a: CompletionAuthority)
    ensures FirstNamed(AuthorityName(a), ALL_AUTHORITIES, AuthorityName) == Some(a) && Plain(AuthorityName(a))
  {
    AuthorityNameIsPlain(a);
    AuthorityNameHasTag(a);
    forall u | u in ALL_AUTHORITIES && AuthorityName(u) == AuthorityName(a) ensures u == a {
      AuthorityNameHasTag(u);
      assert AuthorityTag(u) == AuthorityTag(a);
    }
    FirstNamedFinds(a, ALL_AUTHORITIES, AuthorityName);
  }

  function KindTag(k: PayloadKind): (nat, char) {
    match k
    case Raster => (6, 'r')
    case Document => (8, 't')
    case Raw => (3, 'w')
  }

  lemma KindNameHasTag(k: PayloadKind)
    ensures Tag(KindName(k)) == KindTag(k)
  {
  }

  lemma KindNameIsPlain(k: PayloadKind)
    ensures Plain(KindName(k))
  {
  }

  lemma KindNameParses(k: PayloadKind)
    ensures FirstNamed(KindName(k), ALL_KINDS, KindName) == Some(k) && Plain(KindName(k))
  {
    KindNameIsPlain(k);
    KindNameHasTag(k);
    forall u | u in ALL_KINDS && KindName(u) == KindName(k) ensures u == k {
      KindNameHasTag(u);
      assert KindTag(u) == KindTag(k);
    }
    FirstNamedFinds(k, ALL_KINDS, KindName);
  }

  // --- Record syntax --------------------------------------------------------------

  function JobFields(r: JobRecord): seq<string> {
    [['J'], Escaped(r.id), Escaped(r.key), Escaped(r.printerId), Decimal(r.createdMs), Decimal(r.attempt),
     KindName(r.kind), Decimal(r.payloadBytes), Escaped(r.printToken), Escaped(r.cutToken)]
  }

  function TokenFields(id: string, printToken: string, cutToken: string): seq<string> {
    [['T'], Escaped(id), Escaped(printToken), Escaped(cutToken)]
  }

  function StateFields(id: string, state: JobState, confidence: ConfidenceLevel, reason: FailureReason,
                       atMs: uint64, evidence: JobEvidence): seq<string> {
    [['S'], Escaped(id), StateName(state), ConfidenceName(confidence), ReasonName(reason), Decimal(atMs),
     GradeName(evidence.grade), AuthorityName(evidence.authority), Escaped(evidence.method_)]
  }

  function Fields(e: Entry): seq<string> {
    match e
    case JobLineEntry(r) => JobFields(r)
    case StateLineEntry(id, st, c, r, at, ev) => StateFields(id, st, c, r, at, ev)
    case TokenLineEntry(id, p, c) => TokenFields(id, p, c)
  }

  function LineOf(e: Entry): string { Join(Fields(e)) }

  // Creation fields only; the rest keeps the defaults of a fresh record.
  function FreshRecord(id: string, key: string, printerId: string, created: uint64, attempt: uint32,
                       kind: PayloadKind, bytes: uint64, printToken: string, cutToken: string): JobRecord {
    JobRecord(id, key, printerId, created, attempt, kind, bytes, printToken, cutToken,
              Queued, TransportAccepted, NoReason, ETransportOnly, TransportOnly, "none", 0, false)
  }

  predicate Completed(s: JobState) { s == DoneSoftware || s == PhysicallyVerified }

  // The conservative evidence of a state line without a readable evidence tail.
  function LegacyEvidence(state: JobState, confidence: ConfidenceLevel): JobEvidence {
    if Rank(confidence) >= Rank(PrintAcknowledged) && Completed(state)
    then JobEvidence(BOrderedDeviceResponse, PhysicalPrinter, "journal-legacy")
    else NoEvidence
  }

  function ParseJobFields(f: seq<string>): Option<Entry>
    requires |f| >= 8
  {
    var created, attempt, bytes := ParsedUint(f[4]), ParsedUint(f[5]), ParsedUint(f[7]);
    var kind := FirstNamed(f[6], ALL_KINDS, KindName);
    if created.None? || attempt.None? || bytes.None? || kind.None? then None
    else
      var tokens := if |f| >= 10 then (Unescaped(f[8]), Unescaped(f[9])) else ("", "");
      Some(JobLineEntry(FreshRecord(Unescaped(f[1]), Unescaped(f[2]), Unescaped(f[3]), created.value,
                                    attempt.value % UINT32, kind.value, bytes.value, tokens.0, tokens.1)))
  }

  function ParseStateFields(f: seq<string>): Option<Entry>
    requires |f| >= 6
  {
    var state := FirstNamed(f[2], ALL_STATES, StateName);
    var confidence := FirstNamed(f[3], ALL_CONFIDENCES, ConfidenceName);
    var reason := FirstNamed(f[4], ALL_REASONS, ReasonName);
    var at := ParsedUint(f[5]);
    if state.None? || confidence.None? || reason.None? || at.None? then None
    else
      var grade := if |f| >= 9 then FirstNamed(f[6], ALL_GRADES, GradeName) else None;
      var authority := if |f| >= 9 then FirstNamed(f[7], ALL_AUTHORITIES, AuthorityName) else None;
      var legacy := LegacyEvidence(state.value, confidence.value);
      var evidence :=
        if grade.Some? && authority.Some? then JobEvidence(grade.value, authority.value, Unescaped(f[8]))
        else if legacy != NoEvidence then legacy
        else NoEvidence.(grade := if grade.Some? then grade.value else ETransportOnly);
      Some(StateLineEntry(Unescaped(f[1]), state.value, confidence.value, reason.value, at.value, evidence))
  }

  function ParseLine(line: string): Option<Entry> {
    if line == [] || line[0] == '#' then None
    else
      var f := Split(line);
      if |f| < 2 || |f[0]| != 1 then None
      else if f[0][0] == 'J' then if |f| < 8 then None else ParseJobFields(f)
      else if f[0][0] == 'T' then
        if |f| < 4 then None else Some(TokenLineEntry(Unescaped(f[1]), Unescaped(f[2]), Unescaped(f[3])))
      else if f[0][0] == 'S' then if |f| < 6 then None else ParseStateFields(f)
      else None
  }

  // What a parsed job line can carry: the creation fields alone.
  function AsWritten(e: Entry): Entry {
    match e
    case JobLineEntry(r) =>
      JobLineEntry(FreshRecord(r.id, r.key, r.printerId, r.createdMs, r.attempt, r.kind, r.payloadBytes,
                               r.printToken, r.cutToken))
    case _ => e
  }

  lemma FieldsArePlain(e: Entry)
    ensures forall f :: f in Fields(e) ==> Plain(f)
  {
    match e
    case JobLineEntry(r) =>
      EscapedIsPlain(r.id); EscapedIsPlain(r.key); EscapedIsPlain(r.printerId);
      DecimalDigits(r.createdMs); DecimalDigits(r.attempt); DecimalDigits(r.payloadBytes);
      KindNameIsPlain(r.kind); EscapedIsPlain(r.printToken); EscapedIsPlain(r.cutToken);
    case StateLineEntry(id, st, c, r, at, ev) =>
      EscapedIsPlain(id); StateNameIsPlain(st); ConfidenceNameIsPlain(c); ReasonNameIsPlain(r);
      DecimalDigits(at); GradeNameIsPlain(ev.grade); AuthorityNameIsPlain(ev.authority); EscapedIsPlain(ev.method_);
    case TokenLineEntry(id, p, c) =>
      EscapedIsPlain(id); EscapedIsPlain(p); EscapedIsPlain(c);
  }

  lemma ParseJobParts(f: seq<string>, r: JobRecord)
    requires |f| == 10
    requires Unescaped(f[1]) == r.id && Unescaped(f[2]) == r.key && Unescaped(f[3]) == r.printerId
    requires Unescaped(f[8]) == r.printToken && Unescaped(f[9]) == r.cutToken
    requires ParsedUint(f[4]) == Some(r.createdMs) && ParsedUint(f[5]) == Some(r.attempt) && ParsedUint(f[7]) == Some(r.payloadBytes)
    requires FirstNamed(f[6], ALL_KINDS, KindName) == Some(r.kind)
    ensures ParseJobFields(f) == Some(AsWritten(JobLineEntry(r)))
  {
  }

  lemma ParseJobLine(r: JobRecord)
    ensures ParseJobFields(JobFields(r)) == Some(AsWritten(JobLineEntry(r)))
  {
    JobTextsParse(r);
    JobNumbersParse(r);
    ParseJobParts(JobFields(r), r);
  }

  lemma JobTextsParse(r: JobRecord)
    ensures var f := JobFields(r);
            && |f| == 10 && Unescaped(f[1]) == r.id && Unescaped(f[2]) == r.key && Unescaped(f[3]) == r.printerId
            && Unescaped(f[8]) == r.printToken && Unescaped(f[9]) == r.cutToken
  {
    UnescapeEscape(r.id);
    UnescapeEscape(r.key);
    UnescapeEscape(r.printerId);
    UnescapeEscape(r.printToken);
    UnescapeEscape(r.cutToken);
  }

  lemma JobNumbersParse(r: JobRecord)
    ensures var f := JobFields(r);
            && |f| == 10 && ParsedUint(f[4]) == Some(r.createdMs) && ParsedUint(f[5]) == Some(r.attempt)
            && ParsedUint(f[7]) == Some(r.payloadBytes) && FirstNamed(f[6], ALL_KINDS, KindName) == Some(r.kind)
  {
    ParseDecimal(r.createdMs);
    ParseDecimal(r.attempt);
    ParseDecimal(r.payloadBytes);
    KindNameParses(r.kind);
  }

  lemma ParseStateLine(id: string, st: JobState, c: ConfidenceLevel, r: FailureReason, at: uint64, ev: JobEvidence)
    ensures ParseStateFields(StateFields(id, st, c, r, at, ev)) == Some(StateLineEntry(id, st, c, r, at, ev))
  {
    var f := StateFields(id, st, c, r, at, ev);
    UnescapeEscape(id); UnescapeEscape(ev.method_); ParseDecimal(at);
    StateNameParses(st); assert f[2] == StateName(st);
    ConfidenceNameParses(c); assert f[3] == ConfidenceName(c);
    ReasonNameParses(r); assert f[4] == ReasonName(r);
    GradeNameParses(ev.grade); assert f[6] == GradeName(ev.grade);
    AuthorityNameParses(ev.authority); assert f[7] == AuthorityName(ev.authority);
  }

  // Parsing undoes printing, for arbitrary text in every field.
  lemma ParseLineOf(e: Entry)
    ensures ParseLine(LineOf(e)) == Some(AsWritten(e))
  {
    FieldsArePlain(e);
    SplitJoin(Fields(e));
    LineStart(e);
    match e
    case JobLineEntry(r) => ParseJobLine(r);
    case StateLineEntry(id, st, c, r, at, ev) => ParseStateLine(id, st, c, r, at, ev);
    case TokenLineEntry(id, p, c) => UnescapeEscape(id); UnescapeEscape(p); UnescapeEscape(c);
  }

  lemma LineStart(e: Entry)
    ensures |LineOf(e)| >= 2 && LineOf(e)[0] == Fields(e)[0][0] && |Fields(e)[0]| == 1 && LineOf(e)[1] == '\t'
    ensures LineOf(e)[0] != '#'
  {
    assert LineOf(e) == Fields(e)[0] + ['\t'] + Join(Fields(e)[1..]);
  }

  // --- Torn records ---------------------------------------------------------------

  // What a record cut short may still say: nothing that decides a job's fate.
  ghost predicate TornEntry(e: Entry, torn: Entry) {
    match (e, torn)
    case (JobLineEntry(r), JobLineEntry(t)) =>
      t == FreshRecord(r.id, r.key, r.printerId, r.createdMs, r.attempt, r.kind, t.payloadBytes, t.printToken, t.cutToken)
    case (StateLineEntry(id, st, c, r, _, _), StateLineEntry(id', st', c', r', _, _)) =>
      id == id' && st == st' && c == c' && r == r'
    case (TokenLineEntry(id, p, _), TokenLineEntry(id', p', _)) => id == id' && p == p'
    case _ => false
  }

  lemma TornFields(e: Entry, n: nat) returns (k: nat, m: nat)
    requires 0 < n <= |LineOf(e)|
    ensures k < |Fields(e)| && m <= |Fields(e)[k]|
    ensures Split(LineOf(e)[..n]) == Fields(e)[..k] + [Fields(e)[k][..m]]
    ensures n < |LineOf(e)| ==> k < |Fields(e)| - 1 || m < |Fields(e)[k]|
    ensures LineOf(e)[..n] != [] && LineOf(e)[..n][0] != '#'
  {
    FieldsArePlain(e);
    LineStart(e);
    k, m := SplitTorn(Fields(e), n);
  }

  lemma TornStateLine(e: Entry, n: nat)
    requires e.StateLineEntry? && n <= |LineOf(e)|
    ensures ParseLine(LineOf(e)[..n]).Some? ==> TornEntry(e, ParseLine(LineOf(e)[..n]).value)
    ensures ParseLine(LineOf(e)[..n]).Some? && n < |LineOf(e)| ==>
              GradeStrength(ParseLine(LineOf(e)[..n]).value.evidence.grade)
              <= GradeStrength(e.evidence.grade)
              || ParseLine(LineOf(e)[..n]).value.evidence == LegacyEvidence(e.state, e.confidence)
  {
    if n > 0 {
      var k, m := TornFields(e, n);
      var f := Split(LineOf(e)[..n]);
      var w := Fields(e);
      if k >= 5 {
        assert f[0] == w[0] && f[1] == w[1] && f[2] == w[2] && f[3] == w[3] && f[4] == w[4];
        UnescapeEscape(e.id);
        StateNameParses(e.state); ConfidenceNameParses(e.confidence); ReasonNameParses(e.reason);
        if k == 8 {
          assert f[6] == w[6] && f[7] == w[7];
          GradeNameParses(e.evidence.grade); AuthorityNameParses(e.evidence.authority);
        }
      } else {
        assert |f| < 6;
        if |f| >= 2 { assert f[0] == w[0]; }
      }
    }
  }

  lemma TornJobLine(e: Entry, n: nat)
    requires e.JobLineEntry? && n <= |LineOf(e)|
    ensures ParseLine(LineOf(e)[..n]).Some? ==> TornEntry(e, ParseLine(LineOf(e)[..n]).value)
  {
    if n > 0 {
      var k, m := TornFields(e, n);
      var f := Split(LineOf(e)[..n]);
      var w := Fields(e);
      if k >= 7 {
        assert f[0] == w[0] && f[1] == w[1] && f[2] == w[2] && f[3] == w[3] && f[4] == w[4] && f[5] == w[5] && f[6] == w[6];
        UnescapeEscape(e.record.id); UnescapeEscape(e.record.key); UnescapeEscape(e.record.printerId);
        ParseDecimal(e.record.createdMs); ParseDecimal(e.record.attempt); KindNameParses(e.record.kind);
      } else if |f| >= 2 {
        assert f[0] == w[0];
      }
    }
  }

  lemma TornTokenLine(e: Entry, n: nat)
    requires e.TokenLineEntry? && n <= |LineOf(e)|
    ensures ParseLine(LineOf(e)[..n]).Some? ==> TornEntry(e, ParseLine(LineOf(e)[..n]).value)
  {
    if n > 0 {
      var k, m := TornFields(e, n);
      var f := Split(LineOf(e)[..n]);
      var w := Fields(e);
      if k >= 3 {
        assert f[0] == w[0] && f[1] == w[1] && f[2] == w[2];
        UnescapeEscape(e.id); UnescapeEscape(e.printToken);
      } else if |f| >= 2 {
        assert f[0] == w[0];
      }
    }
  }

  // Every prefix of a record parses to nothing, or to the same job and the same verdict.
  lemma TornLine(e: Entry, n: nat)
    requires n <= |LineOf(e)|
    ensures ParseLine(LineOf(e)[..n]).Some? ==> TornEntry(e, ParseLine(LineOf(e)[..n]).value)
  {
    match e
    case JobLineEntry(_) => TornJobLine(e, n);
    case StateLineEntry(_, _, _, _, _, _) => TornStateLine(e, n);
    case TokenLineEntry(_, _, _) => TornTokenLine(e, n);
  }

  // A state line may be cut so that it reads back with a stronger grade than was written
  // if and only if the legacy derivation is stronger: a completed job past PrintConfirmed
  // whose journaled grade was weaker than B.
  lemma TornGradeOverclaimsIff(e: Entry)
    requires e.StateLineEntry?
    ensures (exists n :: 0 <= n < |LineOf(e)| && StrongerWhenCut(e, n)) <==>
            (Completed(e.state) && Rank(e.confidence) >= Rank(PrintAcknowledged)
             && GradeStrength(e.evidence.grade) < GradeStrength(BOrderedDeviceResponse))
  {
    var legacy := LegacyEvidence(e.state, e.confidence);
    forall n | 0 <= n < |LineOf(e)| && StrongerWhenCut(e, n)
      ensures GradeStrength(legacy.grade) > GradeStrength(e.evidence.grade)
    {
      TornStateLine(e, n);
    }
    if GradeStrength(legacy.grade) > GradeStrength(e.evidence.grade) {
      var n := CutBeforeEvidence(e);
      assert StrongerWhenCut(e, n);
    }
  }

  predicate StrongerWhenCut(e: Entry, n: nat)
    requires e.StateLineEntry? && n <= |LineOf(e)|
  {
    var torn := ParseLine(LineOf(e)[..n]);
    torn.Some? && torn.value.StateLineEntry?
    && GradeStrength(torn.value.evidence.grade) > GradeStrength(e.evidence.grade)
  }

  // The cut just behind the timestamp leaves a version-1 line.
  lemma CutBeforeEvidence(e: Entry) returns (n: nat)
    requires e.StateLineEntry?
    ensures n < |LineOf(e)|
    ensures ParseLine(LineOf(e)[..n]) == Some(e.(evidence := LegacyEvidence(e.state, e.confidence)))
  {
    var w := Fields(e);
    var head := w[..6];
    n := |Join(head)|;
    JoinPrefix(head, w[6..]);
    assert head + w[6..] == w;
    assert LineOf(e)[..n] == Join(head);
    FieldsArePlain(e);
    SplitJoin(head);
    LineStart(e);
    assert Join(head)[0] == LineOf(e)[0];
    ParseHead(e);
  }

  lemma ParseHead(e: Entry)
    requires e.StateLineEntry?
    ensures ParseStateFields(Fields(e)[..6]) == Some(e.(evidence := LegacyEvidence(e.state, e.confidence)))
  {
    UnescapeEscape(e.id); ParseDecimal(e.atMs);
    StateNameParses(e.state); ConfidenceNameParses(e.confidence); ReasonNameParses(e.reason);
  }

  lemma {:induction false} JoinPrefix(a: seq<string>, b: seq<string>)
    requires a != [] && b != []
    ensures Join(a + b) == Join(a) + ['\t'] + Join(b)
  {
    if |a| == 1 {
      assert (a + b)[1..] == b;
    } else {
      JoinPrefix(a[1..], b);
      assert (a + b)[1..] == a[1..] + b;
    }
  }

  // --- Replay ---------------------------------------------------------------------

  datatype Store = Store(byId: map<string, JobRecord>, order: seq<string>, idByKey: map<string, string>)

  const EMPTY_STORE := Store(map[], [], map[])

  function IndexKey(m: map<string, string>, r: JobRecord): map<string, string> {
    if r.key != [] then m[r.key := r.id] else m
  }

  function WithState(r: JobRecord, e: Entry): JobRecord
    requires e.StateLineEntry?
  {
    r.(state := e.state, confidence := e.confidence, reason := e.reason, grade := e.evidence.grade,
       authority := e.evidence.authority, method_ := e.evidence.method_, updatedMs := e.atMs)
  }

  // One journal line folded into the maps.
  function Apply(s: Store, e: Entry): Store {
    match e
    case JobLineEntry(r) =>
      if r.id in s.byId then s
      else Store(s.byId[r.id := r], s.order + [r.id], IndexKey(s.idByKey, r))
    case StateLineEntry(id, _, _, _, _, _) =>
      if id in s.byId then s.(byId := s.byId[id := WithState(s.byId[id], e)]) else s
    case TokenLineEntry(id, p, c) =>
      if id in s.byId then s.(byId := s.byId[id := s.byId[id].(printToken := p, cutToken := c)]) else s
  }

  function Replay(s: Store, entries: seq<Entry>): Store {
    if entries == [] then s else Apply(Replay(s, entries[..|entries| - 1]), entries[|entries| - 1])
  }

  function ParseAll(lines: seq<string>): seq<Entry> {
    if lines == [] then []
    else
      var rest := ParseAll(lines[1..]);
      match ParseLine(lines[0]) case Some(e) => [e] + rest case None => rest
  }

  function ReadJournal(text: string): seq<Entry> { ParseAll(Lines(text)) }

  function Rebuild(text: string): Store { Replay(EMPTY_STORE, ReadJournal(text)) }

  lemma {:induction false} ReplayConcat(s: Store, a: seq<Entry>, b: seq<Entry>)
    ensures Replay(s, a + b) == Replay(Replay(s, a), b)
    decreases |b|
  {
    if b == [] {
      assert a + b == a;
    } else {
      var ab := a + b;
      assert ab[..|ab| - 1] == a + b[..|b| - 1];
      ReplayConcat(s, a, b[..|b| - 1]);
    }
  }

  lemma {:induction false} ParseAllConcat(a: seq<string>, b: seq<string>)
    ensures ParseAll(a + b) == ParseAll(a) + ParseAll(b)
  {
    if a == [] {
      assert a + b == b;
    } else {
      ParseAllConcat(a[1..], b);
      assert (a + b)[1..] == a[1..] + b;
      if ParseLine(a[0]).Some? { EntriesAssociate(ParseLine(a[0]).value, ParseAll(a[1..]), ParseAll(b)); }
    }
  }

  // Appending text to whole records replays it on top of them.
  lemma AppendReplays(journal: string, text: string)
    requires Complete(journal)
    ensures Rebuild(journal + text) == Replay(Rebuild(journal), ReadJournal(text))
  {
    LinesConcat(journal, text);
    ParseAllConcat(Lines(journal), Lines(text));
    ReplayConcat(EMPTY_STORE, ReadJournal(journal), ReadJournal(text));
  }

  // One record is one line, and a torn record is at most one line.
  lemma RecordLines(e: Entry, rest: string)
    ensures Lines(LineOf(e) + ['\n'] + rest) == [LineOf(e)] + Lines(rest)
  {
    FieldsArePlain(e);
    JoinIsOneLine(Fields(e));
    LinesCons(LineOf(e), rest);
  }

  lemma TornRecordLines(e: Entry, n: nat)
    requires n <= |LineOf(e)|
    ensures Lines(LineOf(e)[..n]) == if n == 0 then [] else [LineOf(e)[..n]]
  {
    FieldsArePlain(e);
    JoinIsOneLine(Fields(e));
    LinesTail(LineOf(e)[..n]);
  }

  function RecordText(e: Entry): string { LineOf(e) + ['\n'] }

  function RecordTexts(entries: seq<Entry>): seq<string> {
    if entries == [] then [] else [RecordText(entries[0])] + RecordTexts(entries[1..])
  }

  function Concat(texts: seq<string>): string {
    if texts == [] then [] else texts[0] + Concat(texts[1..])
  }

  function TextOf(entries: seq<Entry>): string { Concat(RecordTexts(entries)) }

  lemma TextOfCons(e: Entry, rest: seq<Entry>)
    ensures TextOf([e] + rest) == RecordText(e) + TextOf(rest)
  {
    assert ([e] + rest)[1..] == rest;
    assert ([RecordText(e)] + RecordTexts(rest))[1..] == RecordTexts(rest);
  }

  function AllWritten(entries: seq<Entry>): seq<Entry> {
    if entries == [] then [] else [AsWritten(entries[0])] + AllWritten(entries[1..])
  }

  // Reading back what was written gives the same entries, whatever text they carry.
  lemma {:induction false} ReadTextOf(entries: seq<Entry>, rest: string)
    ensures ReadJournal(TextOf(entries) + rest) == AllWritten(entries) + ReadJournal(rest)
  {
    if entries == [] {
      assert TextOf(entries) + rest == rest;
    } else {
      var e, more := entries[0], entries[1..];
      assert entries == [e] + more;
      TextOfCons(e, more);
      ReadRecord(e, TextOf(more) + rest);
      ReadTextOf(more, rest);
      ConcatAssociates(RecordText(e), TextOf(more), rest);
      EntriesAssociate(AsWritten(e), AllWritten(more), ReadJournal(rest));
    }
  }

  lemma EntriesAssociate(e: Entry, a: seq<Entry>, b: seq<Entry>)
    ensures [e] + (a + b) == ([e] + a) + b
  {
  }

  lemma ReadRecord(e: Entry, rest: string)
    ensures ReadJournal(RecordText(e) + rest) == [AsWritten(e)] + ReadJournal(rest)
  {
    RecordLines(e, rest);
    ParseLineOf(e);
    assert RecordText(e) + rest == LineOf(e) + ['\n'] + rest;
    assert ([LineOf(e)] + Lines(rest))[1..] == Lines(rest);
  }

  // --- A well-formed store --------------------------------------------------------

  // The key index: the last job of each key.
  function KeyIndex(order: seq<string>, byId: map<string, JobRecord>): map<string, string>
    requires forall id :: id in order ==> id in byId
  {
    if order == [] then map[]
    else IndexKey(KeyIndex(order[..|order| - 1], byId), byId[order[|order| - 1]])
  }

  ghost predicate WellFormed(s: Store) {
    && (forall i, j :: 0 <= i < j < |s.order| ==> s.order[i] != s.order[j])
    && (forall id :: id in s.order <==> id in s.byId)
    && (forall id :: id in s.byId ==> s.byId[id].id == id)
    && s.idByKey == KeyIndex(s.order, s.byId)
  }

  lemma {:induction false} KeyIndexDependsOnKeys(order: seq<string>, a: map<string, JobRecord>, b: map<string, JobRecord>)
    requires forall id :: id in order ==> id in a && id in b && a[id].key == b[id].key && a[id].id == b[id].id
    ensures KeyIndex(order, a) == KeyIndex(order, b)
  {
    if order != [] { KeyIndexDependsOnKeys(order[..|order| - 1], a, b); }
  }

  lemma NewJobKeepsWellFormed(s: Store, r: JobRecord)
    requires WellFormed(s) && r.id !in s.byId
    ensures WellFormed(Apply(s, JobLineEntry(r)))
  {
    AppendedIdIsNew(s.order, r.id);
    AppendedKeyIndex(s.order, s.byId, r);
  }

  lemma AppendedKeyIndex(order: seq<string>, byId: map<string, JobRecord>, r: JobRecord)
    requires (forall id :: id in order ==> id in byId && byId[id].id == id) && r.id !in byId
    ensures forall id :: id in order + [r.id] ==> id in byId[r.id := r]
    ensures KeyIndex(order + [r.id], byId[r.id := r]) == IndexKey(KeyIndex(order, byId), r)
  {
    assert (order + [r.id])[..|order|] == order;
    KeyIndexDependsOnKeys(order, byId, byId[r.id := r]);
  }

  lemma AppendedIdIsNew(order: seq<string>, id: string)
    requires id !in order && forall i, j :: 0 <= i < j < |order| ==> order[i] != order[j]
    ensures forall i, j :: 0 <= i < j < |order + [id]| ==> (order + [id])[i] != (order + [id])[j]
    ensures forall x :: x in order + [id] <==> x in order || x == id
  {
  }

  lemma UpdateKeepsWellFormed(s: Store, id: string, r: JobRecord)
    requires WellFormed(s) && id in s.byId && r.id == id && r.key == s.byId[id].key
    ensures WellFormed(s.(byId := s.byId[id := r]))
  {
    KeyIndexDependsOnKeys(s.order, s.byId, s.byId[id := r]);
  }

  lemma ApplyKeepsWellFormed(s: Store, e: Entry)
    requires WellFormed(s)
    ensures WellFormed(Apply(s, e))
  {
    match e
    case JobLineEntry(r) =>
      if r.id !in s.byId { NewJobKeepsWellFormed(s, r); }
    case StateLineEntry(id, _, _, _, _, _) =>
      if id in s.byId { UpdateKeepsWellFormed(s, id, WithState(s.byId[id], e)); }
    case TokenLineEntry(id, p, c) =>
      if id in s.byId { UpdateKeepsWellFormed(s, id, s.byId[id].(printToken := p, cutToken := c)); }
  }

  lemma {:induction false} ReplayKeepsWellFormed(s: Store, entries: seq<Entry>)
    requires WellFormed(s)
    ensures WellFormed(Replay(s, entries))
  {
    if entries != [] {
      ReplayKeepsWellFormed(s, entries[..|entries| - 1]);
      ApplyKeepsWellFormed(Replay(s, entries[..|entries| - 1]), entries[|entries| - 1]);
    }
  }

  // --- Recovery -------------------------------------------------------------------

  // A job the previous process did not finish: bytes may be out from SendStarted on.
  function RecoverRecord(r: JobRecord, now: uint64): JobRecord {
    if IsTerminal(r.state) then r
    else
      var sent := r.state == SendStarted || r.state == BytesSent || r.state == PrintConfirmed || r.state == CutCommandProcessed;
      r.(state := if sent then Unknown else FailedKnown, reason := UnknownReason, grade := ETransportOnly,
         authority := TransportOnly, method_ := "none", recovered := true, updatedMs := now)
  }

  function Recover(s: Store, now: uint64): Store {
    s.(byId := map id | id in s.byId :: RecoverRecord(s.byId[id], now))
  }

  lemma RecoverKeepsWellFormed(s: Store, now: uint64)
    requires WellFormed(s)
    ensures WellFormed(Recover(s, now)) && forall id :: id in s.byId ==> IsTerminal(Recover(s, now).byId[id].state)
  {
    KeyIndexDependsOnKeys(s.order, s.byId, Recover(s, now).byId);
  }

  // The journal does not carry the in-memory `recovered` mark.
  function Persisted(s: Store): Store {
    s.(byId := map id | id in s.byId :: s.byId[id].(recovered := false))
  }

  // --- Compaction -----------------------------------------------------------------

  function StateEntryOf(r: JobRecord): Entry {
    StateLineEntry(r.id, r.state, r.confidence, r.reason, r.updatedMs, JobEvidence(r.grade, r.authority, r.method_))
  }

  function CompactEntries(order: seq<string>, byId: map<string, JobRecord>): seq<Entry>
    requires forall id :: id in order ==> id in byId
  {
    if order == [] then []
    else
      var r := byId[order[|order| - 1]];
      CompactEntries(order[..|order| - 1], byId) + [JobLineEntry(r), StateEntryOf(r)]
  }

  const HEADER: string := "#PDJOURNAL\t3"

  function CompactText(s: Store): string
    requires forall id :: id in s.order ==> id in s.byId
  {
    HEADER + ['\n'] + TextOf(CompactEntries(s.order, s.byId))
  }

  lemma {:induction false} AllWrittenConcat(a: seq<Entry>, b: seq<Entry>)
    ensures AllWritten(a + b) == AllWritten(a) + AllWritten(b)
  {
    if a == [] {
      assert a + b == b;
    } else {
      AllWrittenConcat(a[1..], b);
      assert (a + b)[1..] == a[1..] + b;
      EntriesAssociate(AsWritten(a[0]), AllWritten(a[1..]), AllWritten(b));
    }
  }

  // The persisted records of some jobs.
  function Restricted(byId: map<string, JobRecord>, ids: seq<string>): map<string, JobRecord>
    requires forall id :: id in ids ==> id in byId
  {
    map id | id in ids :: byId[id].(recovered := false)
  }

  lemma RestrictedGrows(byId: map<string, JobRecord>, ids: seq<string>, x: string)
    requires x in byId && forall id :: id in ids ==> id in byId
    ensures Restricted(byId, ids + [x]) == Restricted(byId, ids)[x := byId[x].(recovered := false)]
  {
  }

  function Prefix(s: Store, k: nat): Store
    requires k <= |s.order| && forall id :: id in s.order ==> id in s.byId
  {
    Store(Restricted(s.byId, s.order[..k]), s.order[..k], KeyIndex(s.order[..k], s.byId))
  }

  // J then S of one job, replayed on a store that has not seen it.
  lemma ReplayOneJob(s: Store, r: JobRecord)
    requires r.id !in s.byId
    ensures Replay(s, AllWritten([JobLineEntry(r), StateEntryOf(r)]))
            == Store(s.byId[r.id := r.(recovered := false)], s.order + [r.id], IndexKey(s.idByKey, r))
  {
    var j, st := AsWritten(JobLineEntry(r)), StateEntryOf(r);
    var both := [JobLineEntry(r), st];
    assert both[1..] == [st] && [st][1..] == [];
    assert AllWritten([st]) == [st] + AllWritten([]);
    assert AllWritten(both) == [j] + AllWritten([st]);
    assert AllWritten(both) == [j, st];
    assert [j, st][..1] == [j] && [j][..0] == [];
    assert Replay(s, [j]) == Apply(s, j);
    assert Replay(s, [j, st]) == Apply(Apply(s, j), st);
    assert Apply(Apply(s, j), st).byId == s.byId[r.id := r.(recovered := false)];
  }

  lemma {:induction false} ReplayCompact(s: Store, k: nat)
    requires WellFormed(s) && k <= |s.order|
    ensures Replay(EMPTY_STORE, AllWritten(CompactEntries(s.order[..k], s.byId))) == Prefix(s, k)
  {
    var order := s.order[..k];
    if k == 0 {
      assert order == [];
    } else {
      assert order[..k - 1] == s.order[..k - 1];
      var r := s.byId[order[k - 1]];
      ReplayCompact(s, k - 1);
      AllWrittenConcat(CompactEntries(order[..k - 1], s.byId), [JobLineEntry(r), StateEntryOf(r)]);
      ReplayConcat(EMPTY_STORE, AllWritten(CompactEntries(order[..k - 1], s.byId)), AllWritten([JobLineEntry(r), StateEntryOf(r)]));
      assert r.id == order[k - 1] && r.id !in s.order[..k - 1];
      ReplayOneJob(Prefix(s, k - 1), r);
      PrefixStep(s, k);
    }
  }

  lemma PrefixStep(s: Store, k: nat)
    requires WellFormed(s) && 0 < k <= |s.order|
    ensures var r := s.byId[s.order[k - 1]];
            var before := Prefix(s, k - 1);
            Prefix(s, k) == Store(before.byId[r.id := r.(recovered := false)], before.order + [r.id], IndexKey(before.idByKey, r))
  {
    var r := s.byId[s.order[k - 1]];
    assert s.order[..k][..k - 1] == s.order[..k - 1];
    assert s.order[..k] == s.order[..k - 1] + [r.id];
    RestrictedGrows(s.byId, s.order[..k - 1], r.id);
  }

  lemma HeaderIsSkipped(rest: string)
    ensures ReadJournal(HEADER + ['\n'] + rest) == ReadJournal(rest)
  {
    var text := HEADER + ['\n'] + rest;
    assert LineEnd(text) == 12 by { HeaderLine(rest); }
    assert text[..12] == HEADER && text[13..] == rest;
    assert ParseLine(HEADER).None?;
    assert ([HEADER] + Lines(rest))[1..] == Lines(rest);
  }

  lemma HeaderLine(rest: string)
    ensures LineEnd(HEADER + ['\n'] + rest) == 12
  {
    var text := HEADER + ['\n'] + rest;
    var e := LineEnd(text);
    assert forall i :: 0 <= i < 12 ==> text[i] == HEADER[i] && HEADER[i] != '\n';
    assert text[12] == '\n';
  }

  // A compacted journal rebuilds exactly the store it was written from.
  lemma CompactRebuilds(s: Store)
    requires WellFormed(s)
    ensures Rebuild(CompactText(s)) == Persisted(s)
  {
    var entries := CompactEntries(s.order, s.byId);
    HeaderIsSkipped(TextOf(entries));
    ReadTextOf(entries, []);
    assert TextOf(entries) + [] == TextOf(entries);
    assert ReadJournal(TextOf(entries)) == AllWritten(entries) + [];
    assert AllWritten(entries) + [] == AllWritten(entries);
    assert s.order[..|s.order|] == s.order;
    ReplayCompact(s, |s.order|);
  }

  // Load, recover, compact, load again: a fixpoint with nothing further to recover.
  lemma RestartIsAFixpoint(text: string, now: uint64, later: uint64)
    ensures var first := Recover(Rebuild(text), now);
            && (forall id :: id in first.order ==> id in first.byId)
            && Rebuild(CompactText(first)) == Persisted(first)
            && Recover(Rebuild(CompactText(first)), later) == Rebuild(CompactText(first))
  {
    assert WellFormed(EMPTY_STORE);
    ReplayKeepsWellFormed(EMPTY_STORE, ReadJournal(text));
    RecoverKeepsWellFormed(Rebuild(text), now);
    var first := Recover(Rebuild(text), now);
    CompactRebuilds(first);
    assert Recover(Persisted(first), later).byId == Persisted(first).byId;
  }

  // --- A crash inside an append ---------------------------------------------------

  // The store a journal rebuilds when its last append was cut short.
  ghost predicate TornResult(s: Store, e: Entry, after: Store) {
    after == s || exists torn :: TornEntry(e, torn) && after == Apply(s, torn)
  }

  // A crash while one record is being appended leaves the state before it, or the state
  // after it up to fields that decide nothing.
  lemma TornAppend(journal: string, e: Entry, n: nat)
    requires Complete(journal) && n <= |LineOf(e)|
    ensures TornResult(Rebuild(journal), e, Rebuild(journal + LineOf(e)[..n]))
  {
    var text := LineOf(e)[..n];
    AppendReplays(journal, text);
    TornRecordLines(e, n);
    TornLine(e, n);
    if n > 0 {
      assert [text][1..] == [];
      match ParseLine(text)
      case None => assert ReadJournal(text) == ParseAll([text]) == ParseAll([text][1..]);
      case Some(torn) =>
        assert ReadJournal(text) == ParseAll([text]) == [torn] + ParseAll([text][1..]);
        assert ([torn] + [])[..0] == [];
        assert Replay(Rebuild(journal), [torn] + []) == Apply(Rebuild(journal), torn);
    }
  }

  lemma AppendRecord(journal: string, e: Entry)
    requires Complete(journal)
    ensures Complete(journal + RecordText(e)) && Rebuild(journal + RecordText(e)) == Apply(Rebuild(journal), AsWritten(e))
  {
    AppendReplays(journal, RecordText(e));
    ReadTextOf([e], []);
    TextOfCons(e, []);
    assert [e] + [] == [e] && [e][1..] == [];
    assert TextOf([e]) + [] == RecordText(e);
    assert AllWritten([e]) + ReadJournal([]) == [AsWritten(e)];
    assert [AsWritten(e)][..0] == [];
    assert Replay(Rebuild(journal), [AsWritten(e)]) == Apply(Rebuild(journal), AsWritten(e));
  }

  lemma AppendTwo(journal: string, a: Entry, b: Entry)
    requires Complete(journal)
    ensures Complete(journal + (RecordText(a) + RecordText(b)))
    ensures Rebuild(journal + (RecordText(a) + RecordText(b))) == Apply(Apply(Rebuild(journal), AsWritten(a)), AsWritten(b))
  {
    AppendRecord(journal, a);
    AppendRecord(journal + RecordText(a), b);
    ConcatAssociates(journal, RecordText(a), RecordText(b));
  }

  lemma CutBatch(job: string, queued: string, n: nat)
    requires n <= |job + ['\n'] + queued|
    ensures n <= |job| ==> (job + ['\n'] + queued)[..n] == job[..n]
    ensures n > |job| ==> (job + ['\n'] + queued)[..n] == job + ['\n'] + queued[..n - |job| - 1]
  {
  }

  // The same for the two-record batch that creates a job.
  lemma TornCreate(journal: string, job: Entry, queued: Entry, n: nat)
    requires Complete(journal) && n <= |RecordText(job) + LineOf(queued)|
    ensures var after := Rebuild(journal + (RecordText(job) + LineOf(queued))[..n]);
            || TornResult(Rebuild(journal), job, after)
            || TornResult(Apply(Rebuild(journal), AsWritten(job)), queued, after)
  {
    if n <= |LineOf(job)| { TornFirst(journal, job, queued, n); } else { TornSecond(journal, job, queued, n); }
  }

  lemma TornFirst(journal: string, first: Entry, second: Entry, n: nat)
    requires Complete(journal) && n <= |LineOf(first)|
    ensures TornResult(Rebuild(journal), first, Rebuild(journal + (RecordText(first) + LineOf(second))[..n]))
  {
    CutBatch(LineOf(first), LineOf(second), n);
    TornAppend(journal, first, n);
  }

  lemma TornSecond(journal: string, first: Entry, second: Entry, n: nat)
    requires Complete(journal) && |LineOf(first)| < n <= |RecordText(first) + LineOf(second)|
    ensures TornResult(Apply(Rebuild(journal), AsWritten(first)), second, Rebuild(journal + (RecordText(first) + LineOf(second))[..n]))
  {
    CutBehind(RecordText(first), LineOf(second), n);
    TornAfter(journal, first, second, n - |RecordText(first)|);
  }

  lemma CutBehind(x: string, y: string, n: nat)
    requires |x| <= n <= |x + y|
    ensures (x + y)[..n] == x + y[..n - |x|]
  {
  }

  lemma TornAfter(journal: string, first: Entry, second: Entry, m: nat)
    requires Complete(journal) && m <= |LineOf(second)|
    ensures TornResult(Apply(Rebuild(journal), AsWritten(first)), second, Rebuild(journal + (RecordText(first) + LineOf(second)[..m])))
  {
    ConcatAssociates(journal, RecordText(first), LineOf(second)[..m]);
    AppendRecord(journal, first);
    TornAppend(journal + RecordText(first), second, m);
  }

  // --- The store object -----------------------------------------------------------

  lemma PersistedApply(s: Store, e: Entry)
    requires !e.JobLineEntry?
    ensures Persisted(Apply(s, e)) == Apply(Persisted(s), e)
  {
    assert Persisted(Apply(s, e)).byId == Apply(Persisted(s), e).byId;
  }

  lemma PersistedNewJob(s: Store, r: JobRecord)
    requires r.id !in s.byId
    ensures Persisted(Store(s.byId[r.id := r], s.order + [r.id], IndexKey(s.idByKey, r)))
            == Apply(Apply(Persisted(s), AsWritten(JobLineEntry(r))), StateEntryOf(r))
  {
    var after := Store(s.byId[r.id := r], s.order + [r.id], IndexKey(s.idByKey, r));
    var replayed := Apply(Apply(Persisted(s), AsWritten(JobLineEntry(r))), StateEntryOf(r));
    assert Persisted(after).byId == replayed.byId;
  }

  // Appending a record and folding it into the maps go together.
  lemma AppendKeepsStore(text: string, s: Store, e: Entry, journal: string, after: Store)
    requires Complete(text) && WellFormed(s) && Rebuild(text) == Persisted(s) && !e.JobLineEntry?
    requires journal == text + RecordText(e) && after == Apply(s, e)
    ensures Complete(journal) && WellFormed(after) && Rebuild(journal) == Persisted(after)
  {
    AppendRecord(text, e);
    PersistedApply(s, e);
    ApplyKeepsWellFormed(s, e);
  }

  lemma CreateKeepsStore(journal: string, s: Store, r: JobRecord)
    requires Complete(journal) && WellFormed(s) && Rebuild(journal) == Persisted(s) && r.id !in s.byId
    ensures var t := Store(s.byId[r.id := r], s.order + [r.id], IndexKey(s.idByKey, r));
            var text := RecordText(JobLineEntry(r)) + RecordText(StateEntryOf(r));
            WellFormed(t) && Complete(journal + text) && Rebuild(journal + text) == Persisted(t)
  {
    AppendTwo(journal, JobLineEntry(r), StateEntryOf(r));
    PersistedNewJob(s, r);
    NewJobKeepsWellFormed(s, r);
  }

  // Recovery applied to the first k jobs of the order.
  function RecoverFirst(s: Store, k: nat, now: uint64): map<string, JobRecord>
    requires k <= |s.order|
  {
    map id | id in s.byId :: if id in s.order[..k] then RecoverRecord(s.byId[id], now) else s.byId[id]
  }

  function UnfinishedFirst(s: Store, k: nat): set<string>
    requires k <= |s.order|
  {
    set id | id in s.byId && id in s.order[..k] && !IsTerminal(s.byId[id].state)
  }

  lemma RecoverFirstStep(s: Store, k: nat, now: uint64)
    requires WellFormed(s) && k < |s.order|
    ensures s.order[k] in s.byId && RecoverFirst(s, k, now)[s.order[k]] == s.byId[s.order[k]]
    ensures RecoverFirst(s, k + 1, now) == RecoverFirst(s, k, now)[s.order[k] := RecoverRecord(s.byId[s.order[k]], now)]
  {
    var id := s.order[k];
    assert s.order[..k + 1] == s.order[..k] + [id];
    assert id in s.order && id !in s.order[..k];
    RecoverOneMore(s.byId, s.order[..k], id, now);
  }

  lemma RecoverOneMore(byId: map<string, JobRecord>, first: seq<string>, id: string, now: uint64)
    requires id in byId && id !in first
    ensures (map x | x in byId :: if x in first + [id] then RecoverRecord(byId[x], now) else byId[x])
            == (map x | x in byId :: if x in first then RecoverRecord(byId[x], now) else byId[x])[id := RecoverRecord(byId[id], now)]
  {
  }

  lemma RecoverFirstNone(s: Store, now: uint64)
    ensures RecoverFirst(s, 0, now) == s.byId && UnfinishedFirst(s, 0) == {}
  {
  }

  lemma RecoverFirstAll(s: Store, now: uint64)
    requires WellFormed(s)
    ensures RecoverFirst(s, |s.order|, now) == Recover(s, now).byId
    ensures UnfinishedFirst(s, |s.order|) == Unfinished(s)
  {
    assert s.order[..|s.order|] == s.order;
  }

  lemma UnfinishedFirstStep(s: Store, k: nat)
    requires WellFormed(s) && k < |s.order|
    ensures s.order[k] in s.byId && s.order[k] !in UnfinishedFirst(s, k)
    ensures UnfinishedFirst(s, k + 1)
            == UnfinishedFirst(s, k) + (if IsTerminal(s.byId[s.order[k]].state) then {} else {s.order[k]})
  {
    var id := s.order[k];
    assert s.order[..k + 1] == s.order[..k] + [id];
    assert id in s.order && id !in s.order[..k];
  }

  function Unfinished(s: Store): set<string> {
    set id | id in s.byId && !IsTerminal(s.byId[id].state)
  }

  class JobStore {
    var journal: string
    var byId: map<string, JobRecord>
    var order: seq<string>
    var idByKey: map<string, string>
    var recoveredCount: nat

    function Abstract(): Store
      reads this
    {
      Store(byId, order, idByKey)
    }

    // The journal on disk rebuilds the maps in memory.
    ghost predicate Valid()
      reads this
    {
      Complete(journal) && WellFormed(Abstract()) && Rebuild(journal) == Persisted(Abstract())
    }

    // Opens whatever the previous process left on disk, a torn last line included.
    constructor (text: string, now: uint64)
      ensures Valid() && Abstract() == Recover(Rebuild(text), now)
      ensures journal == CompactText(Abstract())
      ensures recoveredCount == |Unfinished(Rebuild(text))|
    {
      journal, byId, order, idByKey, recoveredCount := text, map[], [], map[], 0;
      new;
      Load(now);
      RestartIsAFixpoint(text, now, now);
      assert WellFormed(EMPTY_STORE);
      ReplayKeepsWellFormed(EMPTY_STORE, ReadJournal(text));
      RecoverKeepsWellFormed(Rebuild(text), now);
      Compact();
    }

    method Load(now: uint64)
      requires byId == map[] && order == [] && idByKey == map[] && recoveredCount == 0
      modifies this
      ensures journal == old(journal) && Abstract() == Recover(Rebuild(old(journal)), now)
      ensures recoveredCount == |Unfinished(Rebuild(old(journal)))|
    {
      ReplayAll(ReadJournal(journal));
      assert WellFormed(EMPTY_STORE);
      ReplayKeepsWellFormed(EMPTY_STORE, ReadJournal(journal));
      RecoverAll(now);
    }

    method ReplayAll(entries: seq<Entry>)
      requires Abstract() == EMPTY_STORE
      modifies this
      ensures Abstract() == Replay(EMPTY_STORE, entries)
      ensures journal == old(journal) && recoveredCount == old(recoveredCount)
    {
      for i := 0 to |entries|
        invariant Abstract() == Replay(EMPTY_STORE, entries[..i])
        invariant journal == old(journal) && recoveredCount == old(recoveredCount)
      {
        ghost var before := Abstract();
        match entries[i] {
          case JobLineEntry(r) =>
            if r.id !in byId {
              byId, order := byId[r.id := r], order + [r.id];
              if r.key != [] { idByKey := idByKey[r.key := r.id]; }
            }
          case TokenLineEntry(id, p, c) =>
            if id in byId { byId := byId[id := byId[id].(printToken := p, cutToken := c)]; }
          case StateLineEntry(id, _, _, _, _, _) =>
            if id in byId { byId := byId[id := WithState(byId[id], entries[i])]; }
        }
        assert Abstract() == Apply(before, entries[i]);
        assert entries[..i + 1][..i] == entries[..i];
      }
      assert entries[..|entries|] == entries;
    }

    method RecoverOne(id: string, now: uint64)
      requires id in byId
      modifies this
      ensures byId == old(byId)[id := RecoverRecord(old(byId)[id], now)]
      ensures recoveredCount == old(recoveredCount) + (if IsTerminal(old(byId)[id].state) then 0 else 1)
      ensures journal == old(journal) && order == old(order) && idByKey == old(idByKey)
    {
      var record := byId[id];
      if !IsTerminal(record.state) {
        var sent := match record.state
          case SendStarted => true
          case BytesSent => true
          case PrintConfirmed => true
          case CutCommandProcessed => true
          case _ => false;
        byId := byId[id := record.(state := if sent then Unknown else FailedKnown, reason := UnknownReason,
                                   grade := ETransportOnly, authority := TransportOnly, method_ := "none",
                                   recovered := true, updatedMs := now)];
        recoveredCount := recoveredCount + 1;
      }
      assert record == old(byId)[id];
    }

    method RecoverAll(now: uint64)
      requires WellFormed(Abstract()) && recoveredCount == 0
      modifies this
      ensures journal == old(journal) && Abstract() == Recover(old(Abstract()), now)
      ensures recoveredCount == |Unfinished(old(Abstract()))|
    {
      ghost var loaded := Abstract();
      RecoverFirstNone(loaded, now);
      for i := 0 to |order|
        invariant order == loaded.order && idByKey == loaded.idByKey && journal == old(journal)
        invariant byId == RecoverFirst(loaded, i, now)
        invariant recoveredCount == |UnfinishedFirst(loaded, i)|
      {
        RecoverFirstStep(loaded, i, now);
        UnfinishedFirstStep(loaded, i);
        RecoverOne(order[i], now);
      }
      RecoverFirstAll(loaded, now);
    }

    method Compact()
      requires WellFormed(Abstract())
      modifies `journal
      ensures Valid() && journal == CompactText(Abstract())
    {
      var content := HEADER + ['\n'];
      for i := 0 to |order|
        invariant content == HEADER + ['\n'] + TextOf(CompactEntries(order[..i], byId))
      {
        var record := byId[order[i]];
        CompactStep(order, byId, i);
        content := content + RecordText(JobLineEntry(record));
        content := content + RecordText(StateEntryOf(record));
      }
      assert order[..|order|] == order;
      journal := content;
      CompactRebuilds(Abstract());
      TextIsComplete(CompactEntries(order, byId));
    }

    // The job line and its first state line go out in one append.
    method SubmitBatch(r: JobRecord) returns (batch: string)
      ensures batch == RecordText(JobLineEntry(r)) + RecordText(StateEntryOf(r))
    {
      batch := RecordText(JobLineEntry(r)) + LineOf(StateEntryOf(r));
      ConcatAssociates(RecordText(JobLineEntry(r)), LineOf(StateEntryOf(r)), ['\n']);
      batch := batch + ['\n'];
    }

    // False stands for the duplicate-id error.
    method CreateJob(record: JobRecord, now: uint64) returns (ok: bool)
      requires Valid()
      modifies this
      ensures Valid()
      ensures ok <==> record.id !in old(byId)
      ensures !ok ==> journal == old(journal) && Abstract() == old(Abstract())
      ensures ok ==> var stored := Created(record, now);
                     && journal == old(journal) + (RecordText(JobLineEntry(stored)) + RecordText(StateEntryOf(stored)))
                     && byId == old(byId)[record.id := stored] && order == old(order) + [record.id]
                     && idByKey == IndexKey(old(idByKey), stored)
    {
      if record.id in byId { return false; }
      var stored := Created(record, now);
      var batch := SubmitBatch(stored);
      Install(stored, batch);
      return true;
    }

    method Install(r: JobRecord, batch: string)
      requires Valid() && r.id !in byId && batch == RecordText(JobLineEntry(r)) + RecordText(StateEntryOf(r))
      modifies this
      ensures Valid() && journal == old(journal) + batch
      ensures byId == old(byId)[r.id := r] && order == old(order) + [r.id] && idByKey == IndexKey(old(idByKey), r)
    {
      CreateKeepsStore(journal, Abstract(), r);
      ghost var grown := Store(byId[r.id := r], order + [r.id], IndexKey(idByKey, r));
      journal := journal + batch;
      byId, order, idByKey := byId[r.id := r], order + [r.id], IndexKey(idByKey, r);
      assert Abstract() == grown;
    }

    // False stands for the unknown-id error.
    method RecordState(id: string, state: JobState, confidence: ConfidenceLevel, reason: FailureReason,
                       evidence: JobEvidence, now: uint64) returns (ok: bool)
      requires Valid()
      modifies this
      ensures Valid()
      ensures ok <==> id in old(byId)
      ensures !ok ==> journal == old(journal) && Abstract() == old(Abstract())
      ensures ok ==> var e := StateLineEntry(id, state, confidence, reason, now, evidence);
                     journal == old(journal) + RecordText(e) && Abstract() == Apply(old(Abstract()), e)
    {
      if id !in byId { return false; }
      var e := StateLineEntry(id, state, confidence, reason, now, evidence);
      var r := byId[id];
      Commit(e, r.(state := state, confidence := confidence, reason := reason, grade := evidence.grade,
                   authority := evidence.authority, method_ := evidence.method_, updatedMs := now));
      return true;
    }

    // One record appended, and the same change made to the job in memory.
    method Commit(e: Entry, r: JobRecord)
      requires Valid() && !e.JobLineEntry? && e.id in byId && Apply(Abstract(), e) == Abstract().(byId := byId[e.id := r])
      modifies `journal, `byId
      ensures Valid() && journal == old(journal) + RecordText(e) && Abstract() == Apply(old(Abstract()), e)
    {
      ghost var text, before := journal, Abstract();
      journal := journal + (LineOf(e) + ['\n']);
      byId := byId[e.id := r];
      AppendKeepsStore(text, before, e, journal, Abstract());
    }

    method RecordTokens(id: string, printToken: string, cutToken: string) returns (ok: bool)
      requires Valid()
      modifies this
      ensures Valid()
      ensures ok <==> id in old(byId)
      ensures !ok ==> journal == old(journal) && Abstract() == old(Abstract())
      ensures ok ==> var e := TokenLineEntry(id, printToken, cutToken);
                     journal == old(journal) + RecordText(e) && Abstract() == Apply(old(Abstract()), e)
    {
      if id !in byId { return false; }
      var e := TokenLineEntry(id, printToken, cutToken);
      Commit(e, byId[id].(printToken := printToken, cutToken := cutToken));
      return true;
    }

    // The newest job submitted under a key; the empty key is nobody's.
    method FindByKey(key: string) returns (found: Option<JobRecord>)
      requires Valid()
      ensures found.None? <==> key == [] || forall id :: id in order ==> byId[id].key != key
      ensures found.Some? ==> exists i :: 0 <= i < |order| && byId[order[i]] == found.value && LastOfKey(order, byId, key, i)
    {
      KeyIndexFinds(order, byId, key);
      if key !in idByKey { return None; }
      var id := idByKey[key];
      if id !in byId { return None; }
      return Some(byId[id]);
    }
  }

  // The record a creation stores: always queued, with no evidence yet.
  function Created(r: JobRecord, now: uint64): JobRecord {
    var created := if r.createdMs == 0 then now else r.createdMs;
    r.(createdMs := created, updatedMs := created, state := Queued, confidence := TransportAccepted,
       reason := NoReason, grade := ETransportOnly, authority := TransportOnly, method_ := "none", recovered := false)
  }

  // Position i holds the newest job of a key.
  predicate LastOfKey(order: seq<string>, byId: map<string, JobRecord>, key: string, i: nat)
    requires i < |order| && forall id :: id in order ==> id in byId
  {
    byId[order[i]].key == key && forall j :: i < j < |order| ==> byId[order[j]].key != key
  }

  lemma {:induction false} KeyIndexFinds(order: seq<string>, byId: map<string, JobRecord>, key: string)
    requires forall id :: id in order ==> id in byId && byId[id].id == id
    ensures key !in KeyIndex(order, byId) <==> key == [] || forall id :: id in order ==> byId[id].key != key
    ensures key in KeyIndex(order, byId) ==>
              exists i :: 0 <= i < |order| && order[i] == KeyIndex(order, byId)[key] && LastOfKey(order, byId, key, i)
  {
    if order != [] {
      var n := |order| - 1;
      KeyIndexFinds(order[..n], byId, key);
      assert order == order[..n] + [order[n]];
      if byId[order[n]].key != key && key in KeyIndex(order[..n], byId) {
        var i :| 0 <= i < n && order[..n][i] == KeyIndex(order[..n], byId)[key] && LastOfKey(order[..n], byId, key, i);
        assert forall j :: i <= j < n ==> order[..n][j] == order[j];
        assert LastOfKey(order, byId, key, i);
      }
      if byId[order[n]].key == key { assert LastOfKey(order, byId, key, n); }
    }
  }

  lemma CompactStep(order: seq<string>, byId: map<string, JobRecord>, i: nat)
    requires i < |order| && forall id :: id in order ==> id in byId
    ensures var r := byId[order[i]];
            HEADER + ['\n'] + TextOf(CompactEntries(order[..i + 1], byId))
            == HEADER + ['\n'] + TextOf(CompactEntries(order[..i], byId)) + RecordText(JobLineEntry(r)) + RecordText(StateEntryOf(r))
  {
    var r := byId[order[i]];
    assert order[..i + 1][..i] == order[..i];
    TextOfTwo(CompactEntries(order[..i], byId), JobLineEntry(r), StateEntryOf(r));
    ContentGrows(TextOf(CompactEntries(order[..i], byId)), RecordText(JobLineEntry(r)), RecordText(StateEntryOf(r)));
  }

  lemma ContentGrows(sofar: string, a: string, b: string)
    ensures HEADER + ['\n'] + (sofar + (a + b)) == HEADER + ['\n'] + sofar + a + b
  {
  }

  lemma {:induction false} ConcatTwo(texts: seq<string>, a: string, b: string)
    ensures Concat(texts + [a, b]) == Concat(texts) + (a + b)
  {
    if texts == [] {
      assert [] + [a, b] == [a, b] && [a, b][1..] == [b] && [b][1..] == [];
      assert Concat([b]) == b + [];
    } else {
      ConcatTwo(texts[1..], a, b);
      assert (texts + [a, b])[1..] == texts[1..] + [a, b];
      ConcatAssociates(texts[0], Concat(texts[1..]), a + b);
    }
  }

  lemma TextsAssociate(t: string, a: seq<string>, b: seq<string>)
    ensures [t] + (a + b) == ([t] + a) + b
  {
  }

  lemma TwoTexts(a: Entry, b: Entry)
    ensures RecordTexts([a, b]) == [RecordText(a), RecordText(b)]
  {
    assert [a, b][1..] == [b] && [b][1..] == [];
    assert RecordTexts([b]) == [RecordText(b)] + RecordTexts([]);
  }

  lemma {:induction false} RecordTextsTwo(entries: seq<Entry>, a: Entry, b: Entry)
    ensures RecordTexts(entries + [a, b]) == RecordTexts(entries) + [RecordText(a), RecordText(b)]
  {
    if entries == [] {
      TwoTexts(a, b);
      assert [] + [a, b] == [a, b];
    } else {
      RecordTextsTwo(entries[1..], a, b);
      assert (entries + [a, b])[1..] == entries[1..] + [a, b];
      TextsAssociate(RecordText(entries[0]), RecordTexts(entries[1..]), [RecordText(a), RecordText(b)]);
    }
  }

  lemma TextOfTwo(entries: seq<Entry>, a: Entry, b: Entry)
    ensures TextOf(entries + [a, b]) == TextOf(entries) + (RecordText(a) + RecordText(b))
  {
    RecordTextsTwo(entries, a, b);
    ConcatTwo(RecordTexts(entries), RecordText(a), RecordText(b));
  }

  lemma {:induction false} TextIsComplete(entries: seq<Entry>)
    ensures Complete(TextOf(entries)) && Complete(HEADER + ['\n'] + TextOf(entries))
  {
    if entries != [] {
      TextIsComplete(entries[1..]);
      assert entries == [entries[0]] + entries[1..];
      TextOfCons(entries[0], entries[1..]);
    }
  }
}

// What a link does to one job, and what becomes of the job (core/src/driver.cpp: sendPaced,
// runJob, runStarJob). A script fixes everything the adversary does: where writes fail and
// what they still take, every read at every point, drops. The facts a job meets are then a
// function of the script, and so is its trace.

module Preflights {
  import opened PrinterTypes
  import P = EscPosParser
  import JobTraces

  // The flags of a DLE EOT answer that preflight reads; None where the answer says nothing.
  datatype Flags = Flags(online: Option<bool>, coverOpen: Option<bool>, paperOut: Option<bool>,
                         cutterError: Option<bool>, unrecoverable: Option<bool>)

  const NO_FLAGS := Flags(None, None, None, None, None)

  predicate Bit(v: byte, n: nat) { n < 8 && v / [1, 2, 4, 8, 16, 32, 64, 128][n] % 2 == 1 }

  function DecodeRealtime(kind: P.DleEotKind, v: byte): Flags {
    match kind
    case PrinterStatus => NO_FLAGS.(online := Some(!Bit(v, 3)))
    case OfflineCause => NO_FLAGS.(coverOpen := Some(Bit(v, 2)), paperOut := Some(Bit(v, 5)))
    case ErrorCause => NO_FLAGS.(cutterError := Some(Bit(v, 3)), unrecoverable := Some(Bit(v, 5)))
    case PaperSensor => NO_FLAGS.(paperOut := Some(Bit(v, 5)))
  }

  function Over(a: Option<bool>, b: Option<bool>): Option<bool> { if b.Some? then b else a }

  function Merge(a: Flags, b: Flags): Flags {
    Flags(Over(a.online, b.online), Over(a.coverOpen, b.coverOpen), Over(a.paperOut, b.paperOut),
          Over(a.cutterError, b.cutterError), Over(a.unrecoverable, b.unrecoverable))
  }

  function FlagsOf(e: P.Event): Flags {
    if e.RealtimeStatus? then DecodeRealtime(e.kind, e.value) else NO_FLAGS
  }

  function Merged(answers: seq<P.Event>): Flags {
    if answers == [] then NO_FLAGS else Merge(Merged(answers[..|answers| - 1]), FlagsOf(answers[|answers| - 1]))
  }

  function Refusal(f: Flags): Option<FailureReason> {
    if f.coverOpen == Some(true) then Some(PreflightCoverOpen)
    else if f.paperOut == Some(true) then Some(PreflightPaperOut)
    else if f.unrecoverable == Some(true) || f.cutterError == Some(true) || f.online == Some(false) then Some(PreflightHardwareError)
    else None
  }

  function Verdict(answers: seq<P.Event>): JobTraces.Preflight {
    if Refusal(Merged(answers)).Some? then JobTraces.Refused(Refusal(Merged(answers)).value)
    else if answers != [] then JobTraces.Healthy
    else JobTraces.Silent
  }

  // What an answer alone would refuse for.
  predicate Troubled(e: P.Event) { Refusal(FlagsOf(e)).Some? }

  // A refusal rests on an answer that reports trouble; healthy answers never refuse, and
  // trouble in the last answer always does.
  lemma {:induction false} RefusalHasEvidence(answers: seq<P.Event>)
    ensures Verdict(answers).Refused? ==> exists e :: e in answers && Troubled(e)
    ensures answers != [] && Troubled(answers[|answers| - 1]) ==> Verdict(answers).Refused?
  {
    if answers != [] {
      var n := |answers| - 1;
      RefusalHasEvidence(answers[..n]);
      assert answers == answers[..n] + [answers[n]];
      if Verdict(answers).Refused? && !Troubled(answers[n]) {
        var e :| e in answers[..n] && Troubled(e);
        assert e in answers;
      } else if Troubled(answers[n]) {
        assert answers[n] in answers;
      }
    }
  }

  // One answer per query in the order asked: the exact refusal, the cover first, then
  // paper from either sensor -- the roll sensor's answer overrides -- then hardware.
  lemma FourAnswers(status: byte, cause: byte, error: byte, paper: byte)
    ensures Verdict([P.RealtimeStatus(P.PrinterStatus, status), P.RealtimeStatus(P.OfflineCause, cause),
                     P.RealtimeStatus(P.ErrorCause, error), P.RealtimeStatus(P.PaperSensor, paper)]) ==
            (if Bit(cause, 2) then JobTraces.Refused(PreflightCoverOpen)
             else if Bit(paper, 5) then JobTraces.Refused(PreflightPaperOut)
             else if Bit(error, 5) || Bit(error, 3) || Bit(status, 3) then JobTraces.Refused(PreflightHardwareError)
             else JobTraces.Healthy)
  {
    var a, b := P.RealtimeStatus(P.PrinterStatus, status), P.RealtimeStatus(P.OfflineCause, cause);
    var c, d := P.RealtimeStatus(P.ErrorCause, error), P.RealtimeStatus(P.PaperSensor, paper);
    assert [a, b, c, d][..3] == [a, b, c] && [a, b, c][..2] == [a, b] && [a, b][..1] == [a] && [a][..0] == [];
    assert Merged([a]) == Merge(Merged([]), FlagsOf(a));
    assert Merged([a, b]) == Merge(Merged([a]), FlagsOf(b));
    assert Merged([a, b, c]) == Merge(Merged([a, b]), FlagsOf(c));
    assert Merged([a, b, c, d]) == Merge(Merged([a, b, c]), FlagsOf(d));
  }
}

module JobScripts {
  import opened PrinterTypes
  import opened JobTraces
  import opened Preflights
  import opened CodePages
  import opened JournalText
  import E = EscPosEncoding
  import SE = StarEncoding
  import M = Markers
  import P = EscPosParser
  import B = Backchannels
  import F = StarFences

  // --- The adversary's script -----------------------------------------------------

  // One transfer: the write it fails at and what that write still took, the reads that
  // arrive meanwhile, and whether the link drops.
  datatype Io = Io(failsAt: Option<nat>, partial: nat, chunks: seq<seq<byte>>, drops: bool)

  // One wait. `custom` is how a registered matcher answers; it is foreign code.
  datatype Wait = Wait(chunks: seq<seq<byte>>, drops: bool, stopping: bool, custom: WaitOutcome)

  // Everything outside the driver, in the order a job meets it. The last two are what a
  // registered method's fence function returns for the print and the cut.
  datatype Script = Script(connects: bool, probe: Io, probeWait: Wait, payload: Io, fence: Io, printWait: Wait,
                           cut: Io, cutWait: Wait, status: Io, statusWait: Wait,
                           printFence: seq<byte>, cutFence: seq<byte>)

  // `body` is what the payload holds behind the initialise command.
  datatype Job = Job(id: string, profile: Profile, options: Options, body: seq<byte>, now: uint64)

  function CutOf(j: Job): Cut { EffectiveCut(j.options.cut, j.profile) }

  // --- What the link takes of a transfer ------------------------------------------

  function Min(a: nat, b: nat): nat { if a < b then a else b }

  // How many transport writes a transfer takes: one, or one a chunk.
  function Transfers(size: nat, chunk: nat): nat {
    if chunk == 0 then 1 else if size == 0 then 0 else 1 + Transfers(size - Min(chunk, size), chunk)
  }

  predicate Succeeds(size: nat, chunk: nat, io: Io) { io.failsAt.None? || io.failsAt.value >= Transfers(size, chunk) }

  // What one write takes: all of it, or of the failing one what the script says.
  function OneWrite(bytes: seq<byte>, io: Io, k: nat): seq<byte> {
    if io.failsAt == Some(k) then bytes[..Min(io.partial, |bytes|)] else bytes
  }

  // What the link takes from the k-th write on, write by write.
  function TakenFrom(bytes: seq<byte>, chunk: nat, io: Io, k: nat): seq<seq<byte>>
    decreases |bytes|
  {
    if chunk == 0 then [OneWrite(bytes, io, k)]
    else if bytes == [] then []
    else
      var n := Min(chunk, |bytes|);
      [OneWrite(bytes[..n], io, k)] + if io.failsAt == Some(k) then [] else TakenFrom(bytes[n..], chunk, io, k + 1)
  }

  function Taken(bytes: seq<byte>, chunk: nat, io: Io): seq<seq<byte>> { TakenFrom(bytes, chunk, io, 0) }

  // A command that is empty is not sent at all.
  function TakenIfAny(bytes: seq<byte>, chunk: nat, io: Io): seq<seq<byte>> { if bytes == [] then [] else Taken(bytes, chunk, io) }

  predicate SucceedsIfAny(bytes: seq<byte>, chunk: nat, io: Io) { bytes == [] || Succeeds(|bytes|, chunk, io) }

  // The k-th write fails, or an earlier one has.
  predicate SucceedsFrom(size: nat, chunk: nat, io: Io, k: nat) {
    io.failsAt.None? || io.failsAt.value < k || io.failsAt.value >= k + Transfers(size, chunk)
  }

  // The link takes a prefix of what it is given, and all of it when nothing fails.
  lemma {:induction false} TakenIsAPrefix(bytes: seq<byte>, chunk: nat, io: Io, k: nat)
    ensures Flatten(TakenFrom(bytes, chunk, io, k)) <= bytes
    ensures SucceedsFrom(|bytes|, chunk, io, k) ==> Flatten(TakenFrom(bytes, chunk, io, k)) == bytes
    decreases |bytes|
  {
    var t := TakenFrom(bytes, chunk, io, k);
    if chunk == 0 {
      assert t[1..] == [] && t[0] + [] == t[0];
    } else if bytes != [] {
      var n := Min(chunk, |bytes|);
      assert bytes == bytes[..n] + bytes[n..];
      if io.failsAt == Some(k) {
        assert t[1..] == [] && t[0] + [] == t[0];
      } else {
        TakenIsAPrefix(bytes[n..], chunk, io, k + 1);
        assert t[1..] == TakenFrom(bytes[n..], chunk, io, k + 1);
      }
    }
  }

  // --- The bytes of each command --------------------------------------------------

  const INITIALIZE: seq<byte> := [0x1B, 0x40]

  // DLE EOT 1 to 4, and DLE EOT 3 alone.
  const PROBE: seq<byte> := [0x10, 0x04, 0x01, 0x10, 0x04, 0x02, 0x10, 0x04, 0x03, 0x10, 0x04, 0x04]
  const CUTTER_QUERY: seq<byte> := [0x10, 0x04, 0x03]
  const KINDS: seq<P.DleEotKind> := [P.PrinterStatus, P.OfflineCause, P.ErrorCause, P.PaperSensor]
  const PAPER_STATUS: seq<byte> := [0x1D, 0x72, 0x01]

  // Enable automatic status, zero the ETB counter.
  const STAR_PREAMBLE: seq<byte> := [0x1B, 0x1E, 0x61, 0x01, 0x1B, 0x1E, 0x45, 0x00]

  function Wire(j: Job): seq<byte> { INITIALIZE + j.body }

  function ProcessIdMarker(token: M.Token): seq<byte> { [0x1D, 0x28, 0x48, 0x06, 0x00, 0x30, 0x30] + token }

  // Feed clear of the blade, cut, and the profile's fence behind the cut.
  function CutCommand(j: Job, token: M.Token): seq<byte> {
    var p := j.profile;
    var full := CutOf(j) == CutFull;
    E.Dots(if p.cutterFeedDots > j.options.bottomFeedDots then p.cutterFeedDots else j.options.bottomFeedDots)
    + (if p.extraFeedBeforeCut > 0 then [0x1D, 0x56, if full then 65 else 66, p.extraFeedBeforeCut]
       else [0x1D, 0x56, if full then 0 else 1])
    + (match p.completion
       case GsParenH => ProcessIdMarker(token)
       case GsR1 => PAPER_STATUS
       case _ => [])
  }

  function PrintToken(pair: Option<M.Pair>): M.Token { if pair.Some? then pair.value.printToken else [] }
  function CutToken(pair: Option<M.Pair>): M.Token { if pair.Some? then pair.value.cutToken else [] }

  function FenceCommand(j: Job, s: Script, pair: Option<M.Pair>): seq<byte> {
    if Custom(j.profile).Some? then s.printFence
    else match j.profile.completion
      case GsParenH => ProcessIdMarker(PrintToken(pair))
      case GsR1 => PAPER_STATUS
      case _ => if CutOf(j) != CutNone then CutCommand(j, PrintToken(pair)) else []
  }

  function FencedCut(j: Job, s: Script, pair: Option<M.Pair>): seq<byte> {
    CutCommand(j, CutToken(pair)) + if Custom(j.profile).Some? then s.cutFence else []
  }

  function StarCut(j: Job): seq<byte> { SE.CutBytes(CutOf(j) == CutFull) }

  function StarFenceCommand(fence: F.Fence): seq<byte> {
    match fence
    case Idle => []
    case AwaitEtb(_) => [0x17]
    case AwaitEtx(n1, n2) => [0x1B, 0x1D, 0x03, 0x01, n1, n2]
  }

  // The encoder calls behind a cut command.
  function CutCalls(j: Job, token: M.Token): seq<E.Op> {
    var p := j.profile;
    [E.FeedDots(if p.cutterFeedDots > j.options.bottomFeedDots then p.cutterFeedDots else j.options.bottomFeedDots),
     E.UseCutWithFeed(p.extraFeedBeforeCut > 0, p.extraFeedBeforeCut), E.Cut(CutOf(j) == CutFull)] + FenceCalls(j, token)
  }

  lemma EncodeOne(t: Table, st: E.Style, op: E.Op, rest: seq<E.Op>)
    requires E.AllAccepted([op] + rest)
    ensures E.Accepts(op) && E.AllAccepted(rest)
    ensures E.Encode(t, st, [op] + rest) == E.BytesOf(t, st, op) + E.Encode(t, E.After(st, op), rest)
  {
    assert ([op] + rest)[0] == op && ([op] + rest)[1..] == rest;
    forall x | x in rest ensures E.Accepts(x) { assert x in [op] + rest; }
    assert op in [op] + rest;
  }

  function FenceCalls(j: Job, token: M.Token): seq<E.Op> {
    match j.profile.completion
    case GsParenH => [E.ProcessId(token)]
    case GsR1 => [E.QueuedPaperStatus]
    case _ => []
  }

  lemma FenceCallsAreEncoded(t: Table, st: E.Style, j: Job, token: M.Token)
    requires j.profile.completion == GsParenH ==> P.IsToken(token)
    ensures E.AllAccepted(FenceCalls(j, token))
    ensures E.Encode(t, st, FenceCalls(j, token)) == match j.profile.completion
                                                 case GsParenH => ProcessIdMarker(token)
                                                 case GsR1 => PAPER_STATUS
                                                 case _ => []
  {
    var calls := FenceCalls(j, token);
    if calls != [] {
      assert calls == [calls[0]] + [];
      assert E.Encode(t, E.After(st, calls[0]), []) == [];
      assert E.BytesOf(t, st, calls[0]) + [] == E.BytesOf(t, st, calls[0]);
      EncodeOne(t, st, calls[0], []);
    }
  }

  // The cut command is what the ESC/POS encoder makes of those calls.
  lemma CutIsEncoded(t: Table, j: Job, token: M.Token)
    requires j.profile.completion == GsParenH ==> P.IsToken(token)
    ensures E.AllAccepted(CutCalls(j, token)) && CutCommand(j, token) == E.Encode(t, E.POWER_ON, CutCalls(j, token))
  {
    var calls := CutCalls(j, token);
    var st := E.After(E.POWER_ON, calls[1]);
    var fence := FenceCalls(j, token);
    FenceCallsAreEncoded(t, E.After(st, calls[2]), j, token);
    CallsAreEncoded(t, calls[0], calls[1], calls[2], fence);
    assert calls == [calls[0]] + ([calls[1]] + ([calls[2]] + fence));
    JoinFour(E.BytesOf(t, E.POWER_ON, calls[0]), E.BytesOf(t, st, calls[2]), E.Encode(t, E.After(st, calls[2]), fence));
  }

  lemma JoinFour(a: seq<byte>, b: seq<byte>, c: seq<byte>)
    ensures a + ([] + (b + c)) == a + b + c
  {
  }

  lemma CallsAreEncoded(t: Table, feed: E.Op, use: E.Op, cut: E.Op, rest: seq<E.Op>)
    requires feed.FeedDots? && use.UseCutWithFeed? && cut.Cut? && E.AllAccepted(rest)
    ensures var ops := [feed] + ([use] + ([cut] + rest));
            var st := E.After(E.POWER_ON, use);
            && E.AllAccepted(ops)
            && E.Encode(t, E.POWER_ON, ops)
               == E.BytesOf(t, E.POWER_ON, feed) + ([] + (E.BytesOf(t, st, cut) + E.Encode(t, E.After(st, cut), rest)))
  {
    EncodeOne(t, E.POWER_ON, feed, [use] + ([cut] + rest));
    EncodeOne(t, E.POWER_ON, use, [cut] + rest);
    EncodeOne(t, E.After(E.POWER_ON, use), cut, rest);
  }

  // --- What an ESC/POS job meets --------------------------------------------------

  predicate AsksFirst(j: Job) { j.options.strictPreflight && j.profile.dleEot }

  function During(nonce: M.Nonce, c: B.Channel, io: Io): B.Channel { B.Heard(nonce, c, io.chunks, io.drops) }
  function Waiting(nonce: M.Nonce, c: B.Channel, w: Wait): B.Channel { B.Heard(nonce, c, w.chunks, w.drops) }

  // A GS r 1 profile expects one queued answer for each fence.
  function Armed(p: Profile, c: B.Channel): B.Channel { if p.completion == GsR1 then B.ExpectingOne(c) else c }

  function Settled(p: Profile, c: B.Channel): B.Channel {
    if Custom(p).Some? || p.completion == GsParenH then c else B.Claimed(c)
  }

  function Ack(p: Profile, c: B.Channel, token: M.Token, w: Wait): WaitOutcome {
    if Custom(p).Some? then w.custom
    else if p.completion == GsParenH then B.TokenOutcome(c, token, w.stopping)
    else B.QueuedOutcome(c, w.stopping)
  }

  // The channel at successive points of a job, from beginJobIo on.
  function AtVerdict(s: Script, nonce: M.Nonce): B.Channel {
    Waiting(nonce, During(nonce, B.Expecting(B.BEGUN, KINDS), s.probe), s.probeWait)
  }

  function AtPayload(j: Job, s: Script, nonce: M.Nonce): B.Channel {
    if AsksFirst(j) then B.Cleared(AtVerdict(s, nonce)) else B.BEGUN
  }

  function AtFence(j: Job, s: Script, nonce: M.Nonce): B.Channel { During(nonce, AtPayload(j, s, nonce), s.payload) }

  function AtPrintWait(j: Job, s: Script, nonce: M.Nonce): B.Channel {
    During(nonce, Armed(j.profile, AtFence(j, s, nonce)), s.fence)
  }

  function AtPrintAck(j: Job, s: Script, nonce: M.Nonce): B.Channel { Waiting(nonce, AtPrintWait(j, s, nonce), s.printWait) }

  function AtCut(j: Job, s: Script, nonce: M.Nonce): B.Channel { Settled(j.profile, AtPrintAck(j, s, nonce)) }

  function AtCutWait(j: Job, s: Script, nonce: M.Nonce): B.Channel {
    During(nonce, Armed(j.profile, AtCut(j, s, nonce)), s.cut)
  }

  function AtCutAck(j: Job, s: Script, nonce: M.Nonce): B.Channel { Waiting(nonce, AtCutWait(j, s, nonce), s.cutWait) }

  function AtQuery(j: Job, s: Script, nonce: M.Nonce): B.Channel {
    B.Expecting(B.Cleared(Settled(j.profile, AtCutAck(j, s, nonce))), [P.ErrorCause])
  }

  function AtBlade(j: Job, s: Script, nonce: M.Nonce): B.Channel {
    Waiting(nonce, During(nonce, AtQuery(j, s, nonce), s.status), s.statusWait)
  }

  function PreflightOf(j: Job, s: Script, nonce: M.Nonce): Preflight {
    if !AsksFirst(j) then NotRun
    else if !Succeeds(|PROBE|, j.profile.chunkBytes, s.probe) then ProbeLost
    else
      var c := AtVerdict(s, nonce);
      if |c.realtime| < 4 && c.down then ProbeLost else Verdict(c.realtime)
  }

  // Some answer says the cutter failed.
  predicate SaysJammed(answers: seq<P.Event>) { exists i :: 0 <= i < |answers| && FlagsOf(answers[i]).cutterError == Some(true) }

  function BladeOf(answers: seq<P.Event>): Blade {
    if SaysJammed(answers) then Jammed else if answers != [] then FaultFree else Unread
  }

  // Facts about phases a job does not get to are never looked at.
  function EscPosFacts(j: Job, s: Script, nonce: M.Nonce, pair: Option<M.Pair>): Facts {
    var p, n := j.profile, j.profile.chunkBytes;
    Facts(s.connects,
          if AsksFirst(j) then Taken(PROBE, n, s.probe) else [],
          PreflightOf(j, s, nonce),
          pair,
          Taken(Wire(j), n, s.payload),
          Succeeds(|Wire(j)|, n, s.payload),
          TakenIfAny(FenceCommand(j, s, pair), n, s.fence),
          SucceedsIfAny(FenceCommand(j, s, pair), n, s.fence),
          Ack(p, AtPrintAck(j, s, nonce), PrintToken(pair), s.printWait),
          Taken(FencedCut(j, s, pair), n, s.cut),
          Succeeds(|FencedCut(j, s, pair)|, n, s.cut),
          Ack(p, AtCutAck(j, s, nonce), CutToken(pair), s.cutWait),
          Taken(CUTTER_QUERY, n, s.status),
          if Succeeds(|CUTTER_QUERY|, n, s.status) then BladeOf(AtBlade(j, s, nonce).realtime) else Unread)
  }

  // --- What a Star job meets ------------------------------------------------------

  function StarArmed(p: Profile, c: F.Channel): F.Channel { F.Armed(c, p.completion == StarEtb) }

  // An ETB profile zeroes the counter first.
  function StarAtPayload(j: Job, s: Script, c0: F.Channel): F.Channel {
    var c := F.Begun(c0, j.profile.asbBlockBytes);
    if j.profile.completion == StarEtb then F.CounterCleared(F.Heard(c, s.probe.chunks, s.probe.drops)) else c
  }

  function StarAtFence(j: Job, s: Script, c0: F.Channel): F.Channel {
    F.Heard(StarAtPayload(j, s, c0), s.payload.chunks, s.payload.drops)
  }

  function StarFenced(j: Job, s: Script, c0: F.Channel): F.Channel { StarArmed(j.profile, StarAtFence(j, s, c0)) }

  function StarAtPrintAck(j: Job, s: Script, c0: F.Channel): F.Channel {
    F.Heard(F.Heard(StarFenced(j, s, c0), s.fence.chunks, s.fence.drops), s.printWait.chunks, s.printWait.drops)
  }

  function StarCutFenced(j: Job, s: Script, c0: F.Channel): F.Channel {
    StarArmed(j.profile, F.Disarmed(StarAtPrintAck(j, s, c0)))
  }

  function StarAtCutAck(j: Job, s: Script, c0: F.Channel): F.Channel {
    F.Heard(F.Heard(StarCutFenced(j, s, c0), s.cut.chunks, s.cut.drops), s.cutWait.chunks, s.cutWait.drops)
  }

  // Without a fence the cut rides with the payload, and its failure is not looked at.
  function StarBehind(j: Job, s: Script, c0: F.Channel): seq<byte> {
    if j.profile.completion != NoCompletion then StarFenceCommand(StarFenced(j, s, c0).state.fence)
    else if CutOf(j) != CutNone then StarCut(j) else []
  }

  function StarFencedCut(j: Job, s: Script, c0: F.Channel): seq<byte> {
    StarCut(j) + StarFenceCommand(StarCutFenced(j, s, c0).state.fence)
  }

  function StarFacts(j: Job, s: Script, c0: F.Channel): Facts {
    var n := j.profile.chunkBytes;
    var etb := j.profile.completion == StarEtb;
    Facts(s.connects,
          if etb then Taken(STAR_PREAMBLE, n, s.probe) else [],
          if etb && !Succeeds(|STAR_PREAMBLE|, n, s.probe) then ProbeLost else NotRun,
          None,
          Taken(Wire(j), n, s.payload),
          Succeeds(|Wire(j)|, n, s.payload),
          TakenIfAny(StarBehind(j, s, c0), n, s.fence),
          j.profile.completion == NoCompletion || SucceedsIfAny(StarBehind(j, s, c0), n, s.fence),
          F.AckOutcome(StarAtPrintAck(j, s, c0), s.printWait.stopping),
          Taken(StarFencedCut(j, s, c0), n, s.cut),
          Succeeds(|StarFencedCut(j, s, c0)|, n, s.cut),
          F.AckOutcome(StarAtCutAck(j, s, c0), s.cutWait.stopping),
          [], Unread)
  }

  // `star` is the Star channel as the last job left it; nothing else outlives a job.
  function FactsOf(j: Job, s: Script, nonce: M.Nonce, pair: Option<M.Pair>, star: F.Channel): Facts {
    if DrivableByEscPos(j.profile) || Custom(j.profile).Some? then EscPosFacts(j, s, nonce, pair) else StarFacts(j, s, star)
  }

  function TraceOf(j: Job, s: Script, nonce: M.Nonce, pair: Option<M.Pair>, star: F.Channel): Trace {
    JobTrace(j.profile, j.options, FactsOf(j, s, nonce, pair, star))
  }

  // --- What a job leaves on paper, and what it says about it ----------------------

  lemma RefusalReasons(j: Job, s: Script, nonce: M.Nonce)
    ensures var r := PreflightOf(j, s, nonce);
            r.Refused? ==> r.reason in {PreflightCoverOpen, PreflightPaperOut, PreflightHardwareError}
  {
  }

  lemma PayloadIsAPrefix(j: Job, s: Script)
    ensures var t := Flatten(Taken(Wire(j), j.profile.chunkBytes, s.payload));
            t <= Wire(j) && (Succeeds(|Wire(j)|, j.profile.chunkBytes, s.payload) ==> t == Wire(j))
  {
    TakenIsAPrefix(Wire(j), j.profile.chunkBytes, s.payload, 0);
  }

  lemma FactsAreConsistent(j: Job, s: Script, nonce: M.Nonce, pair: Option<M.Pair>, star: F.Channel)
    ensures Consistent(|Wire(j)|, FactsOf(j, s, nonce, pair, star))
    ensures Flatten(FactsOf(j, s, nonce, pair, star).payload) <= Wire(j)
    ensures FactsOf(j, s, nonce, pair, star).sentOk ==> Flatten(FactsOf(j, s, nonce, pair, star).payload) == Wire(j)
  {
    PayloadIsAPrefix(j, s);
    RefusalReasons(j, s, nonce);
    PayloadFacts(j, s, nonce, pair, star);
  }

  lemma PayloadFacts(j: Job, s: Script, nonce: M.Nonce, pair: Option<M.Pair>, star: F.Channel)
    ensures var f := FactsOf(j, s, nonce, pair, star);
            && f.payload == Taken(Wire(j), j.profile.chunkBytes, s.payload)
            && f.sentOk == Succeeds(|Wire(j)|, j.profile.chunkBytes, s.payload)
            && (f.preflight.Refused? ==> f.preflight == PreflightOf(j, s, nonce))
  {
  }

  // Whatever the link does: the paper holds a prefix of the payload and nothing else; a
  // known failure means an untouched paper unless the cutter failed; an ambiguous verdict
  // means a touched one; and every claim of having sent means the whole payload.
  lemma VerdictTellsThePaper(j: Job, s: Script, nonce: M.Nonce, pair: Option<M.Pair>, star: F.Channel)
    ensures var t := TraceOf(j, s, nonce, pair, star);
            var v := Final(START, t);
            && Lawful(|Wire(j)|, MaxConfidence(j.profile), START, t)
            && PaperOf(t) <= Wire(j)
            && (v.state == FailedKnown ==> (PaperOf(t) == [] <==> v.reason != CutterFault))
            && (v.state == Unknown ==> PaperOf(t) != [])
            && (v.state == DoneSoftware || (v.state == FailedKnown && v.reason == CutterFault) ==> PaperOf(t) == Wire(j))
  {
    var f := FactsOf(j, s, nonce, pair, star);
    var size := |Wire(j)|;
    var t := TraceOf(j, s, nonce, pair, star);
    FactsAreConsistent(j, s, nonce, pair, star);
    RunIsLawful(size, j.profile, j.options, f);
    AlwaysHonest(size, MaxConfidence(j.profile), START, t);
    JammedMeansSent(size, MaxConfidence(j.profile), START, t);
    AcceptedCountsPaper(START, t);
    PaperIsThePayload(j.profile, j.options, f);
  }

  predicate SentOut(size: nat, v: View) {
    && (v.state in {BytesSent, PrintConfirmed, CutCommandProcessed} ==> v.accepted == size)
    && (v.state == FailedKnown && v.reason == CutterFault ==> v.accepted == size)
  }

  lemma {:induction false} JammedMeansSent(size: nat, ceiling: ConfidenceLevel, v: View, t: Trace)
    requires Lawful(size, ceiling, v, t) && SentOut(size, v)
    ensures SentOut(size, Final(v, t))
    decreases |t|
  {
    if t != [] { JammedMeansSent(size, ceiling, Next(v, t[0]), t[1..]); }
  }

  // --- Whose acknowledgement a GS ( H job acts on ---------------------------------

  lemma PayloadChannelIsSound(j: Job, s: Script, nonce: M.Nonce)
    ensures B.Sound(nonce, AtPayload(j, s, nonce))
  {
    B.BegunIsSound(nonce);
    var asked := B.Expecting(B.BEGUN, KINDS);
    B.AskingKeepsSound(nonce, B.BEGUN, KINDS);
    B.HeardKeepsSound(nonce, asked, s.probe.chunks, s.probe.drops);
    B.HeardKeepsSound(nonce, During(nonce, asked, s.probe), s.probeWait.chunks, s.probeWait.drops);
    B.ClearedKeepsSound(nonce, AtVerdict(s, nonce));
  }

  lemma PrintChannelIsSound(j: Job, s: Script, nonce: M.Nonce)
    ensures B.Sound(nonce, AtPrintWait(j, s, nonce)) && B.Sound(nonce, AtPrintAck(j, s, nonce))
  {
    PayloadChannelIsSound(j, s, nonce);
    B.HeardKeepsSound(nonce, AtPayload(j, s, nonce), s.payload.chunks, s.payload.drops);
    B.AskingKeepsSound(nonce, AtFence(j, s, nonce), []);
    B.HeardKeepsSound(nonce, Armed(j.profile, AtFence(j, s, nonce)), s.fence.chunks, s.fence.drops);
    B.HeardKeepsSound(nonce, AtPrintWait(j, s, nonce), s.printWait.chunks, s.printWait.drops);
  }

  lemma CutChannelIsSound(j: Job, s: Script, nonce: M.Nonce)
    ensures B.Sound(nonce, AtCutAck(j, s, nonce))
  {
    PrintChannelIsSound(j, s, nonce);
    B.AskingKeepsSound(nonce, AtPrintAck(j, s, nonce), []);
    B.AskingKeepsSound(nonce, AtCut(j, s, nonce), []);
    B.HeardKeepsSound(nonce, Armed(j.profile, AtCut(j, s, nonce)), s.cut.chunks, s.cut.drops);
    B.HeardKeepsSound(nonce, AtCutWait(j, s, nonce), s.cutWait.chunks, s.cutWait.drops);
  }

  // Everything the script delivers from beginJobIo to the end of the print wait, in order.
  function HeardByPrintAck(j: Job, s: Script): seq<byte> {
    (if AsksFirst(j) then Flatten(s.probe.chunks) + Flatten(s.probeWait.chunks) else [])
    + Flatten(s.payload.chunks) + Flatten(s.fence.chunks) + Flatten(s.printWait.chunks)
  }

  lemma AskingReceivesNothing(p: Profile, c: B.Channel, kinds: seq<P.DleEotKind>)
    ensures B.Received(B.Expecting(c, kinds)) == B.Received(c) && B.Received(Armed(p, c)) == B.Received(c)
    ensures B.Received(Settled(p, c)) == B.Received(c)
  {
  }

  lemma ReceivedByPayload(j: Job, s: Script, nonce: M.Nonce)
    ensures B.Received(AtPayload(j, s, nonce)) == if AsksFirst(j) then Flatten(s.probe.chunks) + Flatten(s.probeWait.chunks) else []
  {
    assert B.Received(B.BEGUN) == [];
    ReceivedByVerdict(s, nonce);
    B.ClearedReceives(AtVerdict(s, nonce));
  }

  lemma ReceivedByVerdict(s: Script, nonce: M.Nonce)
    ensures B.Received(AtVerdict(s, nonce)) == Flatten(s.probe.chunks) + Flatten(s.probeWait.chunks)
  {
    var asked := B.Expecting(B.BEGUN, KINDS);
    assert B.Received(asked) == [];
    B.HeardReceives(nonce, asked, s.probe.chunks, s.probe.drops);
    assert [] + Flatten(s.probe.chunks) == Flatten(s.probe.chunks);
    B.HeardReceives(nonce, During(nonce, asked, s.probe), s.probeWait.chunks, s.probeWait.drops);
  }

  // Nothing else reaches the channel: the account starts from nothing.
  lemma ReceivedByPrintAck(j: Job, s: Script, nonce: M.Nonce)
    ensures B.Received(AtPrintAck(j, s, nonce)) == HeardByPrintAck(j, s)
    ensures B.Received(AtCutAck(j, s, nonce)) == HeardByPrintAck(j, s) + Flatten(s.cut.chunks) + Flatten(s.cutWait.chunks)
  {
    ReceivedByPayload(j, s, nonce);
    AskingReceivesNothing(j.profile, AtFence(j, s, nonce), []);
    AskingReceivesNothing(j.profile, AtPrintAck(j, s, nonce), []);
    AskingReceivesNothing(j.profile, AtCut(j, s, nonce), []);
    B.HeardReceives(nonce, AtPayload(j, s, nonce), s.payload.chunks, s.payload.drops);
    B.HeardReceives(nonce, Armed(j.profile, AtFence(j, s, nonce)), s.fence.chunks, s.fence.drops);
    B.HeardReceives(nonce, AtPrintWait(j, s, nonce), s.printWait.chunks, s.printWait.drops);
    B.HeardReceives(nonce, Armed(j.profile, AtCut(j, s, nonce)), s.cut.chunks, s.cut.drops);
    B.HeardReceives(nonce, AtCutWait(j, s, nonce), s.cutWait.chunks, s.cutWait.drops);
  }

  // A GS ( H job takes its receipt for printed if and only if the whole frame of its own
  // print token stood in what was read since this job began -- in one stretch of it, where
  // preflight dropped half a frame -- and likewise the cut by the cut token. What an
  // earlier job was sent, and what anybody else was, counts for nothing.
  lemma AckIffOwnFrameOnWire(j: Job, s: Script, nonce: M.Nonce, pair: Option<M.Pair>)
    requires j.profile.completion == GsParenH && pair.Some?
    requires M.IsOurs(nonce, pair.value.printToken) && M.IsOurs(nonce, pair.value.cutToken)
    ensures var f := EscPosFacts(j, s, nonce, pair);
            && (f.printAck == Signalled <==> B.OnWire(pair.value.printToken, B.Segments(AtPrintAck(j, s, nonce))))
            && (f.cutAck == Signalled <==> B.OnWire(pair.value.cutToken, B.Segments(AtCutAck(j, s, nonce))))
  {
    PrintChannelIsSound(j, s, nonce);
    CutChannelIsSound(j, s, nonce);
    B.RecordedIffOnWire(nonce, AtPrintAck(j, s, nonce), pair.value.printToken);
    B.RecordedIffOnWire(nonce, AtCutAck(j, s, nonce), pair.value.cutToken);
  }

  // In the bytes themselves: no confirmation without the frame in what the script has
  // delivered by then, and without preflight the frame anywhere in it is enough.
  lemma AckIffDelivered(j: Job, s: Script, nonce: M.Nonce, pair: Option<M.Pair>)
    requires j.profile.completion == GsParenH && pair.Some? && P.IsToken(pair.value.printToken)
    requires M.IsOurs(nonce, pair.value.printToken) && M.IsOurs(nonce, pair.value.cutToken)
    ensures var f := EscPosFacts(j, s, nonce, pair);
            && (f.printAck == Signalled ==> P.Occurs(P.AckFrame(pair.value.printToken), HeardByPrintAck(j, s)))
            && (!AsksFirst(j) && P.Occurs(P.AckFrame(pair.value.printToken), HeardByPrintAck(j, s)) ==> f.printAck == Signalled)
  {
    AckIffOwnFrameOnWire(j, s, nonce, pair);
    ReceivedByPrintAck(j, s, nonce);
    B.OnWireWasReceived(AtPrintAck(j, s, nonce), pair.value.printToken);
  }

  // The claim itself: a GS ( H job journals PrintConfirmed if and only if it got to send,
  // payload and fence went out whole, and its own print token's frame came back.
  lemma ClaimIffOwnFrame(j: Job, s: Script, nonce: M.Nonce, pair: Option<M.Pair>, star: F.Channel)
    requires j.profile.completion == GsParenH && j.profile.language == EscPos && pair.Some?
    requires M.IsOurs(nonce, pair.value.printToken) && M.IsOurs(nonce, pair.value.cutToken)
    ensures ClaimsPrinted(TraceOf(j, s, nonce, pair, star)) <==>
            && s.connects && !PreflightOf(j, s, nonce).ProbeLost? && !PreflightOf(j, s, nonce).Refused?
            && Succeeds(|Wire(j)|, j.profile.chunkBytes, s.payload)
            && Succeeds(|ProcessIdMarker(pair.value.printToken)|, j.profile.chunkBytes, s.fence)
            && B.OnWire(pair.value.printToken, B.Segments(AtPrintAck(j, s, nonce)))
  {
    ConfirmedIffAcknowledged(j.profile, j.options, EscPosFacts(j, s, nonce, pair));
    AckIffOwnFrameOnWire(j, s, nonce, pair);
  }

  // A frame of the print token that arrives whole while the job waits for it confirms the
  // job, whatever garbage, half frame or pending expectation precedes it and however it is
  // cut into reads.
  lemma FrameInTheWaitConfirms(j: Job, s: Script, nonce: M.Nonce, pair: Option<M.Pair>)
    requires j.profile.completion == GsParenH && pair.Some?
    requires P.IsToken(pair.value.printToken) && M.IsOurs(nonce, pair.value.printToken)
    requires P.Occurs(P.AckFrame(pair.value.printToken), Flatten(s.printWait.chunks))
    ensures EscPosFacts(j, s, nonce, pair).printAck == Signalled
  {
    PrintChannelIsSound(j, s, nonce);
    B.FrameDuringAWaitIsRecorded(nonce, AtPrintWait(j, s, nonce), s.printWait.chunks, s.printWait.drops, pair.value.printToken);
  }

  // A late echo -- frames of somebody's tokens and no others -- confirms no job that holds
  // none of those tokens.
  lemma ForeignFramesConfirmNothing(j: Job, s: Script, nonce: M.Nonce, pair: Option<M.Pair>, theirs: set<M.Token>)
    requires j.profile.completion == GsParenH && pair.Some? && M.TokensOf(pair.value) !! theirs
    requires M.IsOurs(nonce, pair.value.printToken) && M.IsOurs(nonce, pair.value.cutToken)
    requires forall t :: B.OnWire(t, B.Segments(AtCutAck(j, s, nonce))) ==> t in theirs
    requires forall t :: B.OnWire(t, B.Segments(AtPrintAck(j, s, nonce))) ==> t in theirs
    ensures EscPosFacts(j, s, nonce, pair).printAck != Signalled && EscPosFacts(j, s, nonce, pair).cutAck != Signalled
  {
    AckIffOwnFrameOnWire(j, s, nonce, pair);
  }

  // Over any run of leases: a job granted its pair fewer than 4418 slots after another's --
  // but not 4298 slots across a multiple of 2^31 -- is confirmed by none of the other's
  // frames, however late they come.
  lemma LateEchoCompletesNoLaterJob(nonce: M.Nonce, states: seq<M.Leases>, ops: seq<M.LeaseOp>, k: nat, m: nat, j: Job, s: Script)
    requires M.LeaseRun(nonce, states, ops) && k < m < |ops| && ops[k].Grant? && ops[m].Grant?
    requires var a, b := M.SlotGranted(states, k), M.SlotGranted(states, m);
             b - a < M.PAIRS && !M.RoundIsShort(a, b)
    requires j.profile.completion == GsParenH
    requires var theirs := M.TokensOf(M.PairGranted(states, ops, k));
             && (forall t :: B.OnWire(t, B.Segments(AtPrintAck(j, s, nonce))) ==> t in theirs)
             && (forall t :: B.OnWire(t, B.Segments(AtCutAck(j, s, nonce))) ==> t in theirs)
    ensures var f := EscPosFacts(j, s, nonce, Some(M.PairGranted(states, ops, m)));
            f.printAck != Signalled && f.cutAck != Signalled
  {
    var pair := M.PairGranted(states, ops, m);
    M.GrantsInWindowAreDisjointIff(nonce, states, ops, k, m);
    M.GrantedPairIsOurs(nonce, states, ops, m);
    ForeignFramesConfirmNothing(j, s, nonce, Some(pair), M.TokensOf(M.PairGranted(states, ops, k)));
  }

  // --- GS r 1: one answer for one fence -------------------------------------------

  lemma ClearedOwes(c: B.Channel)
    ensures B.Owed(B.Cleared(c)) <= B.Owed(c)
  {
  }

  // Nothing read before the print fence was armed can confirm the print, and nothing read
  // before the cut was armed can confirm the cut: no queued answer is owed till then.
  lemma QueuedAckFollowsItsFence(j: Job, s: Script, nonce: M.Nonce)
    requires j.profile.completion == GsR1
    ensures B.Owed(AtFence(j, s, nonce)) == 0
    ensures AtPrintAck(j, s, nonce).queued != [] ==> B.Owed(AtCut(j, s, nonce)) == 0
  {
    var asked := B.Expecting(B.BEGUN, KINDS);
    assert B.Owed(asked) == 0;
    B.HeardOwesTheSame(nonce, asked, s.probe.chunks, s.probe.drops);
    B.HeardOwesTheSame(nonce, During(nonce, asked, s.probe), s.probeWait.chunks, s.probeWait.drops);
    ClearedOwes(AtVerdict(s, nonce));
    B.HeardOwesTheSame(nonce, AtPayload(j, s, nonce), s.payload.chunks, s.payload.drops);
    FenceOwesOne(j, s, nonce);
  }

  lemma FenceOwesOne(j: Job, s: Script, nonce: M.Nonce)
    requires j.profile.completion == GsR1 && B.Owed(AtFence(j, s, nonce)) == 0
    ensures B.Owed(AtPrintAck(j, s, nonce)) == 1
    ensures AtPrintAck(j, s, nonce).queued != [] ==> B.Owed(AtCut(j, s, nonce)) == 0
  {
    var c := Armed(j.profile, AtFence(j, s, nonce));
    assert B.Owed(c) == 1;
    B.HeardOwesTheSame(nonce, c, s.fence.chunks, s.fence.drops);
    B.HeardOwesTheSame(nonce, AtPrintWait(j, s, nonce), s.printWait.chunks, s.printWait.drops);
  }

  // --- Which answers decide preflight and the blade -------------------------------

  predicate IsAnswer(e: P.Event, kind: P.DleEotKind) { e.RealtimeStatus? && e.kind == kind }

  lemma JammedIff(answers: seq<P.Event>)
    requires answers == [] || (|answers| == 1 && IsAnswer(answers[0], P.ErrorCause))
    ensures BladeOf(answers) == Jammed <==> answers != [] && Bit(answers[0].value, 3)
    ensures BladeOf(answers) == Unread <==> answers == []
  {
    if answers != [] { assert FlagsOf(answers[0]).cutterError == Some(Bit(answers[0].value, 3)); }
  }

  lemma ClearedAsks(c: B.Channel, kinds: seq<P.DleEotKind>)
    ensures var d := B.Expecting(B.Cleared(c), kinds); d.realtime == [] && d.parser.realtime == kinds
  {
    assert [] + kinds == kinds;
  }

  // The cutter verdict rests on at most one answer, to the one query sent after the cut
  // was acknowledged: no earlier status can be taken for it.
  lemma BladeRestsOnOneAnswer(j: Job, s: Script, nonce: M.Nonce)
    ensures var a := AtBlade(j, s, nonce).realtime;
            && (a == [] || (|a| == 1 && IsAnswer(a[0], P.ErrorCause)))
            && (BladeOf(a) == Jammed <==> a != [] && Bit(a[0].value, 3))
            && (BladeOf(a) == Unread <==> a == [])
  {
    var c := AtQuery(j, s, nonce);
    ClearedAsks(Settled(j.profile, AtCutAck(j, s, nonce)), [P.ErrorCause]);
    OneAnswerAtMost(nonce, c, s.status, s.statusWait);
    JammedIff(AtBlade(j, s, nonce).realtime);
  }

  lemma OneAnswerAtMost(nonce: M.Nonce, c: B.Channel, io: Io, w: Wait)
    requires c.realtime == [] && c.parser.realtime == [P.ErrorCause]
    ensures var a := Waiting(nonce, During(nonce, c, io), w).realtime; a == [] || (|a| == 1 && IsAnswer(a[0], P.ErrorCause))
  {
    var d := During(nonce, c, io);
    var e := Waiting(nonce, d, w);
    B.HeardAnswersInOrder(nonce, c, io.chunks, io.drops);
    B.HeardAnswersInOrder(nonce, d, w.chunks, w.drops);
    B.AnswersAreOfKind(e.realtime);
    assert B.Kinds(e.realtime) + e.parser.realtime == [P.ErrorCause];
    if e.realtime != [] { assert ([P.ErrorCause])[0] == B.Kinds(e.realtime)[0]; }
  }

  // Preflight reads at most the four answers it asked for, in the order it asked.
  lemma PreflightAnswersInOrder(s: Script, nonce: M.Nonce)
    ensures B.Kinds(AtVerdict(s, nonce).realtime) <= KINDS && |AtVerdict(s, nonce).realtime| <= 4
    ensures forall i :: 0 <= i < |AtVerdict(s, nonce).realtime| ==> IsAnswer(AtVerdict(s, nonce).realtime[i], KINDS[i])
  {
    var asked := B.Expecting(B.BEGUN, KINDS);
    B.HeardAnswersInOrder(nonce, asked, s.probe.chunks, s.probe.drops);
    B.HeardAnswersInOrder(nonce, During(nonce, asked, s.probe), s.probeWait.chunks, s.probeWait.drops);
    assert [] + KINDS == KINDS;
    B.AnswersAreOfKind(AtVerdict(s, nonce).realtime);
  }

  // --- Whose answer a Star job acts on --------------------------------------------

  lemma StarFenceIsSound(j: Job, s: Script, c0: F.Channel)
    ensures F.Sound(StarFenced(j, s, c0))
    ensures StarFenced(j, s, c0).received == (if j.profile.completion == StarEtb then Flatten(s.probe.chunks) else []) + Flatten(s.payload.chunks)
    ensures j.profile.completion == StarEscGsEtx ==> StarFenced(j, s, c0).sequence == F.NextFence(c0.sequence)
  {
    var begun := F.Begun(c0, j.profile.asbBlockBytes);
    F.HeardKeepsSound(begun, s.probe.chunks, s.probe.drops);
    F.HeardReceives(begun, s.probe.chunks, s.probe.drops);
    F.ArmingKeepsSound(F.Heard(begun, s.probe.chunks, s.probe.drops), false);
    F.HeardKeepsSound(StarAtPayload(j, s, c0), s.payload.chunks, s.payload.drops);
    F.HeardReceives(StarAtPayload(j, s, c0), s.payload.chunks, s.payload.drops);
    F.ArmingKeepsSound(StarAtFence(j, s, c0), j.profile.completion == StarEtb);
    assert [] + Flatten(s.probe.chunks) == Flatten(s.probe.chunks);
  }

  function StarHeardByPrintAck(j: Job, s: Script): seq<byte> {
    (if j.profile.completion == StarEtb then Flatten(s.probe.chunks) else []) + Flatten(s.payload.chunks)
    + Flatten(s.fence.chunks) + Flatten(s.printWait.chunks)
  }

  lemma StarPrintIsSound(j: Job, s: Script, c0: F.Channel)
    ensures F.Sound(StarAtPrintAck(j, s, c0)) && StarAtPrintAck(j, s, c0).received == StarHeardByPrintAck(j, s)
    ensures StarAtPrintAck(j, s, c0).state.fence == StarFenced(j, s, c0).state.fence
    ensures StarAtPrintAck(j, s, c0).sequence == StarFenced(j, s, c0).sequence
  {
    var c := StarFenced(j, s, c0);
    StarFenceIsSound(j, s, c0);
    F.HeardKeepsSound(c, s.fence.chunks, s.fence.drops);
    F.HeardReceives(c, s.fence.chunks, s.fence.drops);
    F.HeardKeepsSound(F.Heard(c, s.fence.chunks, s.fence.drops), s.printWait.chunks, s.printWait.drops);
    F.HeardReceives(F.Heard(c, s.fence.chunks, s.fence.drops), s.printWait.chunks, s.printWait.drops);
  }

  // What the parser still holds when the print fence is armed, and all that is read from
  // then to the end of the print wait; and the same for the cut.
  function StarPrintData(j: Job, s: Script, c0: F.Channel): seq<byte> {
    StarFenced(j, s, c0).buffer + Flatten(s.fence.chunks + s.printWait.chunks)
  }

  function StarCutData(j: Job, s: Script, c0: F.Channel): seq<byte> {
    StarCutFenced(j, s, c0).buffer + Flatten(s.cut.chunks + s.cutWait.chunks)
  }

  lemma StarFencedIsSettled(j: Job, s: Script, c0: F.Channel)
    ensures F.Settled(StarFenced(j, s, c0)) && F.Expectant(StarFenced(j, s, c0).state)
  {
    var begun := F.Begun(c0, j.profile.asbBlockBytes);
    F.BegunIsSettled(c0, j.profile.asbBlockBytes);
    F.HeardKeepsSettled(begun, s.probe.chunks, s.probe.drops);
    F.HeardKeepsSettled(StarAtPayload(j, s, c0), s.payload.chunks, s.payload.drops);
    F.ArmedIsExpectant(StarAtFence(j, s, c0), j.profile.completion == StarEtb);
  }

  // A Star job takes its receipt for printed if and only if its own fence was answered
  // while it was outstanding: in the bytes held when it was armed and those read since.
  // And likewise the cut, by the fence armed for it.
  lemma StarAckIffOwnAnswer(j: Job, s: Script, c0: F.Channel)
    ensures var f, c, d := StarFacts(j, s, c0), StarFenced(j, s, c0), StarCutFenced(j, s, c0);
            && (f.printAck == Signalled <==> F.Answered(c.state.fence, StarPrintData(j, s, c0), c.asb))
            && (f.cutAck == Signalled <==> F.Answered(d.state.fence, StarCutData(j, s, c0), d.asb))
  {
    var c, d := StarFenced(j, s, c0), StarCutFenced(j, s, c0);
    StarFencedIsSettled(j, s, c0);
    F.HeardTwiceSignalsIff(c, s.fence.chunks, s.fence.drops, s.printWait.chunks, s.printWait.drops);
    F.ArmedIsExpectant(F.Disarmed(StarAtPrintAck(j, s, c0)), j.profile.completion == StarEtb);
    F.HeardTwiceSignalsIff(d, s.cut.chunks, s.cut.drops, s.cutWait.chunks, s.cutWait.drops);
  }

  // The fences of an ESC GS ETX job: the two numbers after the last one given.
  lemma StarFencesAreNext(j: Job, s: Script, c0: F.Channel)
    requires j.profile.completion == StarEscGsEtx
    ensures var n, m := F.FenceNumber(c0.sequence, 1), F.FenceNumber(c0.sequence, 2);
            && StarFenced(j, s, c0).state.fence == F.AwaitEtx(F.Correlation(n).0, F.Correlation(n).1)
            && StarCutFenced(j, s, c0).state.fence == F.AwaitEtx(F.Correlation(m).0, F.Correlation(m).1)
            && StarFenced(j, s, c0).sequence == n && StarCutFenced(j, s, c0).sequence == m
  {
    StarFenceIsSound(j, s, c0);
    StarPrintIsSound(j, s, c0);
    F.NextFenceIsNumbered(c0.sequence, 0);
    F.NextFenceIsNumbered(c0.sequence, 1);
  }

  // The held bytes are the end of what this job has read, so an ESC GS ETX job acts on
  // nothing but an answer with its own number read since it began.
  lemma StarAckIsItsOwn(j: Job, s: Script, c0: F.Channel)
    requires j.profile.completion == StarEscGsEtx
    ensures F.IsEndOf(StarFenced(j, s, c0).buffer, Flatten(s.payload.chunks))
    ensures var f := StarFacts(j, s, c0);
            && (f.printAck == Signalled ==> F.AnswerOnWire(F.NextFence(c0.sequence), StarHeardByPrintAck(j, s)))
            && (f.cutAck == Signalled ==>
                F.AnswerOnWire(F.NextFence(F.NextFence(c0.sequence)), StarHeardByPrintAck(j, s) + Flatten(s.cut.chunks) + Flatten(s.cutWait.chunks)))
  {
    StarFenceIsSound(j, s, c0);
    StarPrintIsSound(j, s, c0);
    assert [] + Flatten(s.payload.chunks) == Flatten(s.payload.chunks);
    var c := StarCutFenced(j, s, c0);
    F.ArmingKeepsSound(StarAtPrintAck(j, s, c0), false);
    F.ArmingKeepsSound(F.Disarmed(StarAtPrintAck(j, s, c0)), false);
    F.HeardKeepsSound(c, s.cut.chunks, s.cut.drops);
    F.HeardReceives(c, s.cut.chunks, s.cut.drops);
    F.HeardKeepsSound(F.Heard(c, s.cut.chunks, s.cut.drops), s.cutWait.chunks, s.cutWait.drops);
    F.HeardReceives(F.Heard(c, s.cut.chunks, s.cut.drops), s.cutWait.chunks, s.cutWait.drops);
  }

  // All the answers such a job is read, from arming to the end of its waits, are to one fence.
  ghost predicate HearsOnly(n: uint16, j: Job, s: Script, c0: F.Channel) {
    && F.OnlyAnswers(n, StarPrintData(j, s, c0), StarFenced(j, s, c0).asb)
    && F.OnlyAnswers(n, StarCutData(j, s, c0), StarCutFenced(j, s, c0).asb)
  }

  lemma OthersAnswersConfirmNothing(j: Job, s: Script, c0: F.Channel, n: uint16)
    requires j.profile.completion == StarEscGsEtx && HearsOnly(n, j, s, c0)
    requires F.FenceNumber(c0.sequence, 1) != n && F.FenceNumber(c0.sequence, 2) != n
    ensures var f := StarFacts(j, s, c0); f.printAck != Signalled && f.cutAck != Signalled
  {
    StarAckIffOwnAnswer(j, s, c0);
    StarFencesAreNext(j, s, c0);
    F.NotAnsweredByOthers(F.FenceNumber(c0.sequence, 1), n, StarPrintData(j, s, c0), StarFenced(j, s, c0).asb);
    F.NotAnsweredByOthers(F.FenceNumber(c0.sequence, 2), n, StarCutData(j, s, c0), StarCutFenced(j, s, c0).asb);
  }

  // How many ESC GS ETX fences a job arms, phase by phase.
  function OneArming(j: Job): nat { if j.profile.completion == StarEtb then 0 else 1 }
  function CutArmings(j: Job): nat { if CutOf(j) == CutNone then 0 else OneArming(j) }
  function AckArmings(j: Job, f: Facts): nat { if f.printAck == Signalled then CutArmings(j) else 0 }
  function FenceArmings(j: Job, f: Facts): nat { OneArming(j) + if f.fenceOk then AckArmings(j, f) else 0 }
  function SendArmings(j: Job, f: Facts): nat {
    if f.sentOk && j.profile.completion != NoCompletion then FenceArmings(j, f) else 0
  }
  function PathArmings(j: Job, f: Facts): nat {
    if f.connected && !f.preflight.ProbeLost? then SendArmings(j, f) else 0
  }

  function StarArmings(j: Job, s: Script, c0: F.Channel): nat {
    if DrivableByEscPos(j.profile) || Custom(j.profile).Some? || !DrivableByStar(j.profile) then 0
    else PathArmings(j, StarFacts(j, s, c0))
  }

  // One printer's jobs in the order they ran, its Star channel before each, and how many
  // fences each armed: `RunJob` hands the number on.
  ghost predicate JobRun(jobs: seq<Job>, scripts: seq<Script>, channels: seq<F.Channel>, armings: seq<nat>) {
    && |scripts| == |jobs| == |armings| && F.Numbered(channels, armings)
    && forall i :: 0 <= i < |jobs| ==> armings[i] == StarArmings(jobs[i], scripts[i], channels[i])
  }

  // Over any run of jobs: answers to either fence of one job, however late they come, confirm
  // neither the print nor the cut of a later one, while fewer than 65536 fences lie between.
  lemma LateAnswerCompletesNoLaterJob(jobs: seq<Job>, scripts: seq<Script>, channels: seq<F.Channel>, armings: seq<nat>,
                                      k: nat, m: nat, fence: nat)
    requires JobRun(jobs, scripts, channels, armings) && k < m < |jobs| && 1 <= fence <= armings[k]
    requires F.ArmedFrom(armings, k, m) + 2 < fence + UINT16 && jobs[m].profile.completion == StarEscGsEtx
    requires HearsOnly(F.FenceNumber(channels[k].sequence, fence), jobs[m], scripts[m], channels[m])
    ensures var f := StarFacts(jobs[m], scripts[m], channels[m]); f.printAck != Signalled && f.cutAck != Signalled
  {
    F.LaterFencesDiffer(channels, armings, k, m, fence, 1);
    F.LaterFencesDiffer(channels, armings, k, m, fence, 2);
    OthersAnswersConfirmNothing(jobs[m], scripts[m], channels[m], F.FenceNumber(channels[k].sequence, fence));
  }
}

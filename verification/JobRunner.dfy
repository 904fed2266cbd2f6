// The worker's job procedure (core/src/driver.cpp: advance, sendPaced, leaseTokens, runJob,
// runStarJob), run against a scripted link. Nothing the worker does leaves a mark except
// through Outside, and the marks it leaves are JobScripts.TraceOf of the script.

module JobRunners {
  import opened PrinterTypes
  import opened JournalText
  import opened JobTraces
  import opened Preflights
  import opened JobScripts
  import DriverRuns
  import J = JobStoreModel
  import M = Markers
  import P = EscPosParser
  import B = Backchannels
  import F = StarFences

  // --- Outside the process --------------------------------------------------------

  // The journal file and the link, and the one order in which a job touched them. Append
  // and Write are the only ways to touch either.
  class Outside {
    var journal: string
    ghost var opening: string   // the journal when the job was taken
    ghost var trace: Trace      // what was appended and taken since

    constructor (journal: string)
      ensures this.journal == journal
    {
      this.journal := journal;
      opening, trace := journal, [];
    }

    // The journal holds exactly what this job did, in order, and nothing it did not.
    ghost predicate Kept(id: string, now: uint64)
      reads this
    {
      journal == opening + DriverRuns.JournalOf(id, trace, now)
    }

    ghost method Begin()
      modifies `opening, `trace
      ensures opening == journal && trace == [] && forall id, now :: Kept(id, now)
    {
      opening, trace := journal, [];
      DriverRuns.Joins(journal, [], []);
    }

    method Append(id: string, a: Action, now: uint64)
      requires Kept(id, now) && DriverRuns.IsJournaled(a)
      modifies this
      ensures Kept(id, now) && trace == old(trace) + [a] && opening == old(opening)
      ensures journal == old(journal) + J.RecordText(DriverRuns.EntryOf(id, a, now))
    {
      Appended(id, trace, a, now, opening);
      journal := journal + J.RecordText(DriverRuns.EntryOf(id, a, now));
      trace := trace + [a];
    }

    // The k-th write of a transfer. The link is trusted in one thing: it reports the bytes
    // it took.
    method Write(what: Purpose, bytes: seq<byte>, io: Io, k: nat, ghost id: string, ghost now: uint64)
      returns (ok: bool, written: nat)
      requires Kept(id, now)
      modifies `trace
      ensures Kept(id, now) && trace == old(trace) + [Took(what, OneWrite(bytes, io, k))]
      ensures ok == (io.failsAt != Some(k)) && written == |OneWrite(bytes, io, k)|
    {
      Appended(id, trace, Took(what, OneWrite(bytes, io, k)), now, opening);
      trace := trace + [Took(what, OneWrite(bytes, io, k))];
      return io.failsAt != Some(k), |OneWrite(bytes, io, k)|;
    }
  }

  lemma Appended(id: string, t: Trace, a: Action, now: uint64, opening: string)
    ensures opening + DriverRuns.JournalOf(id, t + [a], now)
            == opening + DriverRuns.JournalOf(id, t, now) + DriverRuns.ActionText(id, a, now)
  {
    DriverRuns.JournalOfConcat(id, t, [a], now);
    assert [a][1..] == [];
    DriverRuns.Joins(DriverRuns.ActionText(id, a, now), [], []);
    DriverRuns.Joins(opening, DriverRuns.JournalOf(id, t, now), DriverRuns.ActionText(id, a, now));
  }

  lemma Then(a: Trace, b: Trace, c: Trace)
    ensures a + b + c == a + (b + c)
  {
  }

  lemma TakesOneMore(what: Purpose, first: seq<byte>, rest: seq<seq<byte>>)
    ensures Takes(what, [first] + rest) == [Took(what, first)] + Takes(what, rest)
  {
    assert ([first] + rest)[1..] == rest;
  }

  // Where a chunked transfer stands: k writes have gone well, and what is still to come
  // completes what the whole transfer leaves.
  ghost predicate Sending(before: Trace, sofar: Trace, what: Purpose, bytes: seq<byte>, offset: nat, chunk: nat, io: Io, k: nat)
    requires offset <= |bytes|
  {
    && (io.failsAt.None? || k <= io.failsAt.value)
    && k + Transfers(|bytes| - offset, chunk) == Transfers(|bytes|, chunk)
    && sofar + Takes(what, TakenFrom(bytes[offset..], chunk, io, k)) == before + Takes(what, Taken(bytes, chunk, io))
    && offset + |Flatten(TakenFrom(bytes[offset..], chunk, io, k))| == |Flatten(Taken(bytes, chunk, io))|
  }

  lemma Rest(bytes: seq<byte>, offset: nat, chunk: nat, io: Io, k: nat)
    requires chunk > 0 && offset < |bytes|
    ensures var n := Min(chunk, |bytes| - offset);
            TakenFrom(bytes[offset..], chunk, io, k)
            == [OneWrite(bytes[offset..offset + n], io, k)] + if io.failsAt == Some(k) then [] else TakenFrom(bytes[offset + n..], chunk, io, k + 1)
  {
    var n := Min(chunk, |bytes| - offset);
    assert bytes[offset..][..n] == bytes[offset..offset + n] && bytes[offset..][n..] == bytes[offset + n..];
  }

  // One more write: the last, if it fails.
  lemma NextWrite(before: Trace, sofar: Trace, what: Purpose, bytes: seq<byte>, offset: nat, chunk: nat, io: Io, k: nat)
    requires chunk > 0 && offset < |bytes| && Sending(before, sofar, what, bytes, offset, chunk, io, k)
    ensures var n := Min(chunk, |bytes| - offset);
            var now := OneWrite(bytes[offset..offset + n], io, k);
            if io.failsAt == Some(k) then
              && sofar + [Took(what, now)] == before + Takes(what, Taken(bytes, chunk, io))
              && offset + |now| == |Flatten(Taken(bytes, chunk, io))| && !Succeeds(|bytes|, chunk, io)
            else
              Sending(before, sofar + [Took(what, now)], what, bytes, offset + n, chunk, io, k + 1)
  {
    var n := Min(chunk, |bytes| - offset);
    var now := OneWrite(bytes[offset..offset + n], io, k);
    var rest := if io.failsAt == Some(k) then [] else TakenFrom(bytes[offset + n..], chunk, io, k + 1);
    Rest(bytes, offset, chunk, io, k);
    TakesOneMore(what, now, rest);
    Then(sofar, [Took(what, now)], Takes(what, rest));
    FlattenConcat([now], rest);
    FlattenOne(now);
  }

  lemma AllSent(before: Trace, sofar: Trace, what: Purpose, bytes: seq<byte>, chunk: nat, io: Io, k: nat)
    requires chunk > 0 && Sending(before, sofar, what, bytes, |bytes|, chunk, io, k)
    ensures sofar == before + Takes(what, Taken(bytes, chunk, io))
    ensures Succeeds(|bytes|, chunk, io) && |bytes| == |Flatten(Taken(bytes, chunk, io))|
  {
    assert bytes[|bytes|..] == [];
    Then(sofar, [], []);
  }

  // --- Judging answers -------------------------------------------------------------

  method MergeAnswers(answers: seq<P.Event>) returns (merged: Flags)
    ensures merged == Merged(answers)
  {
    merged := NO_FLAGS;
    for i := 0 to |answers|
      invariant merged == Merged(answers[..i])
    {
      assert answers[..i + 1][..i] == answers[..i];
      merged := Merge(merged, FlagsOf(answers[i]));
    }
    assert answers[..|answers|] == answers;
  }

  method JudgeBlade(answers: seq<P.Event>) returns (blade: Blade)
    ensures blade == BladeOf(answers)
  {
    for i := 0 to |answers|
      invariant forall k :: 0 <= k < i ==> FlagsOf(answers[k]).cutterError != Some(true)
    {
      if FlagsOf(answers[i]).cutterError == Some(true) { return Jammed; }
    }
    return if |answers| > 0 then FaultFree else Unread;
  }

  // --- The worker -----------------------------------------------------------------

  class PrinterRuntime {
    const outside: Outside
    const channel: B.Backchannel
    const star: F.StarChannel
    const markers: M.MarkerAllocator

    constructor (journal: string, markers: M.MarkerAllocator)
      ensures Valid() && this.markers == markers && outside.journal == journal
    {
      this.markers := markers;
      outside := new Outside(journal);
      channel := new B.Backchannel(markers.nonce);
      star := new F.StarChannel();
    }

    ghost predicate Valid() { channel.nonce == markers.nonce }

    method Advance(j: Job, state: JobState, confidence: ConfidenceLevel, reason: FailureReason, evidence: JobEvidence)
      requires outside.Kept(j.id, j.now)
      modifies outside
      ensures outside.Kept(j.id, j.now) && outside.opening == old(outside.opening)
      ensures outside.trace == old(outside.trace) + [Record(state, confidence, reason, evidence)]
    {
      outside.Append(j.id, Record(state, confidence, reason, evidence), j.now);
    }

    // Writes in chunks until one fails; `written` counts what the link took, the failing
    // write's share included.
    method SendPaced(j: Job, what: Purpose, bytes: seq<byte>, io: Io) returns (ok: bool, written: nat)
      requires outside.Kept(j.id, j.now)
      modifies outside`trace
      ensures outside.Kept(j.id, j.now)
      ensures outside.trace == old(outside.trace) + Takes(what, Taken(bytes, j.profile.chunkBytes, io))
      ensures ok == Succeeds(|bytes|, j.profile.chunkBytes, io)
      ensures written == |Flatten(Taken(bytes, j.profile.chunkBytes, io))|
    {
      if j.profile.chunkBytes == 0 {
        TakesOneMore(what, OneWrite(bytes, io, 0), []);
        FlattenOne(OneWrite(bytes, io, 0));
        ok, written := outside.Write(what, bytes, io, 0, j.id, j.now);
      } else {
        ok, written := SendChunks(j, what, bytes, j.profile.chunkBytes, io);
      }
    }

    method SendChunks(j: Job, what: Purpose, bytes: seq<byte>, chunk: nat, io: Io) returns (ok: bool, written: nat)
      requires outside.Kept(j.id, j.now) && chunk > 0
      modifies outside`trace
      ensures outside.Kept(j.id, j.now) && outside.trace == old(outside.trace) + Takes(what, Taken(bytes, chunk, io))
      ensures ok == Succeeds(|bytes|, chunk, io) && written == |Flatten(Taken(bytes, chunk, io))|
    {
      ghost var before := outside.trace;
      var offset, k := 0, 0;
      assert Sending(before, before, what, bytes, 0, chunk, io, 0) by { assert bytes[0..] == bytes; }
      while offset < |bytes|
        invariant 0 <= offset <= |bytes| && outside.Kept(j.id, j.now)
        invariant Sending(before, outside.trace, what, bytes, offset, chunk, io, k)
        decreases |bytes| - offset
      {
        var take := Min(chunk, |bytes| - offset);
        ghost var sofar := outside.trace;
        NextWrite(before, sofar, what, bytes, offset, chunk, io, k);
        var sent, n := outside.Write(what, bytes[offset..offset + take], io, k, j.id, j.now);
        if !sent { return false, offset + n; }
        offset, k := offset + take, k + 1;
      }
      AllSent(before, outside.trace, what, bytes, chunk, io, k);
      return true, offset;
    }

    // A command other than the payload, with whatever arrives while it is written.
    method Command(j: Job, what: Purpose, bytes: seq<byte>, io: Io) returns (ok: bool)
      requires outside.Kept(j.id, j.now)
      modifies outside`trace, channel, channel.parser
      ensures outside.Kept(j.id, j.now)
      ensures outside.trace == old(outside.trace) + Takes(what, TakenIfAny(bytes, j.profile.chunkBytes, io))
      ensures ok == SucceedsIfAny(bytes, j.profile.chunkBytes, io)
      ensures channel.Abstract() == During(channel.nonce, old(channel.Abstract()), io)
    {
      ok := true;
      if |bytes| > 0 {
        var sent, _ := SendPaced(j, what, bytes, io);
        ok := sent;
      } else {
        Then(outside.trace, [], []);
      }
      channel.Listen(io.chunks, io.drops);
    }

    // --- The ESC/POS path ---------------------------------------------------------

    // Asks for the four statuses, waits for four answers, and merges what came.
    method Preflight(j: Job, s: Script) returns (verdict: Preflight)
      requires outside.Kept(j.id, j.now) && channel.Abstract() == B.BEGUN
      modifies outside`trace, channel, channel.parser
      ensures outside.Kept(j.id, j.now) && verdict == PreflightOf(j, s, channel.nonce)
      ensures outside.trace == old(outside.trace) + Takes(Probing, if AsksFirst(j) then Taken(PROBE, j.profile.chunkBytes, s.probe) else [])
      ensures !verdict.ProbeLost? ==> channel.Abstract() == AtPayload(j, s, channel.nonce)
    {
      if !(j.options.strictPreflight && j.profile.dleEot) {
        Then(outside.trace, [], []);
        return NotRun;
      }
      AskFour();
      var ok := Command(j, Probing, PROBE, s.probe);
      if !ok { return ProbeLost; }
      var w := s.probeWait;
      var outcome, answers := channel.AwaitRealtime(4, w.chunks, w.drops, w.stopping);
      if outcome == LinkDown { return ProbeLost; }
      var merged := MergeAnswers(answers);
      channel.ClearRealtime();
      var refusal := Refusal(merged);
      return if refusal.Some? then Refused(refusal.value) else if |answers| > 0 then Healthy else Silent;
    }

    method AskFour()
      requires channel.Abstract() == B.BEGUN
      modifies channel.parser
      ensures channel.Abstract() == B.Expecting(B.BEGUN, KINDS)
    {
      channel.ExpectRealtime(P.PrinterStatus);
      channel.ExpectRealtime(P.OfflineCause);
      channel.ExpectRealtime(P.ErrorCause);
      channel.ExpectRealtime(P.PaperSensor);
    }

    method AwaitAck(j: Job, token: M.Token, w: Wait) returns (outcome: WaitOutcome)
      modifies channel, channel.parser
      ensures outcome == Ack(j.profile, Waiting(channel.nonce, old(channel.Abstract()), w), token, w)
      ensures channel.Abstract() == Settled(j.profile, Waiting(channel.nonce, old(channel.Abstract()), w))
    {
      if Custom(j.profile).Some? {
        channel.Listen(w.chunks, w.drops);
        return w.custom;
      }
      if j.profile.completion == GsParenH {
        outcome := channel.AwaitToken(token, w.chunks, w.drops, w.stopping);
      } else {
        outcome := channel.AwaitQueued(w.chunks, w.drops, w.stopping);
      }
    }

    // The cutter status, read after the cut fence so that it cannot overtake the cut.
    method ReadBlade(j: Job, s: Script, ghost f: Facts, ghost pair: Option<M.Pair>) returns (blade: Blade)
      requires outside.Kept(j.id, j.now) && f == EscPosFacts(j, s, channel.nonce, pair)
      requires channel.Abstract() == Settled(j.profile, AtCutAck(j, s, channel.nonce))
      modifies outside`trace, channel, channel.parser
      ensures outside.Kept(j.id, j.now) && outside.trace == old(outside.trace) + Takes(CheckingBlade, f.status)
      ensures blade == f.blade
    {
      channel.ClearRealtime();
      channel.ExpectRealtime(P.ErrorCause);
      var ok := Command(j, CheckingBlade, CUTTER_QUERY, s.status);
      var answers := [];
      if ok {
        var _, heard := channel.AwaitRealtime(1, s.statusWait.chunks, s.statusWait.drops, s.statusWait.stopping);
        answers := heard;
      }
      blade := JudgeBlade(answers);
    }

    method VerdictOnBlade(j: Job, blade: Blade)
      requires outside.Kept(j.id, j.now) && j.profile.completion == GsParenH
      modifies outside
      ensures outside.Kept(j.id, j.now) && outside.opening == old(outside.opening)
      ensures outside.trace == old(outside.trace) + BladeVerdict(j.profile, blade)
    {
      var p := j.profile;
      var c := ClampTo(CutProcessed, MaxConfidence(p));
      match blade {
        case Jammed => Advance(j, FailedKnown, c, CutterFault, STATUS_EVIDENCE);
        case FaultFree => Advance(j, DoneSoftware, ClampTo(CutFaultFree, MaxConfidence(p)), NoReason, EvidenceFor(p.completion));
        case Unread => Advance(j, DoneSoftware, c, NoReason, EvidenceFor(p.completion));
      }
    }

    // From the cut acknowledgement on.
    method BladePhase(j: Job, s: Script, ghost f: Facts, ghost pair: Option<M.Pair>)
      requires outside.Kept(j.id, j.now) && f == EscPosFacts(j, s, channel.nonce, pair)
      requires channel.Abstract() == Settled(j.profile, AtCutAck(j, s, channel.nonce))
      modifies outside, channel, channel.parser
      ensures outside.Kept(j.id, j.now) && outside.opening == old(outside.opening)
      ensures outside.trace == old(outside.trace) + BladeTrace(j.profile, f)
    {
      ghost var start := outside.trace;
      if j.profile.completion != GsParenH {
        Advance(j, DoneSoftware, ClampTo(CutProcessed, MaxConfidence(j.profile)), NoReason, SuccessEvidence(j.profile));
        return;
      }
      var blade := ReadBlade(j, s, f, pair);
      VerdictOnBlade(j, blade);
      Then(start, Takes(CheckingBlade, f.status), BladeVerdict(j.profile, blade));
    }

    // The cut with its fence behind it, and the wait for the fence.
    method CutPhase(j: Job, s: Script, pair: Option<M.Pair>, ghost f: Facts)
      requires outside.Kept(j.id, j.now) && f == EscPosFacts(j, s, channel.nonce, pair)
      requires channel.Abstract() == AtCut(j, s, channel.nonce)
      modifies outside, channel, channel.parser
      ensures outside.Kept(j.id, j.now) && outside.opening == old(outside.opening)
      ensures outside.trace == old(outside.trace) + CutTrace(j.profile, CutOf(j), f)
    {
      ghost var start := outside.trace;
      if CutOf(j) == CutNone {
        Advance(j, DoneSoftware, ClampTo(PrintAcknowledged, MaxConfidence(j.profile)), NoReason, SuccessEvidence(j.profile));
        return;
      }
      if j.profile.completion == GsR1 { channel.ExpectQueued(); }
      var ok := Command(j, Cutting, FencedCut(j, s, pair), s.cut);
      CutSent(j, s, pair, ok, f);
      Then(start, Takes(Cutting, f.cut), CutOutcome(j.profile, f));
    }

    method CutSent(j: Job, s: Script, pair: Option<M.Pair>, ok: bool, ghost f: Facts)
      requires outside.Kept(j.id, j.now) && f == EscPosFacts(j, s, channel.nonce, pair) && ok == f.cutOk
      requires channel.Abstract() == AtCutWait(j, s, channel.nonce)
      modifies outside, channel, channel.parser
      ensures outside.Kept(j.id, j.now) && outside.opening == old(outside.opening)
      ensures outside.trace == old(outside.trace) + CutOutcome(j.profile, f)
    {
      ghost var start := outside.trace;
      var c := ClampTo(PrintAcknowledged, MaxConfidence(j.profile));
      if !ok {
        Advance(j, Unknown, c, UnknownReason, TRANSPORT_EVIDENCE);
        return;
      }
      var ack := AwaitAck(j, CutToken(pair), s.cutWait);
      if ack != Signalled {
        Advance(j, Unknown, c, NoAckReason(ack), TRANSPORT_EVIDENCE);
        return;
      }
      c := ClampTo(CutProcessed, MaxConfidence(j.profile));
      Advance(j, CutCommandProcessed, c, NoReason, NoEvidence);
      BladePhase(j, s, f, pair);
      Then(start, Step(CutCommandProcessed, c), BladeTrace(j.profile, f));
    }

    // From BytesSent on: the wait for the print fence.
    method AckPhase(j: Job, s: Script, c: ConfidenceLevel, pair: Option<M.Pair>, ghost f: Facts)
      requires outside.Kept(j.id, j.now) && f == EscPosFacts(j, s, channel.nonce, pair)
      requires channel.Abstract() == AtPrintWait(j, s, channel.nonce)
      modifies outside, channel, channel.parser
      ensures outside.Kept(j.id, j.now) && outside.opening == old(outside.opening)
      ensures outside.trace == old(outside.trace) + AckTrace(j.profile, CutOf(j), c, f)
    {
      ghost var start := outside.trace;
      var ack := AwaitAck(j, PrintToken(pair), s.printWait);
      if ack != Signalled {
        Advance(j, Unknown, c, NoAckReason(ack), TRANSPORT_EVIDENCE);
        return;
      }
      var high := ClampTo(PrintAcknowledged, MaxConfidence(j.profile));
      Advance(j, PrintConfirmed, high, NoReason, NoEvidence);
      CutPhase(j, s, pair, f);
      Then(start, Step(PrintConfirmed, high), CutTrace(j.profile, CutOf(j), f));
    }

    // Nothing will ever answer: the claim stops at the transport.
    method WriteOnlyVerdict(j: Job, c: ConfidenceLevel)
      requires outside.Kept(j.id, j.now)
      modifies outside
      ensures outside.Kept(j.id, j.now) && outside.opening == old(outside.opening)
      ensures outside.trace == old(outside.trace)
                               + (Step(BytesSent, c) + Done(ClampTo(TransportAccepted, MaxConfidence(j.profile)), EvidenceFor(j.profile.completion)))
    {
      ghost var start := outside.trace;
      var low := ClampTo(TransportAccepted, MaxConfidence(j.profile));
      Advance(j, BytesSent, c, NoReason, NoEvidence);
      Advance(j, DoneSoftware, low, NoReason, EvidenceFor(j.profile.completion));
      Then(start, Step(BytesSent, c), Done(low, EvidenceFor(j.profile.completion)));
    }

    // The payload did not go out whole.
    method SendFailedVerdict(j: Job, c: ConfidenceLevel, written: nat)
      requires outside.Kept(j.id, j.now)
      modifies outside
      ensures outside.Kept(j.id, j.now) && outside.opening == old(outside.opening)
      ensures outside.trace == old(outside.trace) + (if written == 0 then Fail(TransportUnreachable, c, NoEvidence) else Ambiguous(UnknownReason, c))
    {
      if written == 0 { Advance(j, FailedKnown, c, TransportUnreachable, NoEvidence); }
      else { Advance(j, Unknown, c, UnknownReason, TRANSPORT_EVIDENCE); }
    }

    // From the end of the fence on.
    method ConfirmPhase(j: Job, s: Script, c: ConfidenceLevel, pair: Option<M.Pair>, fenced: bool, ghost f: Facts)
      requires outside.Kept(j.id, j.now) && f == EscPosFacts(j, s, channel.nonce, pair) && fenced == f.fenceOk
      requires channel.Abstract() == AtPrintWait(j, s, channel.nonce)
      modifies outside, channel, channel.parser
      ensures outside.Kept(j.id, j.now) && outside.opening == old(outside.opening)
      ensures outside.trace == old(outside.trace) + ConfirmTrace(j.profile, CutOf(j), c, f)
    {
      ghost var start := outside.trace;
      if !fenced {
        Advance(j, Unknown, c, UnknownReason, TRANSPORT_EVIDENCE);
      } else if j.profile.completion == NoCompletion {
        WriteOnlyVerdict(j, c);
      } else {
        Advance(j, BytesSent, c, NoReason, NoEvidence);
        AckPhase(j, s, c, pair, f);
        Then(start, Step(BytesSent, c), AckTrace(j.profile, CutOf(j), c, f));
      }
    }

    // The fence behind the payload: its expectation is armed before it can be answered.
    method FencePhase(j: Job, s: Script, c: ConfidenceLevel, pair: Option<M.Pair>, ghost f: Facts)
      requires outside.Kept(j.id, j.now) && f == EscPosFacts(j, s, channel.nonce, pair) && f.sentOk
      requires channel.Abstract() == AtFence(j, s, channel.nonce)
      modifies outside, channel, channel.parser
      ensures outside.Kept(j.id, j.now) && outside.opening == old(outside.opening)
      ensures outside.trace == old(outside.trace) + TailTrace(j.profile, CutOf(j), c, f)
    {
      ghost var start := outside.trace;
      if j.profile.completion == GsR1 { channel.ExpectQueued(); }
      var fenced := Command(j, Behind(j.profile), FenceCommand(j, s, pair), s.fence);
      ConfirmPhase(j, s, c, pair, fenced, f);
      Then(start, Takes(Behind(j.profile), f.fence), ConfirmTrace(j.profile, CutOf(j), c, f));
    }

    // SendStarted is journaled before the first payload byte leaves.
    method SendPhase(j: Job, s: Script, c: ConfidenceLevel, pair: Option<M.Pair>, ghost f: Facts)
      requires outside.Kept(j.id, j.now) && f == EscPosFacts(j, s, channel.nonce, pair)
      requires channel.Abstract() == AtPayload(j, s, channel.nonce)
      modifies outside, channel, channel.parser
      ensures outside.Kept(j.id, j.now) && outside.opening == old(outside.opening)
      ensures outside.trace == old(outside.trace) + SendTrace(j.profile, CutOf(j), c, f)
    {
      ghost var start := outside.trace;
      Advance(j, SendStarted, c, NoReason, NoEvidence);
      var sent, written := SendPaced(j, Printing, Wire(j), s.payload);
      channel.Listen(s.payload.chunks, s.payload.drops);
      if sent {
        FencePhase(j, s, c, pair, f);
      } else {
        SendFailedVerdict(j, c, written);
      }
      SendParts(start, j, c, f);
    }

    // The lease lasts from before the payload to after the verdict. A refused lease is the
    // allocator's exception: the worker goes no further.
    method LeasedSend(j: Job, s: Script, c: ConfidenceLevel) returns (ghost pair: Option<M.Pair>)
      requires Valid() && outside.Kept(j.id, j.now) && channel.Abstract() == AtPayload(j, s, channel.nonce)
      modifies outside, channel, channel.parser, markers
      ensures outside.Kept(j.id, j.now) && outside.opening == old(outside.opening)
      ensures outside.trace == old(outside.trace) + LeasedTrace(j.profile, j.options, c, EscPosFacts(j, s, channel.nonce, pair))
      ensures markers.inUse == old(markers.inUse)
      ensures Leased(markers.nonce, old(markers.inUse), old(markers.next), UsesTokens(j.profile), pair)
    {
      if !UsesTokens(j.profile) {
        pair := None;
        TokenedSend(j, s, c, None);
        return;
      }
      var leased := TakeLease();
      pair := leased;
      if leased.None? {
        Then(outside.trace, [], []);
        return;
      }
      TokenedSend(j, s, c, leased);
      markers.Release(leased.value);
    }

    method TakeLease() returns (pair: Option<M.Pair>)
      modifies markers
      ensures Leased(markers.nonce, old(markers.inUse), old(markers.next), true, pair)
      ensures pair.None? ==> markers.inUse == old(markers.inUse)
      ensures pair.Some? ==> markers.inUse - {pair.value.printToken, pair.value.cutToken} == old(markers.inUse)
    {
      var leased, tries := markers.Acquire();
      if leased.Some? { LeaseIsFirstFree(markers.nonce, old(markers.inUse), old(markers.next), leased.value, tries); }
      return leased;
    }

    // The pair is journaled before anything that carries it can leave.
    method TokenedSend(j: Job, s: Script, c: ConfidenceLevel, pair: Option<M.Pair>)
      requires outside.Kept(j.id, j.now) && channel.Abstract() == AtPayload(j, s, channel.nonce)
      requires pair.Some? <==> UsesTokens(j.profile)
      modifies outside, channel, channel.parser
      ensures outside.Kept(j.id, j.now) && outside.opening == old(outside.opening)
      ensures outside.trace == old(outside.trace) + LeasedTrace(j.profile, j.options, c, EscPosFacts(j, s, channel.nonce, pair))
    {
      ghost var start, f := outside.trace, EscPosFacts(j, s, channel.nonce, pair);
      if pair.Some? {
        outside.Append(j.id, Tokens(pair.value), j.now);
        SendPhase(j, s, c, pair, f);
        Then(start, [Tokens(pair.value)], SendTrace(j.profile, CutOf(j), c, f));
      } else {
        SendPhase(j, s, c, pair, f);
      }
    }

    // From the end of preflight on.
    method PreflightedSend(j: Job, s: Script, verdict: Preflight) returns (ghost pair: Option<M.Pair>)
      requires Valid() && outside.Kept(j.id, j.now) && verdict == PreflightOf(j, s, channel.nonce)
      requires !verdict.ProbeLost? ==> channel.Abstract() == AtPayload(j, s, channel.nonce)
      modifies outside, channel, channel.parser, markers
      ensures outside.Kept(j.id, j.now) && outside.opening == old(outside.opening)
      ensures outside.trace == old(outside.trace) + PreflightTrace(j.profile, j.options, EscPosFacts(j, s, channel.nonce, pair))
      ensures markers.inUse == old(markers.inUse)
      ensures Leased(markers.nonce, old(markers.inUse), old(markers.next),
                     UsesTokens(j.profile) && !verdict.ProbeLost? && !verdict.Refused?, pair)
    {
      ghost var start := outside.trace;
      var low := ClampTo(TransportAccepted, MaxConfidence(j.profile));
      pair := None;
      match verdict {
        case ProbeLost => Advance(j, FailedKnown, low, TransportUnreachable, NoEvidence);
        case Refused(reason) => Advance(j, FailedKnown, low, reason, STATUS_EVIDENCE);
        case Healthy =>
          var high := ClampTo(PrinterHealthy, MaxConfidence(j.profile));
          Advance(j, PreflightOk, high, NoReason, NoEvidence);
          pair := LeasedSend(j, s, high);
          Then(start, Step(PreflightOk, high), LeasedTrace(j.profile, j.options, high, EscPosFacts(j, s, channel.nonce, pair)));
        case _ => pair := LeasedSend(j, s, low);
      }
    }

    method RunEscPos(j: Job, s: Script) returns (ghost pair: Option<M.Pair>)
      requires Valid() && outside.Kept(j.id, j.now) && (DrivableByEscPos(j.profile) || Custom(j.profile).Some?)
      modifies outside, channel, channel.parser, markers
      ensures outside.Kept(j.id, j.now) && outside.opening == old(outside.opening)
      ensures outside.trace == old(outside.trace) + EscPosTrace(j.profile, j.options, EscPosFacts(j, s, channel.nonce, pair))
      ensures markers.inUse == old(markers.inUse)
      ensures Leased(markers.nonce, old(markers.inUse), old(markers.next), NeedsLease(j, s, channel.nonce), pair)
    {
      ghost var start := outside.trace;
      pair := None;
      if !s.connects {
        Advance(j, FailedKnown, ClampTo(TransportAccepted, MaxConfidence(j.profile)), TransportUnreachable, NoEvidence);
        return;
      }
      channel.BeginJobIo();
      var verdict := Preflight(j, s);
      pair := PreflightedSend(j, s, verdict);
      ghost var f := EscPosFacts(j, s, channel.nonce, pair);
      Then(start, Takes(Probing, f.probe), PreflightTrace(j.profile, j.options, f));
    }

    // --- The Star path ------------------------------------------------------------

    method StarCommand(j: Job, what: Purpose, bytes: seq<byte>, io: Io) returns (ok: bool)
      requires outside.Kept(j.id, j.now)
      modifies outside`trace, star, star.parser
      ensures outside.Kept(j.id, j.now)
      ensures outside.trace == old(outside.trace) + Takes(what, TakenIfAny(bytes, j.profile.chunkBytes, io))
      ensures ok == SucceedsIfAny(bytes, j.profile.chunkBytes, io)
      ensures star.Abstract() == F.Heard(old(star.Abstract()), io.chunks, io.drops)
      ensures star.sequence == old(star.sequence)
    {
      ok := true;
      if |bytes| > 0 {
        var sent, _ := SendPaced(j, what, bytes, io);
        ok := sent;
      } else {
        Then(outside.trace, [], []);
      }
      star.Listen(io.chunks, io.drops);
    }

    // An ETB profile starts from a known counter.
    method StarPrepare(j: Job, s: Script, ghost c0: F.Channel, ghost f: Facts) returns (ok: bool)
      requires outside.Kept(j.id, j.now) && f == StarFacts(j, s, c0) && star.Abstract() == c0
      modifies outside`trace, star, star.parser
      ensures outside.Kept(j.id, j.now) && outside.trace == old(outside.trace) + Takes(Probing, f.probe)
      ensures ok == !f.preflight.ProbeLost? && (ok ==> star.Abstract() == StarAtPayload(j, s, c0))
      ensures star.sequence == old(star.sequence)
    {
      star.BeginJobIo(j.profile.asbBlockBytes);
      if j.profile.completion != StarEtb {
        Then(outside.trace, [], []);
        return true;
      }
      ok := StarCommand(j, Probing, STAR_PREAMBLE, s.probe);
      if ok { star.ClearCounter(); }
    }

    // Arms the next fence and returns the bytes that carry it.
    method ArmStarFence(j: Job) returns (fence: seq<byte>)
      modifies star
      ensures star.Abstract() == StarArmed(j.profile, old(star.Abstract()))
      ensures star.sequence == F.FenceNumber(old(star.sequence), OneArming(j))
      ensures fence == StarFenceCommand(star.Abstract().state.fence)
    {
      F.NextFenceIsNumbered(star.sequence, 0);
      star.ArmFence(j.profile.completion == StarEtb);
      if star.isEtb { return [0x17]; }
      return [0x1B, 0x1D, 0x03, 0x01, star.expectN1, star.expectN2];
    }

    method StarCutSent(j: Job, s: Script, ok: bool, ghost c0: F.Channel, ghost f: Facts)
      requires outside.Kept(j.id, j.now) && f == StarFacts(j, s, c0) && ok == f.cutOk && DrivableByStar(j.profile)
      requires star.Abstract() == F.Heard(StarCutFenced(j, s, c0), s.cut.chunks, s.cut.drops)
      modifies outside, star, star.parser
      ensures outside.Kept(j.id, j.now) && outside.opening == old(outside.opening)
      ensures outside.trace == old(outside.trace) + CutOutcome(j.profile, f)
      ensures star.sequence == old(star.sequence)
    {
      ghost var start := outside.trace;
      var p := j.profile;
      var c := ClampTo(PrintAcknowledged, MaxConfidence(p));
      if !ok {
        Advance(j, Unknown, c, UnknownReason, TRANSPORT_EVIDENCE);
        return;
      }
      var ack := AwaitStarCut(j, s, c0, f);
      if ack != Signalled {
        Advance(j, Unknown, c, NoAckReason(ack), TRANSPORT_EVIDENCE);
        return;
      }
      c := ClampTo(CutProcessed, MaxConfidence(p));
      Advance(j, CutCommandProcessed, c, NoReason, NoEvidence);
      Advance(j, DoneSoftware, c, NoReason, EvidenceFor(p.completion));
      Then(start, Step(CutCommandProcessed, c), Done(c, EvidenceFor(p.completion)));
    }

    method StarCutPhase(j: Job, s: Script, ghost c0: F.Channel, ghost f: Facts)
      requires outside.Kept(j.id, j.now) && f == StarFacts(j, s, c0) && DrivableByStar(j.profile)
      requires star.Abstract() == F.Disarmed(StarAtPrintAck(j, s, c0))
      modifies outside, star, star.parser
      ensures outside.Kept(j.id, j.now) && outside.opening == old(outside.opening)
      ensures outside.trace == old(outside.trace) + CutTrace(j.profile, CutOf(j), f)
      ensures star.sequence == F.FenceNumber(old(star.sequence), CutArmings(j))
    {
      F.NextFenceIsNumbered(star.sequence, 0);
      ghost var start := outside.trace;
      if CutOf(j) == CutNone {
        Advance(j, DoneSoftware, ClampTo(PrintAcknowledged, MaxConfidence(j.profile)), NoReason, EvidenceFor(j.profile.completion));
        return;
      }
      var fence := ArmStarFence(j);
      var ok := StarCommand(j, Cutting, StarCut(j) + fence, s.cut);
      StarCutSent(j, s, ok, c0, f);
      Then(start, Takes(Cutting, f.cut), CutOutcome(j.profile, f));
    }

    method AwaitStarPrint(j: Job, s: Script, ghost c0: F.Channel, ghost f: Facts) returns (ack: WaitOutcome)
      requires f == StarFacts(j, s, c0) && star.Abstract() == F.Heard(StarFenced(j, s, c0), s.fence.chunks, s.fence.drops)
      modifies star, star.parser
      ensures ack == f.printAck && star.Abstract() == F.Disarmed(StarAtPrintAck(j, s, c0))
      ensures star.sequence == old(star.sequence)
    {
      ack := star.AwaitFence(s.printWait.chunks, s.printWait.drops, s.printWait.stopping);
    }

    method AwaitStarCut(j: Job, s: Script, ghost c0: F.Channel, ghost f: Facts) returns (ack: WaitOutcome)
      requires f == StarFacts(j, s, c0) && star.Abstract() == F.Heard(StarCutFenced(j, s, c0), s.cut.chunks, s.cut.drops)
      modifies star, star.parser
      ensures ack == f.cutAck
      ensures star.sequence == old(star.sequence)
    {
      ack := star.AwaitFence(s.cutWait.chunks, s.cutWait.drops, s.cutWait.stopping);
    }

    method StarAckPhase(j: Job, s: Script, c: ConfidenceLevel, ghost c0: F.Channel, ghost f: Facts)
      requires outside.Kept(j.id, j.now) && f == StarFacts(j, s, c0) && DrivableByStar(j.profile)
      requires star.Abstract() == F.Heard(StarFenced(j, s, c0), s.fence.chunks, s.fence.drops)
      modifies outside, star, star.parser
      ensures outside.Kept(j.id, j.now) && outside.opening == old(outside.opening)
      ensures outside.trace == old(outside.trace) + AckTrace(j.profile, CutOf(j), c, f)
      ensures star.sequence == F.FenceNumber(old(star.sequence), AckArmings(j, f))
    {
      F.NextFenceIsNumbered(star.sequence, 0);
      ghost var start := outside.trace;
      var ack := AwaitStarPrint(j, s, c0, f);
      if ack != Signalled {
        Advance(j, Unknown, c, NoAckReason(ack), TRANSPORT_EVIDENCE);
        return;
      }
      var high := ClampTo(PrintAcknowledged, MaxConfidence(j.profile));
      Advance(j, PrintConfirmed, high, NoReason, NoEvidence);
      StarCutPhase(j, s, c0, f);
      Then(start, Step(PrintConfirmed, high), CutTrace(j.profile, CutOf(j), f));
    }

    method StarBehindFence(j: Job, s: Script, c: ConfidenceLevel, fenced: bool, ghost c0: F.Channel, ghost f: Facts)
      requires outside.Kept(j.id, j.now) && f == StarFacts(j, s, c0) && DrivableByStar(j.profile)
      requires j.profile.completion != NoCompletion && fenced == f.fenceOk
      requires star.Abstract() == F.Heard(StarFenced(j, s, c0), s.fence.chunks, s.fence.drops)
      modifies outside, star, star.parser
      ensures outside.Kept(j.id, j.now) && outside.opening == old(outside.opening)
      ensures outside.trace == old(outside.trace) + ConfirmTrace(j.profile, CutOf(j), c, f)
      ensures star.sequence == F.FenceNumber(old(star.sequence), if f.fenceOk then AckArmings(j, f) else 0)
    {
      ghost var start := outside.trace;
      if fenced {
        Advance(j, BytesSent, c, NoReason, NoEvidence);
        StarAckPhase(j, s, c, c0, f);
        Then(start, Step(BytesSent, c), AckTrace(j.profile, CutOf(j), c, f));
      } else {
        F.NextFenceIsNumbered(star.sequence, 0);
        Advance(j, Unknown, c, UnknownReason, TRANSPORT_EVIDENCE);
      }
    }

    // The print fence and everything behind it.
    method StarFencePhase(j: Job, s: Script, c: ConfidenceLevel, ghost c0: F.Channel, ghost f: Facts)
      requires outside.Kept(j.id, j.now) && f == StarFacts(j, s, c0) && DrivableByStar(j.profile)
      requires j.profile.completion != NoCompletion && f.sentOk && star.Abstract() == StarAtFence(j, s, c0)
      modifies outside, star, star.parser
      ensures outside.Kept(j.id, j.now) && outside.opening == old(outside.opening)
      ensures outside.trace == old(outside.trace) + TailTrace(j.profile, CutOf(j), c, f)
      ensures star.sequence == F.FenceNumber(old(star.sequence), FenceArmings(j, f))
    {
      ghost var start, first := outside.trace, star.sequence;
      var fence := ArmStarFence(j);
      ghost var second := star.sequence;
      var fenced := StarCommand(j, Fencing, fence, s.fence);
      StarBehindFence(j, s, c, fenced, c0, f);
      F.NumbersChain(first, second, star.sequence, OneArming(j), if f.fenceOk then AckArmings(j, f) else 0, FenceArmings(j, f));
      Then(start, Takes(Fencing, f.fence), ConfirmTrace(j.profile, CutOf(j), c, f));
    }

    // Without a fence the cut rides with the payload; its failure is not looked at.
    method StarWriteOnly(j: Job, s: Script, c: ConfidenceLevel, ghost c0: F.Channel, ghost f: Facts)
      requires outside.Kept(j.id, j.now) && f == StarFacts(j, s, c0) && j.profile.completion == NoCompletion && f.sentOk
      modifies outside, star, star.parser
      ensures outside.Kept(j.id, j.now) && outside.opening == old(outside.opening)
      ensures outside.trace == old(outside.trace) + TailTrace(j.profile, CutOf(j), c, f)
      ensures star.sequence == old(star.sequence)
    {
      ghost var start := outside.trace;
      var cutter := if CutOf(j) != CutNone then StarCut(j) else [];
      var _ := StarCommand(j, Cutting, cutter, s.fence);
      WriteOnlyVerdict(j, c);
      Then(start, Takes(Cutting, f.fence), ConfirmTrace(j.profile, CutOf(j), c, f));
    }

    method StarSendPhase(j: Job, s: Script, c: ConfidenceLevel, ghost c0: F.Channel, ghost f: Facts)
      requires outside.Kept(j.id, j.now) && f == StarFacts(j, s, c0) && DrivableByStar(j.profile)
      requires star.Abstract() == StarAtPayload(j, s, c0)
      modifies outside, star, star.parser
      ensures outside.Kept(j.id, j.now) && outside.opening == old(outside.opening)
      ensures outside.trace == old(outside.trace) + SendTrace(j.profile, CutOf(j), c, f)
      ensures star.sequence == F.FenceNumber(old(star.sequence), SendArmings(j, f))
    {
      F.NextFenceIsNumbered(star.sequence, 0);
      ghost var start := outside.trace;
      Advance(j, SendStarted, c, NoReason, NoEvidence);
      var sent, written := SendPaced(j, Printing, Wire(j), s.payload);
      star.Listen(s.payload.chunks, s.payload.drops);
      if !sent {
        SendFailedVerdict(j, c, written);
      } else if j.profile.completion == NoCompletion {
        StarWriteOnly(j, s, c, c0, f);
      } else {
        StarFencePhase(j, s, c, c0, f);
      }
      SendParts(start, j, c, f);
    }

    method RunStar(j: Job, s: Script)
      requires outside.Kept(j.id, j.now) && DrivableByStar(j.profile)
      modifies outside, star, star.parser
      ensures outside.Kept(j.id, j.now) && outside.opening == old(outside.opening)
      ensures outside.trace == old(outside.trace) + StarTrace(j.profile, j.options, StarFacts(j, s, old(star.Abstract())))
      ensures star.sequence == F.FenceNumber(old(star.sequence), PathArmings(j, StarFacts(j, s, old(star.Abstract()))))
    {
      F.NextFenceIsNumbered(star.sequence, 0);
      ghost var start, c0 := outside.trace, star.Abstract();
      ghost var f := StarFacts(j, s, c0);
      var low := ClampTo(TransportAccepted, MaxConfidence(j.profile));
      if !s.connects {
        Advance(j, FailedKnown, low, TransportUnreachable, NoEvidence);
        return;
      }
      var ready := StarPrepare(j, s, c0, f);
      if !ready {
        Advance(j, FailedKnown, low, TransportUnreachable, NoEvidence);
        Then(start, Takes(Probing, f.probe), Fail(TransportUnreachable, low, NoEvidence));
        return;
      }
      StarSendPhase(j, s, low, c0, f);
      Then(start, Takes(Probing, f.probe), SendTrace(j.profile, CutOf(j), low, f));
    }

    // --- One job ------------------------------------------------------------------

    // Takes a queued job. What it journals and what the link takes, and in which order, is
    // exactly the trace of the script; the journal gains exactly its records; every lease
    // is given back.
    method RunJob(j: Job, s: Script) returns (ghost pair: Option<M.Pair>)
      requires Valid()
      modifies outside, channel, channel.parser, star, star.parser, markers
      ensures outside.opening == old(outside.journal) && outside.Kept(j.id, j.now)
      ensures outside.trace == TraceOf(j, s, channel.nonce, pair, old(star.Abstract()))
      ensures star.sequence == F.FenceNumber(old(star.sequence), StarArmings(j, s, old(star.Abstract())))
      ensures Lawful(|Wire(j)|, MaxConfidence(j.profile), START, outside.trace) && PaperOf(outside.trace) <= Wire(j)
      ensures markers.inUse == old(markers.inUse)
      ensures Leased(markers.nonce, old(markers.inUse), old(markers.next), NeedsLease(j, s, channel.nonce), pair)
    {
      ghost var c0 := star.Abstract();
      outside.Begin();
      pair := Dispatch(j, s);
      Then([], TraceOf(j, s, channel.nonce, pair, c0), []);
      JobIsLawful(j, s, channel.nonce, pair, c0);
    }

    // Which path a profile is driven on; a profile on neither is refused.
    method Dispatch(j: Job, s: Script) returns (ghost pair: Option<M.Pair>)
      requires Valid() && outside.Kept(j.id, j.now)
      modifies outside, channel, channel.parser, star, star.parser, markers
      ensures outside.Kept(j.id, j.now) && outside.opening == old(outside.opening)
      ensures outside.trace == old(outside.trace) + TraceOf(j, s, channel.nonce, pair, old(star.Abstract()))
      ensures star.sequence == F.FenceNumber(old(star.sequence), StarArmings(j, s, old(star.Abstract())))
      ensures markers.inUse == old(markers.inUse)
      ensures Leased(markers.nonce, old(markers.inUse), old(markers.next), NeedsLease(j, s, channel.nonce), pair)
    {
      F.NextFenceIsNumbered(star.sequence, 0);
      if DrivableByEscPos(j.profile) || Custom(j.profile).Some? {
        pair := RunEscPos(j, s);
      } else {
        pair := None;
        if DrivableByStar(j.profile) {
          RunStar(j, s);
        } else {
          Advance(j, FailedKnown, ClampTo(TransportAccepted, MaxConfidence(j.profile)), Unsupported, NoEvidence);
        }
      }
    }
  }

  lemma JobIsLawful(j: Job, s: Script, nonce: M.Nonce, pair: Option<M.Pair>, star: F.Channel)
    ensures var t := TraceOf(j, s, nonce, pair, star);
            Lawful(|Wire(j)|, MaxConfidence(j.profile), START, t) && PaperOf(t) <= Wire(j)
  {
    VerdictTellsThePaper(j, s, nonce, pair, star);
  }

  // Whether a job gets as far as its lease.
  predicate NeedsLease(j: Job, s: Script, nonce: M.Nonce) {
    && (DrivableByEscPos(j.profile) || Custom(j.profile).Some?) && UsesTokens(j.profile) && s.connects
    && !PreflightOf(j, s, nonce).ProbeLost? && !PreflightOf(j, s, nonce).Refused?
  }

  // The pair a job holds: the first free one the allocator comes to, none exactly when it
  // comes to none.
  ghost predicate Leased(nonce: M.Nonce, inUse: set<M.Token>, next: M.uint32, needed: bool, pair: Option<M.Pair>) {
    if !needed then pair == None
    else if pair.None? then M.AllTaken(nonce, inUse, next)
    else exists i: nat :: M.FirstFree(nonce, inUse, next, i) && pair.value == M.PairAt(nonce, M.SlotAfter(next, i))
  }

  lemma LeaseIsFirstFree(nonce: M.Nonce, inUse: set<M.Token>, next: M.uint32, pair: M.Pair, tries: nat)
    requires tries > 0 && M.FirstFree(nonce, inUse, next, tries - 1) && pair == M.PairAt(nonce, M.SlotAfter(next, tries - 1))
    ensures Leased(nonce, inUse, next, true, Some(pair))
    ensures M.Granted(inUse, pair) - {pair.printToken, pair.cutToken} == inUse
  {
    assert M.Free(nonce, inUse, M.SlotAfter(next, tries - 1));
    M.ReleaseUndoesGrant(inUse, pair);
  }

  lemma SendParts(start: Trace, j: Job, c: ConfidenceLevel, f: Facts)
    ensures start + Step(SendStarted, c) + Takes(Printing, f.payload) + TailTrace(j.profile, CutOf(j), c, f)
            == start + SendTrace(j.profile, CutOf(j), c, f)
  {
    Then(start + Step(SendStarted, c), Takes(Printing, f.payload), TailTrace(j.profile, CutOf(j), c, f));
    Then(start, Step(SendStarted, c), Takes(Printing, f.payload) + TailTrace(j.profile, CutOf(j), c, f));
  }

  // A job run to its end is a run of the driver: taken up as a live attempt, its trace
  // moves the world as the journal says, and the paper by the payload bytes the link took.
  lemma JobIsARun(w: DriverRuns.World, j: Job, s: Script, nonce: M.Nonce, pair: Option<M.Pair>, star: F.Channel)
    requires j.id in w.live && w.live[j.id] == DriverRuns.Attempt(START, |Wire(j)|, MaxConfidence(j.profile))
    ensures var t := TraceOf(j, s, nonce, pair, star);
            var acts := DriverRuns.Acts(j.id, t, j.now);
            DriverRuns.Run(w, acts) && DriverRuns.Carried(w, DriverRuns.End(w, acts), j.id, t, j.now)
  {
    JobIsLawful(j, s, nonce, pair, star);
    DriverRuns.TraceIsARun(w, j.id, TraceOf(j, s, nonce, pair, star), j.now);
  }
}

// The incremental ESC/POS response parser (core/src/response_parser.cpp): undelimited,
// interleaved frames on one socket, classified greedily with hold-back.

module EscPosParser {
  import opened PrinterTypes

  datatype DleEotKind = PrinterStatus | OfflineCause | ErrorCause | PaperSensor

  datatype Event =
    | GsHAck(token: seq<byte>)
    | AsbStatus(frame: seq<byte>)
    | RealtimeStatus(kind: DleEotKind, value: byte)
    | QueuedStatus(value: byte)
    | UnknownByte(value: byte)

  // --- Wire formats, as declarative predicates ------------------------------------

  const HEADER0: byte := 0x37
  const HEADER1: byte := 0x22

  predicate IsPrintable(v: byte) { 0x20 <= v <= 0x7E }

  // Bit 7 clear, bit 4 set, bits 1 and 0 clear: (v & 0x93) == 0x10.
  predicate LooksLikeAsb(v: byte) { v < 0x80 && (v / 16) % 2 == 1 && v % 4 == 0 }

  // Bit 7 clear, bit 4 set, bit 1 set, bit 0 clear: (v & 0x93) == 0x12.
  predicate LooksLikeRealtime(v: byte) { v < 0x80 && (v / 16) % 2 == 1 && v % 4 == 2 }

  // 37 22 d1 d2 d3 d4 00
  predicate AckByteAt(v: byte, i: nat)
    requires i < 7
  {
    if i == 0 then v == HEADER0
    else if i == 1 then v == HEADER1
    else if i < 6 then IsPrintable(v)
    else v == 0
  }

  predicate IsAckFrame(f: seq<byte>) {
    |f| == 7 && forall i :: 0 <= i < 7 ==> AckByteAt(f[i], i)
  }

  predicate IsAsbFrame(f: seq<byte>) {
    |f| == 4 && forall i :: 0 <= i < 4 ==> LooksLikeAsb(f[i])
  }

  predicate IsToken(t: seq<byte>) {
    |t| == 4 && forall i :: 0 <= i < 4 ==> IsPrintable(t[i])
  }

  function AckFrame(t: seq<byte>): (f: seq<byte>)
    requires IsToken(t)
    ensures IsAckFrame(f) && f[2..6] == t
  {
    [HEADER0, HEADER1] + t + [0]
  }

  // The bytes an event was classified from.
  function WireBytes(e: Event): seq<byte> {
    match e
    case GsHAck(t) => [HEADER0, HEADER1] + t + [0]
    case AsbStatus(f) => f
    case RealtimeStatus(_, v) => [v]
    case QueuedStatus(v) => [v]
    case UnknownByte(v) => [v]
  }

  function WireOf(events: seq<Event>): seq<byte> {
    if events == [] then [] else WireBytes(events[0]) + WireOf(events[1..])
  }

  // --- One classification step ----------------------------------------------------

  datatype State = State(buffer: seq<byte>, realtime: seq<DleEotKind>, queued: nat)

  datatype Step = Empty | NeedMore | Emitted(event: Event, rest: State)

  // No byte in hand contradicts a frame starting at the front of the buffer.
  predicate AckPossible(b: seq<byte>) {
    b != [] && forall i :: 0 <= i < |b| && i < 7 ==> AckByteAt(b[i], i)
  }

  predicate AsbPossible(b: seq<byte>) {
    b != [] && forall i :: 0 <= i < |b| && i < 4 ==> LooksLikeAsb(b[i])
  }

  // A byte that starts no frame: realtime expectation first, then queued, then unknown.
  function Single(s: State): Step
    requires s.buffer != []
  {
    var v := s.buffer[0];
    var rest := s.(buffer := s.buffer[1..]);
    if s.realtime != [] && LooksLikeRealtime(v) then
      Emitted(RealtimeStatus(s.realtime[0], v), rest.(realtime := s.realtime[1..]))
    else if s.queued > 0 then
      Emitted(QueuedStatus(v), rest.(queued := s.queued - 1))
    else
      Emitted(UnknownByte(v), rest)
  }

  function Next(s: State, force: bool): Step {
    if s.buffer == [] then Empty
    else if AckPossible(s.buffer) && |s.buffer| >= 7 then
      Emitted(GsHAck(s.buffer[2..6]), s.(buffer := s.buffer[7..]))
    else if AckPossible(s.buffer) && !force then NeedMore
    else if AsbPossible(s.buffer) && |s.buffer| >= 4 then
      Emitted(AsbStatus(s.buffer[..4]), s.(buffer := s.buffer[4..]))
    else if AsbPossible(s.buffer) && !force then NeedMore
    else Single(s)
  }

  datatype Outcome = Outcome(events: seq<Event>, state: State)

  // Classify until nothing more can be said.
  function Run(s: State, force: bool): Outcome
    decreases |s.buffer|
  {
    match Next(s, force)
    case Empty => Outcome([], s)
    case NeedMore => Outcome([], s)
    case Emitted(e, rest) =>
      var tail := Run(rest, force);
      Outcome([e] + tail.events, tail.state)
  }

  // What a drain that has already produced `sofar` will have produced in the end.
  function RunFrom(sofar: seq<Event>, s: State, force: bool): Outcome {
    Outcome(sofar + Run(s, force).events, Run(s, force).state)
  }

  lemma RunFromStep(sofar: seq<Event>, s: State, force: bool)
    requires Next(s, force).Emitted?
    ensures RunFrom(sofar, s, force) == RunFrom(sofar + [Next(s, force).event], Next(s, force).rest, force)
  {
    var n := Next(s, force);
    var tail := Run(n.rest, force).events;
    assert sofar + ([n.event] + tail) == (sofar + [n.event]) + tail;
  }

  function FeedSpec(s: State, data: seq<byte>): Outcome {
    Run(s.(buffer := s.buffer + data), false)
  }

  function FeedAll(s: State, chunks: seq<seq<byte>>): Outcome
    decreases |chunks|
  {
    if chunks == [] then Outcome([], s)
    else
      var first := FeedSpec(s, chunks[0]);
      var tail := FeedAll(first.state, chunks[1..]);
      Outcome(first.events + tail.events, tail.state)
  }

  // Nothing in the buffer is classifiable yet: what every feed leaves behind.
  predicate Settled(s: State) { !Next(s, false).Emitted? }

  // --- The parser object ----------------------------------------------------------

  class ResponseParser {
    var buffer: seq<byte>
    var realtime: seq<DleEotKind>
    var queued: nat

    constructor ()
      ensures Abstract() == State([], [], 0)
    {
      buffer, realtime, queued := [], [], 0;
    }

    function Abstract(): State
      reads this
    {
      State(buffer, realtime, queued)
    }

    method ExpectRealtime(kind: DleEotKind)
      modifies this
      ensures Abstract() == old(Abstract()).(realtime := old(realtime) + [kind])
    {
      realtime := realtime + [kind];
    }

    method ExpectQueued()
      modifies this
      ensures Abstract() == old(Abstract()).(queued := old(queued) + 1)
    {
      queued := queued + 1;
    }

    method Reset()
      modifies this
      ensures Abstract() == State([], [], 0)
    {
      buffer, realtime, queued := [], [], 0;
    }

    // Whether some byte already in hand rules out a GS ( H frame here.
    method AckDisqualified() returns (disqualified: bool)
      requires buffer != [] && buffer[0] == HEADER0
      ensures disqualified <==> !AckPossible(buffer)
    {
      var available := if |buffer| < 7 then |buffer| else 7;
      disqualified := available >= 2 && buffer[1] != HEADER1;
      var i := 2;
      while !disqualified && i < available && i < 6
        invariant 2 <= i <= 6
        invariant disqualified ==> !AckPossible(buffer)
        invariant !disqualified ==> forall k :: 0 <= k < i && k < available ==> AckByteAt(buffer[k], k)
        decreases 6 - i, !disqualified
      {
        disqualified := !IsPrintable(buffer[i]);
        if disqualified {
          assert !AckByteAt(buffer[i], i);
        } else {
          i := i + 1;
        }
      }
      if !disqualified && available == 7 && buffer[6] != 0 {
        assert !AckByteAt(buffer[6], 6);
        disqualified := true;
      }
    }

    method AsbDisqualified() returns (disqualified: bool)
      requires buffer != [] && LooksLikeAsb(buffer[0])
      ensures disqualified <==> !AsbPossible(buffer)
    {
      var available := if |buffer| < 4 then |buffer| else 4;
      disqualified := false;
      var i := 1;
      while !disqualified && i < available
        invariant 1 <= i <= available
        invariant disqualified ==> !AsbPossible(buffer)
        invariant !disqualified ==> forall k :: 0 <= k < i ==> LooksLikeAsb(buffer[k])
        decreases available - i, !disqualified
      {
        disqualified := !LooksLikeAsb(buffer[i]);
        if !disqualified { i := i + 1; }
      }
    }

    // One step: `emitted` is true when an event was produced, `idle` when the buffer is
    // empty; neither means more bytes are needed.
    method TakeStep(force: bool) returns (emitted: bool, event: Event)
      modifies this
      ensures match Next(old(Abstract()), force)
              case Emitted(e, rest) => emitted && event == e && Abstract() == rest
              case _ => !emitted && Abstract() == old(Abstract())
    {
      event := UnknownByte(0);
      if buffer == [] { return false, event; }
      var first := buffer[0];
      if first == HEADER0 {
        var disqualified := AckDisqualified();
        if !disqualified {
          if |buffer| >= 7 {
            event := GsHAck(buffer[2..6]);
            buffer := buffer[7..];
            return true, event;
          }
          if !force { return false, event; }
        }
      }
      if LooksLikeAsb(first) {
        var disqualified := AsbDisqualified();
        if !disqualified {
          if |buffer| >= 4 {
            event := AsbStatus(buffer[..4]);
            buffer := buffer[4..];
            return true, event;
          }
          if !force { return false, event; }
        }
      }
      if realtime != [] && LooksLikeRealtime(first) {
        event := RealtimeStatus(realtime[0], first);
        realtime := realtime[1..];
        buffer := buffer[1..];
        return true, event;
      }
      if queued > 0 {
        event := QueuedStatus(first);
        queued := queued - 1;
        buffer := buffer[1..];
        return true, event;
      }
      event := UnknownByte(first);
      buffer := buffer[1..];
      return true, event;
    }

    method Drain(force: bool) returns (events: seq<Event>)
      modifies this
      ensures Outcome(events, Abstract()) == Run(old(Abstract()), force)
    {
      events := [];
      var emitted := true;
      while emitted
        invariant RunFrom(events, Abstract(), force) == Run(old(Abstract()), force)
        invariant !emitted ==> !Next(Abstract(), force).Emitted?
        decreases |buffer|, emitted
      {
        ghost var before, sofar := Abstract(), events;
        var e;
        emitted, e := TakeStep(force);
        if emitted {
          RunFromStep(sofar, before, force);
          events := events + [e];
        }
      }
      assert events + [] == events;
    }

    method Feed(data: seq<byte>) returns (events: seq<Event>)
      modifies this
      ensures Outcome(events, Abstract()) == FeedSpec(old(Abstract()), data)
    {
      buffer := buffer + data;
      events := Drain(false);
    }

    method Flush() returns (events: seq<Event>)
      modifies this
      ensures Outcome(events, Abstract()) == Run(old(Abstract()), true)
    {
      events := Drain(true);
    }
  }

  // --- Hold-back is exact ---------------------------------------------------------

  // Bytes are held if and only if some continuation would complete a frame they start.
  lemma HoldBackIsExact(s: State)
    ensures Next(s, false).NeedMore? <==>
            s.buffer != [] && exists ext: seq<byte> :: ext != [] && (IsAckFrame(s.buffer + ext) || IsAsbFrame(s.buffer + ext))
  {
    var b := s.buffer;
    if Next(s, false).NeedMore? {
      if AckPossible(b) {
        var full: seq<byte> := [HEADER0, HEADER1, 0x20, 0x20, 0x20, 0x20, 0];
        var ext := full[|b|..];
        assert IsAckFrame(b + ext);
      } else {
        var full: seq<byte> := [0x10, 0x10, 0x10, 0x10];
        var ext := full[|b|..];
        assert IsAsbFrame(b + ext);
      }
    } else if b != [] {
      forall ext: seq<byte> | ext != []
        ensures !IsAckFrame(b + ext) && !IsAsbFrame(b + ext)
      {
        if IsAckFrame(b + ext) {
          forall i | 0 <= i < |b| ensures AckByteAt(b[i], i) { assert (b + ext)[i] == b[i]; }
          assert AckPossible(b);
        }
        if IsAsbFrame(b + ext) {
          forall i | 0 <= i < |b| ensures LooksLikeAsb(b[i]) { assert (b + ext)[i] == b[i]; }
          assert AsbPossible(b);
        }
      }
    }
  }

  // --- Losslessness and attribution -----------------------------------------------

  lemma NextLossless(s: State, force: bool)
    requires Next(s, force).Emitted?
    ensures WireBytes(Next(s, force).event) + Next(s, force).rest.buffer == s.buffer
  {
    var b := s.buffer;
    if AckPossible(b) && |b| >= 7 {
      assert b == [b[0], b[1]] + b[2..6] + [b[6]] + b[7..];
      assert AckByteAt(b[0], 0) && AckByteAt(b[1], 1) && AckByteAt(b[6], 6);
    }
  }

  // No byte is lost, invented or reordered: events followed by the residue are the input.
  lemma {:induction false} RunLossless(s: State, force: bool)
    ensures WireOf(Run(s, force).events) + Run(s, force).state.buffer == s.buffer
    decreases |s.buffer|
  {
    var n := Next(s, force);
    if n.Emitted? {
      NextLossless(s, force);
      RunLossless(n.rest, force);
      var r := Run(n.rest, force);
      assert ([n.event] + r.events)[1..] == r.events;
      assert WireOf([n.event] + r.events) == WireBytes(n.event) + WireOf(r.events);
    }
  }

  // A feed holds back at most six bytes and leaves nothing classifiable; a flush nothing.
  lemma {:induction false} RunResidue(s: State, force: bool)
    ensures !force ==> Settled(Run(s, force).state) && |Run(s, force).state.buffer| <= 6
    ensures force ==> Run(s, force).state.buffer == []
    decreases |s.buffer|
  {
    if Next(s, force).Emitted? { RunResidue(Next(s, force).rest, force); }
  }

  function RealtimeKinds(events: seq<Event>): seq<DleEotKind> {
    if events == [] then []
    else (if events[0].RealtimeStatus? then [events[0].kind] else []) + RealtimeKinds(events[1..])
  }

  function QueuedCount(events: seq<Event>): nat {
    if events == [] then 0
    else (if events[0].QueuedStatus? then 1 else 0) + QueuedCount(events[1..])
  }

  // Expectations are consumed oldest first, each by exactly one answer.
  lemma NextIsFifo(s: State, force: bool)
    requires Next(s, force).Emitted?
    ensures var e, rest := Next(s, force).event, Next(s, force).rest;
            && s.realtime == (if e.RealtimeStatus? then [e.kind] else []) + rest.realtime
            && s.queued == (if e.QueuedStatus? then 1 else 0) + rest.queued
  {
    if Next(s, force).event.RealtimeStatus? { assert s.realtime == [s.realtime[0]] + s.realtime[1..]; }
  }

  lemma {:induction false} RunIsFifo(s: State, force: bool)
    ensures RealtimeKinds(Run(s, force).events) + Run(s, force).state.realtime == s.realtime
    ensures QueuedCount(Run(s, force).events) + Run(s, force).state.queued == s.queued
    decreases |s.buffer|
  {
    var n := Next(s, force);
    if n.Emitted? {
      NextIsFifo(s, force);
      RunIsFifo(n.rest, force);
      KindsOfCons(n.event, Run(n.rest, force).events, Run(n.rest, force).state.realtime);
    }
  }

  lemma KindsOfCons(e: Event, events: seq<Event>, left: seq<DleEotKind>)
    ensures RealtimeKinds([e] + events) + left == (if e.RealtimeStatus? then [e.kind] else []) + (RealtimeKinds(events) + left)
    ensures QueuedCount([e] + events) == (if e.QueuedStatus? then 1 else 0) + QueuedCount(events)
  {
    assert ([e] + events)[1..] == events;
  }

  // --- Read-split independence ----------------------------------------------------

  // A decision taken without forcing does not change when more bytes arrive behind it.
  lemma AckPossibleMore(b: seq<byte>, more: seq<byte>)
    requires b != []
    ensures !AckPossible(b) ==> !AckPossible(b + more)
    ensures |b| >= 7 ==> (AckPossible(b + more) <==> AckPossible(b))
  {
    var c := b + more;
    forall i | 0 <= i < |b| ensures c[i] == b[i] {}
    if !AckPossible(b) {
      var i :| 0 <= i < |b| && i < 7 && !AckByteAt(b[i], i);
      assert !AckByteAt(c[i], i);
    }
  }

  lemma AsbPossibleMore(b: seq<byte>, more: seq<byte>)
    requires b != []
    ensures !AsbPossible(b) ==> !AsbPossible(b + more)
    ensures |b| >= 4 ==> (AsbPossible(b + more) <==> AsbPossible(b))
  {
    var c := b + more;
    forall i | 0 <= i < |b| ensures c[i] == b[i] {}
    if !AsbPossible(b) {
      var i :| 0 <= i < |b| && i < 4 && !LooksLikeAsb(b[i]);
      assert !LooksLikeAsb(c[i]);
    }
  }

  lemma NextMonotone(s: State, more: seq<byte>)
    requires Next(s, false).Emitted?
    ensures Next(s.(buffer := s.buffer + more), false)
            == Emitted(Next(s, false).event, Next(s, false).rest.(buffer := Next(s, false).rest.buffer + more))
  {
    var b := s.buffer;
    var c := b + more;
    AckPossibleMore(b, more);
    AsbPossibleMore(b, more);
    if AckPossible(b) && |b| >= 7 {
      assert c[2..6] == b[2..6] && c[7..] == b[7..] + more;
    } else if AsbPossible(b) && |b| >= 4 {
      assert c[..4] == b[..4] && c[4..] == b[4..] + more;
    } else {
      SingleMore(s, more);
    }
  }

  lemma SingleMore(s: State, more: seq<byte>)
    requires s.buffer != []
    ensures Single(s).Emitted? && Single(s.(buffer := s.buffer + more)).Emitted?
    ensures Single(s.(buffer := s.buffer + more))
            == Emitted(Single(s).event, Single(s).rest.(buffer := Single(s).rest.buffer + more))
  {
    assert (s.buffer + more)[1..] == s.buffer[1..] + more && (s.buffer + more)[0] == s.buffer[0];
  }

  lemma {:induction false} RunThenMore(s: State, more: seq<byte>)
    ensures var first := Run(s, false);
            var second := FeedSpec(first.state, more);
            FeedSpec(s, more) == Outcome(first.events + second.events, second.state)
    decreases |s.buffer|
  {
    var n := Next(s, false);
    if n.Emitted? {
      NextMonotone(s, more);
      RunThenMore(n.rest, more);
      var first := Run(n.rest, false);
      var second := FeedSpec(first.state, more);
      EventsAssociate([n.event], first.events, second.events);
    } else {
      assert [] + FeedSpec(s, more).events == FeedSpec(s, more).events;
    }
  }

  lemma EventsAssociate(a: seq<Event>, b: seq<Event>, c: seq<Event>)
    ensures a + (b + c) == (a + b) + c
  {
  }

  // feed(a) then feed(b) is feed(a + b): same events, same state.
  lemma SplitIndependent(s: State, a: seq<byte>, b: seq<byte>)
    ensures var first := FeedSpec(s, a);
            var second := FeedSpec(first.state, b);
            FeedSpec(s, a + b) == Outcome(first.events + second.events, second.state)
  {
    RunThenMore(s.(buffer := s.buffer + a), b);
    assert (s.buffer + a) + b == s.buffer + (a + b);
  }

  // Any way of cutting a byte stream into reads gives the events of one single read.
  lemma {:induction false} AnySplitIsOneRead(s: State, chunks: seq<seq<byte>>)
    requires Settled(s)
    ensures FeedAll(s, chunks) == FeedSpec(s, Flatten(chunks))
    decreases |chunks|
  {
    if chunks == [] {
      assert s.buffer + [] == s.buffer;
    } else {
      var first := FeedSpec(s, chunks[0]);
      RunResidue(s.(buffer := s.buffer + chunks[0]), false);
      AnySplitIsOneRead(first.state, chunks[1..]);
      SplitIndependent(s, chunks[0], Flatten(chunks[1..]));
    }
  }

  // --- No acknowledgement is ever swallowed ---------------------------------------

  // A frame behind pending bytes rules out any frame those bytes could have begun ...
  lemma FrameRulesOutAck(b: seq<byte>, t: seq<byte>)
    requires IsToken(t) && b != []
    ensures AckPossible(b + AckFrame(t)) <==> AckPossible(b) && |b| >= 7
  {
    var f := AckFrame(t);
    var c := b + f;
    if |b| >= 7 {
      assert forall i :: 0 <= i < 7 ==> c[i] == b[i];
    } else if |b| == 1 {
      assert c[1] == HEADER0 && !AckByteAt(c[1], 1);
    } else {
      assert c[6] == f[6 - |b|] && f[6 - |b|] != 0;
      assert !AckByteAt(c[6], 6);
    }
  }

  lemma FrameRulesOutAsb(b: seq<byte>, t: seq<byte>)
    requires IsToken(t) && b != []
    ensures AsbPossible(b + AckFrame(t)) <==> AsbPossible(b) && |b| >= 4
  {
    var c := b + AckFrame(t);
    if |b| >= 4 {
      assert forall i :: 0 <= i < 4 ==> c[i] == b[i];
    } else {
      assert c[|b|] == HEADER0 && !LooksLikeAsb(c[|b|]);
    }
  }

  // ... exactly as a flush does.
  lemma FrameActsAsFlush(s: State, t: seq<byte>)
    requires IsToken(t) && s.buffer != []
    ensures Next(s, true).Emitted?
    ensures Next(s.(buffer := s.buffer + AckFrame(t)), false)
            == Emitted(Next(s, true).event, Next(s, true).rest.(buffer := Next(s, true).rest.buffer + AckFrame(t)))
  {
    var b, f := s.buffer, AckFrame(t);
    FrameRulesOutAck(b, t);
    FrameRulesOutAsb(b, t);
    if AckPossible(b) && |b| >= 7 {
      assert (b + f)[2..6] == b[2..6] && (b + f)[7..] == b[7..] + f;
    } else if AsbPossible(b) && |b| >= 4 {
      assert (b + f)[..4] == b[..4] && (b + f)[4..] == b[4..] + f;
    } else {
      assert (b + f)[1..] == b[1..] + f;
    }
  }

  lemma LoneFrame(s: State, t: seq<byte>)
    requires IsToken(t) && s.buffer == []
    ensures FeedSpec(s, AckFrame(t)) == Outcome([GsHAck(t)], s)
  {
    var f := AckFrame(t);
    assert s.buffer + f == f && f[7..] == [];
    var fed := s.(buffer := f);
    assert Next(fed, false) == Emitted(GsHAck(t), s);
    assert Run(s, false) == Outcome([], s);
  }

  // From any state at all, one well-formed frame yields exactly the events a flush of the
  // pending bytes would have produced, then its own acknowledgement, and nothing is held.
  lemma {:induction false} AckNeverSwallowed(s: State, t: seq<byte>)
    requires IsToken(t)
    ensures FeedSpec(s, AckFrame(t)) == Outcome(Run(s, true).events + [GsHAck(t)], Run(s, true).state)
    ensures Run(s, true).state.buffer == []
    decreases |s.buffer|
  {
    RunResidue(s, true);
    if s.buffer == [] {
      LoneFrame(s, t);
      assert [] + [GsHAck(t)] == [GsHAck(t)];
    } else {
      FrameActsAsFlush(s, t);
      var n := Next(s, true);
      AckNeverSwallowed(n.rest, t);
      var fed := s.(buffer := s.buffer + AckFrame(t));
      assert Next(fed, false).rest == n.rest.(buffer := n.rest.buffer + AckFrame(t));
      assert Run(fed, false) == Outcome([n.event] + FeedSpec(n.rest, AckFrame(t)).events, FeedSpec(n.rest, AckFrame(t)).state);
      assert [n.event] + (Run(n.rest, true).events + [GsHAck(t)]) == ([n.event] + Run(n.rest, true).events) + [GsHAck(t)];
    }
  }

  predicate OccursAt(f: seq<byte>, w: seq<byte>, i: int) {
    0 <= i <= |w| - |f| && w[i..i + |f|] == f
  }

  ghost predicate Occurs(f: seq<byte>, w: seq<byte>) { exists i :: OccursAt(f, w, i) }

  lemma OccursWithin(f: seq<byte>, before: seq<byte>, w: seq<byte>, after: seq<byte>)
    requires Occurs(f, w)
    ensures Occurs(f, before + w + after)
  {
    var i :| OccursAt(f, w, i);
    var k := |before| + i;
    assert (before + w + after)[k..k + |f|] == w[i..i + |f|];
    assert OccursAt(f, before + w + after, k);
  }

  lemma {:induction false} RunTokensAreTokens(s: State, force: bool, t: seq<byte>)
    requires GsHAck(t) in Run(s, force).events
    ensures IsToken(t)
    decreases |s.buffer|
  {
    var n := Next(s, force);
    if n.event == GsHAck(t) {
      assert forall i :: 0 <= i < 4 ==> t[i] == s.buffer[i + 2] && AckByteAt(s.buffer[i + 2], i + 2);
    } else {
      RunTokensAreTokens(n.rest, force, t);
    }
  }

  // Every acknowledgement among some events was a contiguous frame on the wire.
  lemma {:induction false} AckWasOnTheWire(events: seq<Event>, t: seq<byte>)
    requires IsToken(t) && GsHAck(t) in events
    ensures Occurs(AckFrame(t), WireOf(events))
  {
    var w, v := WireOf(events), WireOf(events[1..]);
    if events[0] == GsHAck(t) {
      assert OccursAt(AckFrame(t), AckFrame(t), 0);
      OccursWithin(AckFrame(t), [], AckFrame(t), v);
      assert [] + AckFrame(t) + v == w;
    } else {
      AckWasOnTheWire(events[1..], t);
      OccursWithin(AckFrame(t), WireBytes(events[0]), v, []);
      assert WireBytes(events[0]) + v + [] == w;
    }
  }

  // --- An acknowledgement is reported exactly when its frame is on the wire -------

  function Acks(events: seq<Event>): seq<seq<byte>> {
    if events == [] then [] else (if events[0].GsHAck? then [events[0].token] else []) + Acks(events[1..])
  }

  lemma {:induction false} AcksConcat(a: seq<Event>, b: seq<Event>)
    ensures Acks(a + b) == Acks(a) + Acks(b)
  {
    if a == [] {
      assert a + b == b;
    } else {
      assert (a + b)[0] == a[0] && (a + b)[1..] == a[1..] + b;
      AcksConcat(a[1..], b);
    }
  }

  lemma {:induction false} AcksIff(events: seq<Event>, t: seq<byte>)
    ensures t in Acks(events) <==> GsHAck(t) in events
  {
    if events != [] { AcksIff(events[1..], t); }
  }

  lemma AcksOfCons(e: Event, events: seq<Event>)
    ensures Acks([e] + events) == (if e.GsHAck? then [e.token] else []) + Acks(events)
  {
    assert ([e] + events)[1..] == events;
  }

  lemma NextIgnoresExpectations(s: State, r: State, force: bool)
    requires s.buffer == r.buffer
    ensures var n, m := Next(s, force), Next(r, force);
            && (n.Emitted? <==> m.Emitted?)
            && (n.Emitted? ==> n.rest.buffer == m.rest.buffer && (n.event.GsHAck? || m.event.GsHAck? ==> n.event == m.event))
  {
  }

  // What was asked decides what a single byte is called, never where a frame begins.
  lemma {:induction false} ExpectationsMoveNoFrame(s: State, r: State, force: bool)
    requires s.buffer == r.buffer
    ensures Acks(Run(s, force).events) == Acks(Run(r, force).events)
    ensures Run(s, force).state.buffer == Run(r, force).state.buffer
    decreases |s.buffer|
  {
    NextIgnoresExpectations(s, r, force);
    var n, m := Next(s, force), Next(r, force);
    if n.Emitted? {
      ExpectationsMoveNoFrame(n.rest, m.rest, force);
      AcksOfCons(n.event, Run(n.rest, force).events);
      AcksOfCons(m.event, Run(m.rest, force).events);
    }
  }

  // What a fresh parser reports of, and holds back from, one stretch of bytes.
  function AcksIn(w: seq<byte>): seq<seq<byte>> { Acks(Run(State(w, [], 0), false).events) }

  function Residue(w: seq<byte>): seq<byte> { Run(State(w, [], 0), false).state.buffer }

  // A parser holding the residue of what it was fed reports, read by read and whatever it
  // is asked to expect in between, what one fresh read of everything would.
  lemma AcksGrow(w: seq<byte>, s: State, data: seq<byte>)
    requires s.buffer == Residue(w)
    ensures AcksIn(w + data) == AcksIn(w) + Acks(FeedSpec(s, data).events)
    ensures FeedSpec(s, data).state.buffer == Residue(w + data)
  {
    var blank := State(w, [], 0);
    var first := Run(blank, false);
    RunThenMore(blank, data);
    AcksConcat(first.events, FeedSpec(first.state, data).events);
    ExpectationsMoveNoFrame(first.state.(buffer := first.state.buffer + data), s.(buffer := s.buffer + data), false);
  }

  // A whole frame anywhere in what is fed, behind any garbage, partial frame or pending
  // expectation, is reported.
  lemma FrameIsAlwaysReported(s: State, before: seq<byte>, t: seq<byte>, after: seq<byte>)
    requires IsToken(t)
    ensures GsHAck(t) in FeedSpec(s, before + AckFrame(t) + after).events
  {
    var f := AckFrame(t);
    SplitIndependent(s, before + f, after);
    SplitIndependent(s, before, f);
    AckNeverSwallowed(FeedSpec(s, before).state, t);
    var heard := Run(FeedSpec(s, before).state, true).events + [GsHAck(t)];
    assert heard[|heard| - 1] == GsHAck(t);
  }

  // The same however the bytes are cut into reads, as long as the first starts settled.
  lemma FrameIsReportedInAnyReads(s: State, chunks: seq<seq<byte>>, before: seq<byte>, t: seq<byte>, after: seq<byte>)
    requires IsToken(t) && Settled(s) && Flatten(chunks) == before + AckFrame(t) + after
    ensures GsHAck(t) in FeedAll(s, chunks).events
  {
    AnySplitIsOneRead(s, chunks);
    FrameIsAlwaysReported(s, before, t, after);
  }

  lemma OccursBefore(f: seq<byte>, w: seq<byte>, after: seq<byte>)
    requires Occurs(f, w)
    ensures Occurs(f, w + after)
  {
    OccursWithin(f, [], w, after);
    assert [] + w + after == w + after;
  }

  lemma AckMeansOnWire(w: seq<byte>, t: seq<byte>)
    requires t in AcksIn(w)
    ensures IsToken(t) && Occurs(AckFrame(t), w)
  {
    var blank := State(w, [], 0);
    var o := Run(blank, false);
    AcksIff(o.events, t);
    RunTokensAreTokens(blank, false, t);
    AckWasOnTheWire(o.events, t);
    RunLossless(blank, false);
    OccursBefore(AckFrame(t), WireOf(o.events), o.state.buffer);
  }

  lemma CutAround(f: seq<byte>, w: seq<byte>) returns (before: seq<byte>, after: seq<byte>)
    requires Occurs(f, w)
    ensures w == before + f + after
  {
    var i :| OccursAt(f, w, i);
    before, after := w[..i], w[i + |f|..];
    assert w == before + w[i..i + |f|] + after;
  }

  lemma OnWireMeansAck(w: seq<byte>, t: seq<byte>)
    requires IsToken(t) && Occurs(AckFrame(t), w)
    ensures t in AcksIn(w)
  {
    var before, after := CutAround(AckFrame(t), w);
    FrameIsAlwaysReported(State([], [], 0), before, t, after);
    assert State([], [], 0).buffer + w == w;
    AcksIff(Run(State(w, [], 0), false).events, t);
  }

  // A fresh parser reports an acknowledgement if and only if its whole frame stands
  // somewhere in what it read: none is invented, none is swallowed.
  lemma AckIffOnWire(w: seq<byte>, t: seq<byte>)
    ensures t in AcksIn(w) <==> IsToken(t) && Occurs(AckFrame(t), w)
  {
    if t in AcksIn(w) { AckMeansOnWire(w, t); }
    if IsToken(t) && Occurs(AckFrame(t), w) { OnWireMeansAck(w, t); }
  }
}

// The Star backchannel: the response parser of core/src/star.cpp and the fence state of
// core/src/driver.cpp (armStarFence, awaitStarFence, the Star branch of onBytes).

module StarParser {
  import opened PrinterTypes

  datatype Event =
    | EtxAck(n1: byte, n2: byte, counter: byte)
    | AsbBlock(counter: byte, frame: seq<byte>)
    | StrayByte(value: byte)

  const PREFIX: seq<byte> := [0x1B, 0x1D, 0x03, 0x01]
  const ETX_BYTES := 8

  // Status bits 6, 5, 3, 2, 1 packed as counter bits 4..0.
  function EtbCounter(status: byte): byte {
    (status / 32) % 4 * 8 + (status / 2) % 8
  }

  function NextEtbCounter(counter: byte): byte { (counter + 1) % 32 }

  // The bytes in hand agree with the four-byte prefix as far as they go.
  predicate PrefixPossible(b: seq<byte>) {
    forall i :: 0 <= i < |b| && i < 4 ==> b[i] == PREFIX[i]
  }

  datatype Step = Empty | NeedMore | Emitted(event: Event, taken: nat)

  function Next(b: seq<byte>, asb: byte, force: bool): (s: Step)
    ensures s.Emitted? ==> 0 < s.taken <= |b|
  {
    if b == [] then Empty
    else if b[0] == PREFIX[0] then
      if !PrefixPossible(b) then Emitted(StrayByte(b[0]), 1)
      else if |b| >= ETX_BYTES then Emitted(EtxAck(b[4], b[5], b[6]), ETX_BYTES)
      else if force then Emitted(StrayByte(b[0]), 1)
      else NeedMore
    else if asb > 0 then
      if |b| >= asb then Emitted(AsbBlock(if asb > 7 then EtbCounter(b[7]) else 0, b[..asb]), asb)
      else if force then Emitted(StrayByte(b[0]), 1)
      else NeedMore
    else Emitted(StrayByte(b[0]), 1)
  }

  datatype Outcome = Outcome(events: seq<Event>, rest: seq<byte>)

  function Run(b: seq<byte>, asb: byte, force: bool): Outcome
    decreases |b|
  {
    var n := Next(b, asb, force);
    if n.Emitted? then
      var tail := Run(b[n.taken..], asb, force);
      Outcome([n.event] + tail.events, tail.rest)
    else Outcome([], b)
  }

  class ResponseParser {
    var buffer: seq<byte>
    var asbBlockBytes: byte

    constructor ()
      ensures buffer == [] && asbBlockBytes == 8
    {
      buffer, asbBlockBytes := [], 8;
    }

    method Reset()
      modifies `buffer
      ensures buffer == []
    {
      buffer := [];
    }

    method SetAsbBlockBytes(bytes: byte)
      modifies `asbBlockBytes
      ensures asbBlockBytes == bytes
    {
      asbBlockBytes := bytes;
    }

    method TakeStep(force: bool) returns (emitted: bool, event: Event)
      modifies `buffer
      ensures match Next(old(buffer), asbBlockBytes, force)
              case Emitted(e, taken) => emitted && event == e && buffer == old(buffer)[taken..]
              case _ => !emitted && buffer == old(buffer)
    {
      event := StrayByte(0);
      if buffer == [] { return false, event; }
      if buffer[0] == PREFIX[0] {
        var known := if |buffer| < 4 then |buffer| else 4;
        var i := 0;
        while i < known
          invariant 0 <= i <= known && buffer == old(buffer)
          invariant forall k :: 0 <= k < i ==> buffer[k] == PREFIX[k]
        {
          if buffer[i] != PREFIX[i] {
            event := StrayByte(buffer[0]);
            buffer := buffer[1..];
            return true, event;
          }
          i := i + 1;
        }
        if |buffer| < ETX_BYTES {
          if !force { return false, event; }
          event := StrayByte(buffer[0]);
          buffer := buffer[1..];
          return true, event;
        }
        event := EtxAck(buffer[4], buffer[5], buffer[6]);
        buffer := buffer[ETX_BYTES..];
        return true, event;
      }
      if asbBlockBytes > 0 {
        if |buffer| < asbBlockBytes {
          if !force { return false, event; }
          event := StrayByte(buffer[0]);
          buffer := buffer[1..];
          return true, event;
        }
        var frame := buffer[..asbBlockBytes];
        event := AsbBlock(if |frame| > 7 then EtbCounter(frame[7]) else 0, frame);
        buffer := buffer[asbBlockBytes..];
        return true, event;
      }
      event := StrayByte(buffer[0]);
      buffer := buffer[1..];
      return true, event;
    }

    method Feed(data: seq<byte>) returns (events: seq<Event>)
      modifies `buffer
      ensures Outcome(events, buffer) == Run(old(buffer) + data, asbBlockBytes, false)
    {
      buffer := buffer + data;
      ghost var start := buffer;
      events := [];
      var emitted := true;
      while emitted
        invariant Run(start, asbBlockBytes, false)
                  == Outcome(events + Run(buffer, asbBlockBytes, false).events, Run(buffer, asbBlockBytes, false).rest)
        invariant !emitted ==> !Next(buffer, asbBlockBytes, false).Emitted?
        decreases |buffer|, emitted
      {
        ghost var before, sofar := buffer, events;
        var e;
        emitted, e := TakeStep(false);
        if emitted {
          events := events + [e];
          var tail := Run(buffer, asbBlockBytes, false).events;
          assert sofar + ([e] + tail) == events + tail;
        }
      }
      assert events + [] == events;
    }
  }

  // --- Read-split independence ----------------------------------------------------

  lemma NextMonotone(b: seq<byte>, more: seq<byte>, asb: byte)
    requires Next(b, asb, false).Emitted?
    ensures Next(b + more, asb, false) == Next(b, asb, false)
  {
    var c := b + more;
    assert forall i :: 0 <= i < |b| ==> c[i] == b[i];
    if b[0] == PREFIX[0] && !PrefixPossible(b) {
      var i :| 0 <= i < |b| && i < 4 && b[i] != PREFIX[i];
      assert c[i] != PREFIX[i];
    }
    if b[0] != PREFIX[0] && 0 < asb <= |b| { assert c[..asb] == b[..asb]; }
  }

  // Any cut of the stream into two reads gives the events of one.
  lemma {:induction false} SplitIndependent(b: seq<byte>, more: seq<byte>, asb: byte)
    ensures var first := Run(b, asb, false);
            var second := Run(first.rest + more, asb, false);
            Run(b + more, asb, false) == Outcome(first.events + second.events, second.rest)
    decreases |b|
  {
    var n := Next(b, asb, false);
    if n.Emitted? {
      NextMonotone(b, more, asb);
      assert (b + more)[n.taken..] == b[n.taken..] + more;
      SplitIndependent(b[n.taken..], more, asb);
      var first := Run(b[n.taken..], asb, false);
      var second := Run(first.rest + more, asb, false);
      assert [n.event] + (first.events + second.events) == ([n.event] + first.events) + second.events;
    } else {
      assert [] + Run(b + more, asb, false).events == Run(b + more, asb, false).events;
    }
  }

  // --- Attribution to the wire ----------------------------------------------------

  function FrameHead(n1: byte, n2: byte): seq<byte> { PREFIX + [n1, n2] }

  predicate OccursAt(f: seq<byte>, w: seq<byte>, i: int) { 0 <= i <= |w| - |f| && w[i..i + |f|] == f }

  ghost predicate Occurs(f: seq<byte>, w: seq<byte>) { exists i :: OccursAt(f, w, i) }

  lemma OccursLater(f: seq<byte>, before: seq<byte>, w: seq<byte>)
    requires Occurs(f, w)
    ensures Occurs(f, before + w)
  {
    var i :| OccursAt(f, w, i);
    var k := |before| + i;
    assert (before + w)[k..k + |f|] == w[i..i + |f|];
    assert OccursAt(f, before + w, k);
  }

  lemma OccursEarlier(f: seq<byte>, w: seq<byte>, after: seq<byte>)
    requires Occurs(f, w)
    ensures Occurs(f, w + after)
  {
    var i :| OccursAt(f, w, i);
    assert (w + after)[i..i + |f|] == w[i..i + |f|];
    assert OccursAt(f, w + after, i);
  }

  // An answer is reported only for correlation bytes that stood on the wire behind the prefix.
  lemma {:induction false} AnswerWasOnTheWire(b: seq<byte>, asb: byte, force: bool, e: Event)
    requires e in Run(b, asb, force).events && e.EtxAck?
    ensures Occurs(FrameHead(e.n1, e.n2), b)
    decreases |b|
  {
    var n := Next(b, asb, force);
    if n.event == e {
      assert b[0..6] == FrameHead(e.n1, e.n2);
      assert OccursAt(FrameHead(e.n1, e.n2), b, 0);
    } else {
      AnswerWasOnTheWire(b[n.taken..], asb, force, e);
      OccursLater(FrameHead(e.n1, e.n2), b[..n.taken], b[n.taken..]);
      assert b[..n.taken] + b[n.taken..] == b;
    }
  }

  // What is held is always the end of what was fed.
  lemma {:induction false} RunRest(b: seq<byte>, asb: byte, force: bool)
    ensures |Run(b, asb, force).rest| <= |b| && Run(b, asb, force).rest == b[|b| - |Run(b, asb, force).rest|..]
    decreases |b|
  {
    var n := Next(b, asb, force);
    if n.Emitted? { RunRest(b[n.taken..], asb, force); }
  }

  // The counter field survives packing: a status byte built from counter c decodes to c.
  lemma EtbCounterDecodes(c: byte)
    requires c < 32
    ensures EtbCounter((c / 8) * 32 + (c % 8) * 2) == c
  {
  }
}

module StarFences {
  import opened PrinterTypes
  import P = StarParser

  datatype Fence =
    | Idle
    | AwaitEtx(n1: byte, n2: byte)
    | AwaitEtb(counter: byte)

  // The fence state under io_mutex_, with what one parsed event does to it.
  datatype FenceState = FenceState(fence: Fence, signalled: bool, counter: Option<byte>)

  predicate Answers(fence: Fence, e: P.Event) {
    (e.EtxAck? && fence == AwaitEtx(e.n1, e.n2)) || (e.AsbBlock? && fence == AwaitEtb(e.counter))
  }

  // An ASB block counts only when its counter moved.
  predicate IsNews(s: FenceState, e: P.Event) { e.EtxAck? || (e.AsbBlock? && s.counter != Some(e.counter)) }

  function OnEvent(s: FenceState, e: P.Event): FenceState {
    s.(counter := if e.AsbBlock? then Some(e.counter) else s.counter,
       signalled := s.signalled || (IsNews(s, e) && Answers(s.fence, e)))
  }

  predicate IsForeign(s: FenceState, e: P.Event) { IsNews(s, e) && !Answers(s.fence, e) }

  function OnEvents(s: FenceState, events: seq<P.Event>): FenceState
    decreases |events|
  {
    if events == [] then s else OnEvents(OnEvent(s, events[0]), events[1..])
  }

  function ForeignIn(s: FenceState, events: seq<P.Event>): nat
    decreases |events|
  {
    if events == [] then 0
    else (if IsForeign(s, events[0]) then 1 else 0) + ForeignIn(OnEvent(s, events[0]), events[1..])
  }

  // The two correlation bytes of a fence number.
  function Correlation(sequence: uint16): (byte, byte) { (sequence / 256, sequence % 256) }

  function NextFence(sequence: uint16): uint16 { if sequence == UINT16 - 1 then 0 else sequence + 1 }

  // Where a signal comes from: an outstanding fence and an event that answers it.
  lemma {:induction false} SignalOrigin(s: FenceState, events: seq<P.Event>)
    ensures OnEvents(s, events).fence == s.fence
    ensures s.signalled ==> OnEvents(s, events).signalled
    ensures OnEvents(s, events).signalled && !s.signalled ==> exists e :: e in events && Answers(s.fence, e)
    decreases |events|
  {
    if events != [] {
      var next := OnEvent(s, events[0]);
      SignalOrigin(next, events[1..]);
      if next.signalled && !s.signalled { assert events[0] in events; }
      if OnEvents(s, events).signalled && !next.signalled {
        var e :| e in events[1..] && Answers(s.fence, e);
        assert e in events;
      }
    }
  }

  // --- The channel as a value -----------------------------------------------------

  // `received` is everything read since beginJobIo.
  datatype Channel = Channel(state: FenceState, sequence: uint16, buffer: seq<byte>, asb: byte, down: bool, received: seq<byte>)

  // The fence number and the last counter outlive the job; everything else is per job.
  function Begun(c: Channel, asb: byte): Channel {
    Channel(FenceState(Idle, false, c.state.counter), c.sequence, [], asb, false, [])
  }

  function CounterCleared(c: Channel): Channel { c.(state := c.state.(counter := Some(0))) }

  // A new fence: the counter value or the number that will answer it.
  function Armed(c: Channel, etb: bool): Channel {
    if etb then
      var last := if c.state.counter.Some? then c.state.counter.value else 0;
      c.(state := c.state.(fence := AwaitEtb(P.NextEtbCounter(last)), signalled := false))
    else
      var number := NextFence(c.sequence);
      c.(state := c.state.(fence := AwaitEtx(Correlation(number).0, Correlation(number).1), signalled := false), sequence := number)
  }

  function Fed(c: Channel, data: seq<byte>): Channel {
    var o := P.Run(c.buffer + data, c.asb, false);
    c.(state := OnEvents(c.state, o.events), buffer := o.rest, received := c.received + data)
  }

  function Reads(c: Channel, chunks: seq<seq<byte>>): Channel
    decreases |chunks|
  {
    if chunks == [] then c else Reads(Fed(c, chunks[0]), chunks[1..])
  }

  // What happens on the link while the worker writes or waits.
  function Heard(c: Channel, chunks: seq<seq<byte>>, drops: bool): Channel {
    Reads(c, chunks).(down := c.down || drops)
  }

  // A wait disarms the fence however it ends.
  function Disarmed(c: Channel): Channel { c.(state := c.state.(fence := Idle, signalled := false)) }

  function AckOutcome(c: Channel, stopping: bool): WaitOutcome {
    if c.state.signalled then Signalled else if c.down then LinkDown else if stopping then Aborted else Timeout
  }

  // --- What a signal proves -------------------------------------------------------

  predicate IsEndOf(b: seq<byte>, w: seq<byte>) { |b| <= |w| && b == w[|w| - |b|..] }

  ghost predicate AnswerOnWire(n: uint16, received: seq<byte>) {
    P.Occurs(P.FrameHead(Correlation(n).0, Correlation(n).1), received)
  }

  // A signalled fence is outstanding, and if it is an ESC GS ETX fence its own number was
  // read from the wire during this job.
  ghost predicate Sound(c: Channel) {
    && IsEndOf(c.buffer, c.received)
    && (c.state.signalled ==> !c.state.fence.Idle?)
    && (c.state.fence.AwaitEtx? ==> (c.state.fence.n1, c.state.fence.n2) == Correlation(c.sequence))
    && (c.state.signalled && c.state.fence.AwaitEtx? ==> AnswerOnWire(c.sequence, c.received))
  }

  lemma RestIsTheEnd(c: Channel, data: seq<byte>) returns (earlier: seq<byte>)
    requires IsEndOf(c.buffer, c.received)
    ensures c.received + data == earlier + (c.buffer + data)
    ensures IsEndOf(P.Run(c.buffer + data, c.asb, false).rest, c.received + data)
  {
    earlier := c.received[..|c.received| - |c.buffer|];
    assert c.received + data == earlier + (c.buffer + data);
    P.RunRest(c.buffer + data, c.asb, false);
  }

  lemma FedKeepsSound(c: Channel, data: seq<byte>)
    requires Sound(c)
    ensures Sound(Fed(c, data))
  {
    var fed := c.buffer + data;
    var events := P.Run(fed, c.asb, false).events;
    var earlier := RestIsTheEnd(c, data);
    SignalOrigin(c.state, events);
    if OnEvents(c.state, events).signalled && c.state.fence.AwaitEtx? {
      var head := P.FrameHead(Correlation(c.sequence).0, Correlation(c.sequence).1);
      if c.state.signalled {
        P.OccursEarlier(head, c.received, data);
      } else {
        var e :| e in events && Answers(c.state.fence, e);
        P.AnswerWasOnTheWire(fed, c.asb, false, e);
        P.OccursLater(head, earlier, fed);
      }
    }
  }

  lemma {:induction false} HeardKeepsSound(c: Channel, chunks: seq<seq<byte>>, drops: bool)
    requires Sound(c)
    ensures Sound(Heard(c, chunks, drops))
    decreases |chunks|
  {
    if chunks != [] {
      FedKeepsSound(c, chunks[0]);
      HeardKeepsSound(Fed(c, chunks[0]), chunks[1..], drops);
    }
  }

  lemma ArmingKeepsSound(c: Channel, etb: bool)
    requires Sound(c)
    ensures Sound(Armed(c, etb)) && Sound(CounterCleared(c)) && Sound(Disarmed(c))
  {
  }

  lemma {:induction false} HeardReceives(c: Channel, chunks: seq<seq<byte>>, drops: bool)
    ensures Heard(c, chunks, drops).received == c.received + Flatten(chunks)
    ensures Heard(c, chunks, drops).sequence == c.sequence && Heard(c, chunks, drops).state.fence == c.state.fence
    ensures Heard(c, chunks, drops).asb == c.asb
    decreases |chunks|
  {
    if chunks != [] {
      SignalOrigin(c.state, P.Run(c.buffer + chunks[0], c.asb, false).events);
      HeardReceives(Fed(c, chunks[0]), chunks[1..], drops);
      assert c.received + (chunks[0] + Flatten(chunks[1..])) == (c.received + chunks[0]) + Flatten(chunks[1..]);
    }
  }

  lemma {:induction false} OnEventsConcat(s: FenceState, a: seq<P.Event>, b: seq<P.Event>)
    ensures OnEvents(s, a + b) == OnEvents(OnEvents(s, a), b)
    decreases |a|
  {
    if a == [] {
      assert a + b == b;
    } else {
      assert (a + b)[0] == a[0] && (a + b)[1..] == a[1..] + b;
      OnEventsConcat(OnEvent(s, a[0]), a[1..], b);
    }
  }

  lemma Associates(a: seq<byte>, b: seq<byte>, c: seq<byte>)
    ensures (a + b) + c == a + (b + c)
  {
  }

  // The state after two stretches of events told apart, or told together.
  lemma FedTwice(c: Channel, a: seq<byte>, b: seq<byte>)
    ensures Fed(Fed(c, a), b) == Fed(c, a + b)
  {
    var first := P.Run(c.buffer + a, c.asb, false);
    var second := P.Run(first.rest + b, c.asb, false);
    assert P.Run(c.buffer + (a + b), c.asb, false) == P.Outcome(first.events + second.events, second.rest) by {
      P.SplitIndependent(c.buffer + a, b, c.asb);
      Associates(c.buffer, a, b);
    }
    OnEventsConcat(c.state, first.events, second.events);
    Associates(c.received, a, b);
  }

  // Whatever the reads, the fence fares as if everything had come in one.
  lemma {:induction false} ReadSplitChangesNothing(c: Channel, chunks: seq<seq<byte>>)
    requires P.Run(c.buffer, c.asb, false) == P.Outcome([], c.buffer)
    ensures Reads(c, chunks) == Fed(c, Flatten(chunks))
    decreases |chunks|
  {
    if chunks == [] {
      assert c.buffer + [] == c.buffer && c.received + [] == c.received;
    } else {
      P.SplitIndependent(c.buffer + chunks[0], [], c.asb);
      var next := Fed(c, chunks[0]);
      RestIsSettled(c.buffer + chunks[0], c.asb);
      ReadSplitChangesNothing(next, chunks[1..]);
      FedTwice(c, chunks[0], Flatten(chunks[1..]));
    }
  }

  lemma {:induction false} RestIsSettled(b: seq<byte>, asb: byte)
    ensures P.Run(P.Run(b, asb, false).rest, asb, false) == P.Outcome([], P.Run(b, asb, false).rest)
    decreases |b|
  {
    var n := P.Next(b, asb, false);
    if n.Emitted? { RestIsSettled(b[n.taken..], asb); }
  }

  // --- The object -----------------------------------------------------------------

  class StarChannel {
    const parser: P.ResponseParser
    var outstanding: bool
    var signalled: bool
    var isEtb: bool
    var expectN1: byte
    var expectN2: byte
    var expectCounter: byte
    var counter: Option<byte>
    var sequence: uint16
    var linkDown: bool
    ghost var received: seq<byte>

    function Fence(): Fence
      reads this
    {
      if !outstanding then Idle
      else if isEtb then AwaitEtb(expectCounter)
      else AwaitEtx(expectN1, expectN2)
    }

    function State(): FenceState
      reads this
    {
      FenceState(Fence(), signalled, counter)
    }

    ghost function Abstract(): Channel
      reads this, parser
    {
      Channel(State(), sequence, parser.buffer, parser.asbBlockBytes, linkDown, received)
    }

    constructor ()
      ensures fresh(parser) && Abstract() == Channel(FenceState(Idle, false, None), 0, [], 8, false, [])
    {
      parser := new P.ResponseParser();
      outstanding, signalled, isEtb, linkDown := false, false, false, false;
      expectN1, expectN2, expectCounter, counter, sequence := 0, 0, 0, None, 0;
      received := [];
    }

    method BeginJobIo(asbBlockBytes: byte)
      modifies `received, `signalled, `linkDown, `outstanding, parser
      ensures Abstract() == Begun(old(Abstract()), asbBlockBytes)
    {
      parser.Reset();
      parser.SetAsbBlockBytes(asbBlockBytes);
      outstanding, signalled, linkDown := false, false, false;
      received := [];
    }

    method ClearCounter()
      modifies `counter
      ensures Abstract() == CounterCleared(old(Abstract()))
    {
      counter := Some(0);
    }

    method ArmFence(etb: bool)
      modifies this
      ensures Abstract() == Armed(old(Abstract()), etb)
    {
      signalled, outstanding, isEtb := false, true, etb;
      if etb {
        expectCounter := P.NextEtbCounter(if counter.Some? then counter.value else 0);
      } else {
        sequence := NextFence(sequence);
        expectN1, expectN2 := sequence / 256, sequence % 256;
      }
    }

    // One parsed event; true when it is somebody else's.
    method OnParsed(e: P.Event) returns (foreign: bool)
      modifies `signalled, `counter
      ensures State() == OnEvent(old(State()), e) && foreign == IsForeign(old(State()), e)
    {
      match e {
        case EtxAck(n1, n2, _) =>
          if outstanding && !isEtb && n1 == expectN1 && n2 == expectN2 {
            signalled := true;
            return false;
          }
          return true;
        case AsbBlock(c, _) =>
          var changed := counter.None? || c != counter.value;
          if !changed { return false; }
          var ours := outstanding && isEtb && c == expectCounter;
          counter := Some(c);
          if ours { signalled := true; }
          return !ours;
        case StrayByte(_) =>
          return false;
      }
    }

    method OnEventList(events: seq<P.Event>) returns (foreign: nat)
      modifies `signalled, `counter
      ensures State() == OnEvents(old(State()), events) && foreign == ForeignIn(old(State()), events)
    {
      foreign := 0;
      for i := 0 to |events|
        invariant OnEvents(State(), events[i..]) == OnEvents(old(State()), events)
        invariant foreign + ForeignIn(State(), events[i..]) == ForeignIn(old(State()), events)
      {
        var theirs := OnParsed(events[i]);
        foreign := foreign + if theirs then 1 else 0;
        assert events[i..][1..] == events[i + 1..];
      }
    }

    method OnBytes(data: seq<byte>) returns (foreign: nat)
      modifies `received, `signalled, `counter, parser
      ensures Abstract() == Fed(old(Abstract()), data)
      ensures foreign == ForeignIn(old(State()), P.Run(old(parser.buffer) + data, old(parser.asbBlockBytes), false).events)
    {
      var events := parser.Feed(data);
      received := received + data;
      foreign := OnEventList(events);
    }

    method OnDisconnected()
      modifies `linkDown
      ensures Abstract() == old(Abstract()).(down := true)
    {
      linkDown := true;
    }

    method Listen(chunks: seq<seq<byte>>, drops: bool)
      modifies `received, `signalled, `counter, `linkDown, parser
      ensures Abstract() == Heard(old(Abstract()), chunks, drops)
    {
      for i := 0 to |chunks|
        invariant linkDown == old(linkDown)
        invariant Reads(Abstract(), chunks[i..]) == Reads(old(Abstract()), chunks)
      {
        assert chunks[i..][1..] == chunks[i + 1..];
        var _ := OnBytes(chunks[i]);
      }
      if drops { OnDisconnected(); }
    }

    // The wait: reads arrive, the link may drop, then the fence is disarmed either way.
    method AwaitFence(chunks: seq<seq<byte>>, drops: bool, stopping: bool) returns (outcome: WaitOutcome)
      modifies `received, `signalled, `counter, `linkDown, `outstanding, parser
      ensures outcome == AckOutcome(Heard(old(Abstract()), chunks, drops), stopping)
      ensures Abstract() == Disarmed(Heard(old(Abstract()), chunks, drops))
    {
      Listen(chunks, drops);
      var answered := signalled;
      outstanding, signalled := false, false;
      if answered { return Signalled; }
      if linkDown { return LinkDown; }
      if stopping { return Aborted; }
      return Timeout;
    }
  }

  // --- Attribution over whole streams ---------------------------------------------

  // The last counter seen is not the one an ETB fence waits for, so the first block that
  // carries it will be news.
  predicate Expectant(s: FenceState) { !s.signalled && (s.fence.AwaitEtb? ==> s.counter != Some(s.fence.counter)) }

  lemma ArmedIsExpectant(c: Channel, etb: bool)
    ensures Expectant(Armed(c, etb).state)
  {
  }

  // A fence becomes signalled if and only if an event of the stream answers it: its own
  // correlation bytes, or (for ETB) a block with exactly the expected counter.
  lemma {:induction false} SignalledIffAnswered(s: FenceState, events: seq<P.Event>)
    requires Expectant(s)
    ensures OnEvents(s, events).signalled <==> exists e :: e in events && Answers(s.fence, e)
    decreases |events|
  {
    SignalOrigin(s, events);
    if events != [] {
      var next := OnEvent(s, events[0]);
      if next.signalled {
        SignalOrigin(next, events[1..]);
        assert events[0] in events;
      } else {
        SignalledIffAnswered(next, events[1..]);
        assert events == [events[0]] + events[1..];
      }
    }
  }

  // No outstanding fence, no signal: whatever arrives late is reported as foreign.
  lemma IdleNeverSignals(s: FenceState, events: seq<P.Event>)
    requires s.fence.Idle? && !s.signalled
    ensures !OnEvents(s, events).signalled
  {
    SignalledIffAnswered(s, events);
  }

  // What the parser makes of these bytes answers the fence.
  ghost predicate Answered(fence: Fence, data: seq<byte>, asb: byte) {
    exists e :: e in P.Run(data, asb, false).events && Answers(fence, e)
  }

  ghost predicate Settled(c: Channel) { P.Run(c.buffer, c.asb, false) == P.Outcome([], c.buffer) }

  // From the moment a fence is armed: it is signalled if and only if the bytes held by the
  // parser then, with all that was read since, hold its answer, however cut into reads.
  lemma HeardSignalsIff(c: Channel, chunks: seq<seq<byte>>, drops: bool)
    requires Settled(c) && Expectant(c.state)
    ensures Heard(c, chunks, drops).state.signalled <==> Answered(c.state.fence, c.buffer + Flatten(chunks), c.asb)
  {
    ReadSplitChangesNothing(c, chunks);
    SignalledIffAnswered(c.state, P.Run(c.buffer + Flatten(chunks), c.asb, false).events);
  }

  lemma {:induction false} HeardKeepsSettled(c: Channel, chunks: seq<seq<byte>>, drops: bool)
    requires Settled(c)
    ensures Settled(Heard(c, chunks, drops))
    decreases |chunks|
  {
    if chunks != [] {
      RestIsSettled(c.buffer + chunks[0], c.asb);
      HeardKeepsSettled(Fed(c, chunks[0]), chunks[1..], drops);
    }
  }

  lemma {:induction false} HeardTwice(c: Channel, a: seq<seq<byte>>, b: seq<seq<byte>>, first: bool, second: bool)
    ensures Heard(Heard(c, a, first), b, second).state == Heard(c, a + b, second).state
    decreases |a|
  {
    if a == [] {
      assert a + b == b;
      DownChangesNothing(c, c.down || first, b);
    } else {
      assert (a + b)[0] == a[0] && (a + b)[1..] == a[1..] + b;
      HeardTwice(Fed(c, a[0]), a[1..], b, first, second);
    }
  }

  // The same over a write and the wait behind it.
  lemma HeardTwiceSignalsIff(c: Channel, a: seq<seq<byte>>, first: bool, b: seq<seq<byte>>, second: bool)
    requires Settled(c) && Expectant(c.state)
    ensures Heard(Heard(c, a, first), b, second).state.signalled <==> Answered(c.state.fence, c.buffer + Flatten(a + b), c.asb)
    ensures Settled(Heard(Heard(c, a, first), b, second))
  {
    HeardTwice(c, a, b, first, second);
    HeardSignalsIff(c, a + b, second);
    HeardKeepsSettled(c, a, first);
    HeardKeepsSettled(Heard(c, a, first), b, second);
  }

  lemma {:induction false} DownChangesNothing(c: Channel, down: bool, chunks: seq<seq<byte>>)
    ensures Reads(c.(down := down), chunks).state == Reads(c, chunks).state
    decreases |chunks|
  {
    if chunks != [] { DownChangesNothing(Fed(c, chunks[0]), down, chunks[1..]); }
  }

  // --- Armings over the life of a channel -----------------------------------------

  function FenceNumber(sequence: uint16, fences: nat): uint16 { (sequence + fences) % UINT16 }

  // Arming a fence gives it the next number.
  lemma NextFenceIsNumbered(sequence: uint16, fences: nat)
    ensures NextFence(FenceNumber(sequence, fences)) == FenceNumber(sequence, fences + 1) && FenceNumber(sequence, 0) == sequence
  {
    var n := sequence + fences;
    assert n == UINT16 * (n / UINT16) + n % UINT16;
  }

  datatype Op = Begin(asbBlockBytes: byte) | Clear | Arm(etb: bool) | Hear(chunks: seq<seq<byte>>, drops: bool) | Disarm

  function After(c: Channel, op: Op): Channel {
    match op
    case Begin(asb) => Begun(c, asb)
    case Clear => CounterCleared(c)
    case Arm(etb) => Armed(c, etb)
    case Hear(chunks, drops) => Heard(c, chunks, drops)
    case Disarm => Disarmed(c)
  }

  const UNUSED := Channel(FenceState(Idle, false, None), 0, [], 8, false, [])

  // Anything one channel may live through, over any number of jobs, waits and time-outs.
  ghost predicate ChannelRun(states: seq<Channel>, ops: seq<Op>) {
    && |states| == |ops| + 1 && states[0] == UNUSED
    && forall k :: 0 <= k < |ops| ==> states[k + 1] == After(states[k], ops[k])
  }

  // How many ESC GS ETX fences were armed.
  function Fences(ops: seq<Op>): nat {
    if ops == [] then 0 else Fences(ops[..|ops| - 1]) + if ops[|ops| - 1] == Arm(false) then 1 else 0
  }

  lemma BegunIsSettled(c: Channel, asb: byte)
    ensures Settled(Begun(c, asb))
  {
  }

  lemma SettledAfter(c: Channel, op: Op)
    requires Settled(c)
    ensures Settled(After(c, op))
    ensures After(c, op).sequence == if op == Arm(false) then NextFence(c.sequence) else c.sequence
  {
    if op.Hear? {
      HeardKeepsSettled(c, op.chunks, op.drops);
      HeardReceives(c, op.chunks, op.drops);
    }
  }

  lemma {:induction false} ArmingsNumberTheFences(states: seq<Channel>, ops: seq<Op>, k: nat)
    requires ChannelRun(states, ops) && k <= |ops|
    ensures Settled(states[k]) && states[k].sequence == FenceNumber(0, Fences(ops[..k]))
  {
    if k > 0 {
      ArmingsNumberTheFences(states, ops, k - 1);
      SettledAfter(states[k - 1], ops[k - 1]);
      NextFenceIsNumbered(0, Fences(ops[..k - 1]));
      assert ops[..k][..k - 1] == ops[..k - 1];
    }
  }

  // How many were armed from one moment to another.
  function FencesFrom(ops: seq<Op>, k: nat, m: nat): nat
    requires k <= m <= |ops|
  {
    FencesGrow(ops, k, m);
    Fences(ops[..m]) - Fences(ops[..k])
  }

  // Two fences of one channel have the same number if and only if a multiple of 65536 were
  // armed from one to the other.
  lemma SameNumberIff(states: seq<Channel>, ops: seq<Op>, k: nat, m: nat)
    requires ChannelRun(states, ops) && k <= m <= |ops|
    ensures states[k].sequence == states[m].sequence <==> FencesFrom(ops, k, m) % UINT16 == 0
  {
    ArmingsNumberTheFences(states, ops, k);
    ArmingsNumberTheFences(states, ops, m);
    FencesGrow(ops, k, m);
    SameRemainderIff(Fences(ops[..k]), Fences(ops[..m]));
  }

  lemma {:induction false} FencesGrow(ops: seq<Op>, k: nat, m: nat)
    requires k <= m <= |ops|
    ensures Fences(ops[..k]) <= Fences(ops[..m])
    decreases m - k
  {
    if k < m {
      FencesGrow(ops, k, m - 1);
      assert ops[..m][..m - 1] == ops[..m - 1];
    }
  }

  lemma SameRemainderIff(a: nat, b: nat)
    requires a <= b
    ensures a % UINT16 == b % UINT16 <==> (b - a) % UINT16 == 0
  {
  }

  lemma CorrelationIsInjective(a: uint16, b: uint16)
    ensures Correlation(a) == Correlation(b) ==> a == b
  {
  }

  // The only ESC GS ETX answers in these bytes are to one fence number.
  ghost predicate OnlyAnswers(n: uint16, data: seq<byte>, asb: byte) {
    forall e :: e in P.Run(data, asb, false).events && e.EtxAck? ==> (e.n1, e.n2) == Correlation(n)
  }

  ghost predicate SomeAnswer(data: seq<byte>, asb: byte) { exists e :: e in P.Run(data, asb, false).events && e.EtxAck? }

  lemma AnsweredByOnly(number: uint16, n: uint16, data: seq<byte>, asb: byte)
    requires OnlyAnswers(n, data, asb) && SomeAnswer(data, asb)
    ensures Answered(AwaitEtx(Correlation(number).0, Correlation(number).1), data, asb) <==> number == n
  {
    CorrelationIsInjective(number, n);
    var e :| e in P.Run(data, asb, false).events && e.EtxAck?;
    assert Answers(AwaitEtx(Correlation(number).0, Correlation(number).1), e) <==> number == n;
  }

  lemma NotAnsweredByOthers(number: uint16, n: uint16, data: seq<byte>, asb: byte)
    requires OnlyAnswers(n, data, asb) && number != n
    ensures !Answered(AwaitEtx(Correlation(number).0, Correlation(number).1), data, asb)
  {
    CorrelationIsInjective(number, n);
  }

  lemma ArmedHearsOnly(c: Channel, n: uint16, chunks: seq<seq<byte>>, drops: bool)
    requires Settled(c) && OnlyAnswers(n, c.buffer + Flatten(chunks), c.asb) && SomeAnswer(c.buffer + Flatten(chunks), c.asb)
    ensures Heard(Armed(c, false), chunks, drops).state.signalled <==> Armed(c, false).sequence == n
  {
    ArmedIsExpectant(c, false);
    HeardSignalsIff(Armed(c, false), chunks, drops);
    AnsweredByOnly(NextFence(c.sequence), n, c.buffer + Flatten(chunks), c.asb);
  }

  lemma OnlyAnswersSignal(c: Channel, armed: Channel, n: uint16, chunks: seq<seq<byte>>, drops: bool)
    requires Settled(c) && armed == Armed(c, false)
    requires OnlyAnswers(n, armed.buffer + Flatten(chunks), armed.asb) && SomeAnswer(armed.buffer + Flatten(chunks), armed.asb)
    ensures Heard(armed, chunks, drops).state.signalled <==> armed.sequence == n
  {
    ArmedHearsOnly(c, n, chunks, drops);
  }

  lemma RunArms(states: seq<Channel>, ops: seq<Op>, m: nat)
    requires ChannelRun(states, ops) && m < |ops| && ops[m] == Arm(false)
    ensures Settled(states[m]) && states[m + 1] == Armed(states[m], false)
  {
    ArmingsNumberTheFences(states, ops, m);
  }

  // In any life of a channel: answers to one fence, however late and however often they
  // come, complete a later one if and only if a multiple of 65536 fences were armed from
  // the one to the other.
  lemma LateAnswerCompletesNoLaterFence(states: seq<Channel>, ops: seq<Op>, k: nat, m: nat, chunks: seq<seq<byte>>, drops: bool)
    requires ChannelRun(states, ops) && k < m < |ops| && ops[k] == Arm(false) && ops[m] == Arm(false)
    requires var c, data := states[m + 1], states[m + 1].buffer + Flatten(chunks);
             OnlyAnswers(states[k + 1].sequence, data, c.asb) && SomeAnswer(data, c.asb)
    ensures Heard(states[m + 1], chunks, drops).state.signalled <==> FencesFrom(ops, k + 1, m + 1) % UINT16 == 0
  {
    SameNumberIff(states, ops, k + 1, m + 1);
    RunArms(states, ops, m);
    OnlyAnswersSignal(states[m], states[m + 1], states[k + 1].sequence, chunks, drops);
  }

  // Fences counted from the same one carry different numbers for 65535 fences.
  lemma FenceNumbersDiffer(sequence: uint16, a: nat, b: nat)
    requires a < b < a + UINT16
    ensures FenceNumber(sequence, a) != FenceNumber(sequence, b)
  {
  }

  lemma FenceNumbersAdd(sequence: uint16, a: nat, b: nat)
    ensures FenceNumber(FenceNumber(sequence, a), b) == FenceNumber(sequence, a + b)
  {
  }

  lemma NumbersChain(first: uint16, second: uint16, third: uint16, a: nat, b: nat, both: nat)
    requires second == FenceNumber(first, a) && third == FenceNumber(second, b) && both == a + b
    ensures third == FenceNumber(first, both)
  {
    FenceNumbersAdd(first, a, b);
  }

  // The channel of one printer before each of its jobs, and how many fences each armed.
  ghost predicate Numbered(channels: seq<Channel>, armings: seq<nat>) {
    && |channels| == |armings| + 1
    && forall i :: 0 <= i < |armings| ==> channels[i + 1].sequence == FenceNumber(channels[i].sequence, armings[i])
  }

  function ArmedFrom(armings: seq<nat>, k: nat, m: nat): nat
    requires k <= m <= |armings|
    decreases m
  {
    if k == m then 0 else ArmedFrom(armings, k, m - 1) + armings[m - 1]
  }

  lemma {:induction false} NumberAfter(channels: seq<Channel>, armings: seq<nat>, k: nat, m: nat)
    requires Numbered(channels, armings) && k <= m <= |armings|
    ensures channels[m].sequence == FenceNumber(channels[k].sequence, ArmedFrom(armings, k, m))
    ensures k < m ==> ArmedFrom(armings, k, m) >= armings[k]
    decreases m - k
  {
    if k < m {
      NumberAfter(channels, armings, k, m - 1);
      FenceNumbersAdd(channels[k].sequence, ArmedFrom(armings, k, m - 1), armings[m - 1]);
    } else {
      NextFenceIsNumbered(channels[k].sequence, 0);
    }
  }

  // The fences of a later job have other numbers than any of an earlier one.
  lemma LaterFencesDiffer(channels: seq<Channel>, armings: seq<nat>, k: nat, m: nat, fence: nat, later: nat)
    requires Numbered(channels, armings) && k < m <= |armings| && 1 <= fence <= armings[k]
    requires 1 <= later && ArmedFrom(armings, k, m) + later < fence + UINT16
    ensures FenceNumber(channels[m].sequence, later) != FenceNumber(channels[k].sequence, fence)
  {
    NumberAfter(channels, armings, k, m);
    FenceNumbersAdd(channels[k].sequence, ArmedFrom(armings, k, m), later);
    FenceNumbersDiffer(channels[k].sequence, fence, ArmedFrom(armings, k, m) + later);
  }
}

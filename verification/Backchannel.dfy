// The ESC/POS backchannel of a printer (core/src/driver.cpp: onBytes, beginJobIo,
// clearRealtime, awaitToken, awaitQueued, awaitRealtime): which answers the job in
// progress may claim. The channel as a value, what each operation does to it, and the
// object that does it.

module Backchannels {
  import opened PrinterTypes
  import P = EscPosParser
  import Markers

  type Token = Markers.Token

  // --- What one batch of parsed events adds ---------------------------------------

  // Acknowledgements carrying this driver's nonce; anybody else's are reported instead.
  function Ours(nonce: Markers.Nonce, tokens: seq<Token>): seq<Token> {
    if tokens == [] then []
    else (if Markers.IsOurs(nonce, tokens[0]) then [tokens[0]] else []) + Ours(nonce, tokens[1..])
  }

  function ForeignIn(nonce: Markers.Nonce, events: seq<P.Event>): nat {
    if events == [] then 0
    else (if events[0].GsHAck? && !Markers.IsOurs(nonce, events[0].token) then 1 else 0) + ForeignIn(nonce, events[1..])
  }

  function QueuedIn(events: seq<P.Event>): seq<byte> {
    if events == [] then [] else (if events[0].QueuedStatus? then [events[0].value] else []) + QueuedIn(events[1..])
  }

  function RealtimeIn(events: seq<P.Event>): seq<P.Event> {
    if events == [] then [] else (if events[0].RealtimeStatus? then [events[0]] else []) + RealtimeIn(events[1..])
  }

  lemma {:induction false} OursConcat(nonce: Markers.Nonce, a: seq<Token>, b: seq<Token>)
    ensures Ours(nonce, a + b) == Ours(nonce, a) + Ours(nonce, b)
  {
    if a == [] {
      assert a + b == b;
    } else {
      assert (a + b)[0] == a[0] && (a + b)[1..] == a[1..] + b;
      OursConcat(nonce, a[1..], b);
    }
  }

  lemma {:induction false} QueuedConcat(a: seq<P.Event>, b: seq<P.Event>)
    ensures QueuedIn(a + b) == QueuedIn(a) + QueuedIn(b)
  {
    if a == [] {
      assert a + b == b;
    } else {
      assert (a + b)[0] == a[0] && (a + b)[1..] == a[1..] + b;
      QueuedConcat(a[1..], b);
    }
  }

  lemma {:induction false} RealtimeConcat(a: seq<P.Event>, b: seq<P.Event>)
    ensures RealtimeIn(a + b) == RealtimeIn(a) + RealtimeIn(b)
  {
    if a == [] {
      assert a + b == b;
    } else {
      assert (a + b)[0] == a[0] && (a + b)[1..] == a[1..] + b;
      RealtimeConcat(a[1..], b);
    }
  }

  lemma {:induction false} OursIff(nonce: Markers.Nonce, tokens: seq<Token>, t: Token)
    ensures t in Ours(nonce, tokens) <==> t in tokens && Markers.IsOurs(nonce, t)
  {
    if tokens != [] { OursIff(nonce, tokens[1..], t); }
  }

  lemma {:induction false} QueuedAreCounted(events: seq<P.Event>)
    ensures |QueuedIn(events)| == P.QueuedCount(events)
  {
    if events != [] { QueuedAreCounted(events[1..]); }
  }

  // --- The channel as a value -----------------------------------------------------

  // `earlier` and `current` are everything read since beginJobIo, cut where the parser was
  // reset.
  datatype Channel = Channel(parser: P.State, tokens: seq<Token>, queued: seq<byte>, realtime: seq<P.Event>,
                             down: bool, earlier: seq<seq<byte>>, current: seq<byte>)

  const BEGUN := Channel(P.State([], [], 0), [], [], [], false, [], [])

  function Segments(c: Channel): seq<seq<byte>> { c.earlier + [c.current] }

  // After events were parsed, leaving the parser in a state, from some bytes.
  function Told(nonce: Markers.Nonce, c: Channel, o: P.Outcome, data: seq<byte>): Channel {
    c.(parser := o.state, tokens := c.tokens + Ours(nonce, P.Acks(o.events)), queued := c.queued + QueuedIn(o.events),
       realtime := c.realtime + RealtimeIn(o.events), current := c.current + data)
  }

  // One read.
  function Fed(nonce: Markers.Nonce, c: Channel, data: seq<byte>): Channel {
    Told(nonce, c, P.FeedSpec(c.parser, data), data)
  }

  // What happens on the link while the worker writes or waits: reads, perhaps a drop.
  function Heard(nonce: Markers.Nonce, c: Channel, chunks: seq<seq<byte>>, drops: bool): Channel {
    Told(nonce, c, P.FeedAll(c.parser, chunks), Flatten(chunks)).(down := c.down || drops)
  }

  function Expecting(c: Channel, kinds: seq<P.DleEotKind>): Channel {
    c.(parser := c.parser.(realtime := c.parser.realtime + kinds))
  }

  function ExpectingOne(c: Channel): Channel { c.(parser := c.parser.(queued := c.parser.queued + 1)) }

  // Expectations nobody answered are dropped with the bytes held for them.
  function Cleared(c: Channel): Channel {
    if c.parser.realtime == [] then c.(realtime := [])
    else c.(realtime := [], parser := P.State([], [], 0), earlier := Segments(c), current := [])
  }

  // A queued answer is taken by the wait it ends.
  function Claimed(c: Channel): Channel { if c.queued == [] then c else c.(queued := c.queued[1..]) }

  function Outcome(answered: bool, c: Channel, stopping: bool): WaitOutcome {
    if answered then Signalled else if c.down then LinkDown else if stopping then Aborted else Timeout
  }

  function TokenOutcome(c: Channel, token: Token, stopping: bool): WaitOutcome { Outcome(token in c.tokens, c, stopping) }

  function QueuedOutcome(c: Channel, stopping: bool): WaitOutcome { Outcome(c.queued != [], c, stopping) }

  lemma Associates<T>(a: seq<T>, b: seq<T>, c: seq<T>)
    ensures a + (b + c) == (a + b) + c
  {
  }

  lemma ToldTwice(nonce: Markers.Nonce, c: Channel, a: P.Outcome, x: seq<byte>, b: P.Outcome, y: seq<byte>)
    ensures Told(nonce, Told(nonce, c, a, x), b, y) == Told(nonce, c, P.Outcome(a.events + b.events, b.state), x + y)
  {
    P.AcksConcat(a.events, b.events);
    OursConcat(nonce, P.Acks(a.events), P.Acks(b.events));
    QueuedConcat(a.events, b.events);
    RealtimeConcat(a.events, b.events);
    Associates(c.tokens, Ours(nonce, P.Acks(a.events)), Ours(nonce, P.Acks(b.events)));
    Associates(c.queued, QueuedIn(a.events), QueuedIn(b.events));
    Associates(c.realtime, RealtimeIn(a.events), RealtimeIn(b.events));
    Associates(c.current, x, y);
  }

  // Reads add up: the first, then the rest.
  lemma HeardStep(nonce: Markers.Nonce, c: Channel, chunks: seq<seq<byte>>, drops: bool)
    requires chunks != []
    ensures Heard(nonce, c, chunks, drops) == Heard(nonce, Fed(nonce, c, chunks[0]), chunks[1..], drops)
  {
    var first := P.FeedSpec(c.parser, chunks[0]);
    ToldTwice(nonce, c, first, chunks[0], P.FeedAll(first.state, chunks[1..]), Flatten(chunks[1..]));
  }

  lemma HeardNothing(nonce: Markers.Nonce, c: Channel, drops: bool)
    ensures Heard(nonce, c, [], drops) == c.(down := c.down || drops)
  {
    assert c.current + [] == c.current;
  }

  // --- Which acknowledgements are recorded ----------------------------------------

  // The tokens of this driver whose frames stand in some segments.
  function OursHeard(nonce: Markers.Nonce, segments: seq<seq<byte>>): seq<Token> {
    if segments == [] then []
    else OursHeard(nonce, segments[..|segments| - 1]) + Ours(nonce, P.AcksIn(segments[|segments| - 1]))
  }

  // The parser holds what is left of the last segment, and the recorded tokens are those
  // of the segments, whatever was expected, answered or cleared in between.
  ghost predicate Sound(nonce: Markers.Nonce, c: Channel) {
    c.parser.buffer == P.Residue(c.current) && c.tokens == OursHeard(nonce, Segments(c))
  }

  lemma LastSegment(nonce: Markers.Nonce, earlier: seq<seq<byte>>, current: seq<byte>)
    ensures OursHeard(nonce, earlier + [current]) == OursHeard(nonce, earlier) + Ours(nonce, P.AcksIn(current))
  {
    assert (earlier + [current])[..|earlier|] == earlier;
  }

  lemma BegunIsSound(nonce: Markers.Nonce)
    ensures Sound(nonce, BEGUN)
  {
    LastSegment(nonce, [], []);
  }

  lemma FedKeepsSound(nonce: Markers.Nonce, c: Channel, data: seq<byte>)
    requires Sound(nonce, c)
    ensures Sound(nonce, Fed(nonce, c, data))
  {
    var more := P.Acks(P.FeedSpec(c.parser, data).events);
    P.AcksGrow(c.current, c.parser, data);
    OursConcat(nonce, P.AcksIn(c.current), more);
    LastSegment(nonce, c.earlier, c.current);
    LastSegment(nonce, c.earlier, c.current + data);
    Associates(OursHeard(nonce, c.earlier), Ours(nonce, P.AcksIn(c.current)), Ours(nonce, more));
  }

  lemma {:induction false} HeardKeepsSound(nonce: Markers.Nonce, c: Channel, chunks: seq<seq<byte>>, drops: bool)
    requires Sound(nonce, c)
    ensures Sound(nonce, Heard(nonce, c, chunks, drops))
    decreases |chunks|
  {
    if chunks == [] {
      HeardNothing(nonce, c, drops);
    } else {
      FedKeepsSound(nonce, c, chunks[0]);
      HeardKeepsSound(nonce, Fed(nonce, c, chunks[0]), chunks[1..], drops);
      HeardStep(nonce, c, chunks, drops);
    }
  }

  lemma AskingKeepsSound(nonce: Markers.Nonce, c: Channel, kinds: seq<P.DleEotKind>)
    requires Sound(nonce, c)
    ensures Sound(nonce, Expecting(c, kinds)) && Sound(nonce, ExpectingOne(c)) && Sound(nonce, Claimed(c))
  {
  }

  lemma ClearedKeepsSound(nonce: Markers.Nonce, c: Channel)
    requires Sound(nonce, c)
    ensures Sound(nonce, Cleared(c))
  {
    LastSegment(nonce, Segments(c), []);
  }

  ghost predicate OnWire(t: Token, segments: seq<seq<byte>>) {
    P.IsToken(t) && exists i :: 0 <= i < |segments| && P.Occurs(P.AckFrame(t), segments[i])
  }

  lemma {:induction false} OursHeardIff(nonce: Markers.Nonce, segments: seq<seq<byte>>, t: Token)
    ensures t in OursHeard(nonce, segments) <==> Markers.IsOurs(nonce, t) && OnWire(t, segments)
  {
    if segments != [] {
      var n := |segments| - 1;
      OursHeardIff(nonce, segments[..n], t);
      OursIff(nonce, P.AcksIn(segments[n]), t);
      P.AckIffOnWire(segments[n], t);
      assert t in OursHeard(nonce, segments) <==> t in OursHeard(nonce, segments[..n]) || t in Ours(nonce, P.AcksIn(segments[n]));
    }
  }

  // A token is recorded if and only if it is this driver's and its whole frame was read
  // since the job began: nothing stale, nothing foreign, and nothing missed.
  lemma RecordedIffOnWire(nonce: Markers.Nonce, c: Channel, t: Token)
    requires Sound(nonce, c)
    ensures t in c.tokens <==> Markers.IsOurs(nonce, t) && OnWire(t, Segments(c))
  {
    OursHeardIff(nonce, Segments(c), t);
  }

  function Received(c: Channel): seq<byte> { Flatten(c.earlier) + c.current }

  // Nothing that was read is dropped from the account, whatever was cleared.
  lemma HeardReceives(nonce: Markers.Nonce, c: Channel, chunks: seq<seq<byte>>, drops: bool)
    ensures Received(Heard(nonce, c, chunks, drops)) == Received(c) + Flatten(chunks)
  {
    Associates(Flatten(c.earlier), c.current, Flatten(chunks));
  }

  lemma ClearedReceives(c: Channel)
    ensures Received(Cleared(c)) == Received(c)
  {
    var one := [c.current];
    FlattenConcat(c.earlier, one);
    assert one[1..] == [] && c.current + [] == c.current;
    assert Received(c) + [] == Received(c);
  }

  lemma {:induction false} InOneIsInAll(f: seq<byte>, segments: seq<seq<byte>>, i: nat)
    requires i < |segments| && P.Occurs(f, segments[i])
    ensures P.Occurs(f, Flatten(segments))
    decreases i
  {
    if i == 0 {
      P.OccursBefore(f, segments[0], Flatten(segments[1..]));
    } else {
      InOneIsInAll(f, segments[1..], i - 1);
      P.OccursWithin(f, segments[0], Flatten(segments[1..]), []);
      assert segments[0] + Flatten(segments[1..]) + [] == segments[0] + Flatten(segments[1..]);
    }
  }

  // A frame in some segment is a frame in what was received, and where nothing has been
  // reset the two are the same.
  lemma OnWireWasReceived(c: Channel, t: Token)
    ensures OnWire(t, Segments(c)) ==> P.Occurs(P.AckFrame(t), Received(c))
    ensures c.earlier == [] ==> (OnWire(t, Segments(c)) <==> P.IsToken(t) && P.Occurs(P.AckFrame(t), Received(c)))
  {
    FlattenConcat(c.earlier, [c.current]);
    FlattenOne(c.current);
    if OnWire(t, Segments(c)) {
      var i :| 0 <= i < |Segments(c)| && P.Occurs(P.AckFrame(t), Segments(c)[i]);
      InOneIsInAll(P.AckFrame(t), Segments(c), i);
    }
    if c.earlier == [] {
      assert Received(c) == c.current && Segments(c)[0] == c.current;
    }
  }

  // A token whose whole frame arrives while the channel listens is recorded, whatever was
  // pending before and however the reads are cut.
  lemma FrameDuringAWaitIsRecorded(nonce: Markers.Nonce, c: Channel, chunks: seq<seq<byte>>, drops: bool, t: Token)
    requires Sound(nonce, c) && P.IsToken(t) && Markers.IsOurs(nonce, t) && P.Occurs(P.AckFrame(t), Flatten(chunks))
    ensures t in Heard(nonce, c, chunks, drops).tokens
  {
    var after := Heard(nonce, c, chunks, drops);
    HeardKeepsSound(nonce, c, chunks, drops);
    P.OccursWithin(P.AckFrame(t), c.current, Flatten(chunks), []);
    assert Segments(after)[|c.earlier|] == c.current + Flatten(chunks) + [];
    RecordedIffOnWire(nonce, after, t);
  }

  // --- Queued answers -------------------------------------------------------------

  // Asked for, and not yet claimed.
  function Owed(c: Channel): nat { |c.queued| + c.parser.queued }

  lemma {:induction false} FeedAllIsFifo(s: P.State, chunks: seq<seq<byte>>)
    ensures |QueuedIn(P.FeedAll(s, chunks).events)| + P.FeedAll(s, chunks).state.queued == s.queued
    decreases |chunks|
  {
    if chunks != [] {
      var first := P.FeedSpec(s, chunks[0]);
      P.RunIsFifo(s.(buffer := s.buffer + chunks[0]), false);
      QueuedAreCounted(first.events);
      FeedAllIsFifo(first.state, chunks[1..]);
      QueuedConcat(first.events, P.FeedAll(first.state, chunks[1..]).events);
    }
  }

  // Listening neither owes nor forgives an answer: every queued answer uses up exactly one
  // request for one, so with nothing owed no byte at all is taken for an answer.
  lemma HeardOwesTheSame(nonce: Markers.Nonce, c: Channel, chunks: seq<seq<byte>>, drops: bool)
    ensures Owed(Heard(nonce, c, chunks, drops)) == Owed(c)
    ensures |c.queued| <= |Heard(nonce, c, chunks, drops).queued|
  {
    FeedAllIsFifo(c.parser, chunks);
  }

  // --- Realtime answers -----------------------------------------------------------

  function Kinds(answers: seq<P.Event>): seq<P.DleEotKind> { P.RealtimeKinds(answers) }

  lemma {:induction false} KindsConcat(a: seq<P.Event>, b: seq<P.Event>)
    ensures Kinds(a + b) == Kinds(a) + Kinds(b)
  {
    if a == [] {
      assert a + b == b;
    } else {
      assert (a + b)[0] == a[0] && (a + b)[1..] == a[1..] + b;
      KindsConcat(a[1..], b);
    }
  }

  lemma {:induction false} KindsOfAnswers(events: seq<P.Event>)
    ensures Kinds(RealtimeIn(events)) == Kinds(events)
    ensures |Kinds(RealtimeIn(events))| == |RealtimeIn(events)|
  {
    if events != [] {
      KindsOfAnswers(events[1..]);
      var first := if events[0].RealtimeStatus? then [events[0]] else [];
      KindsConcat(first, RealtimeIn(events[1..]));
      if first != [] { assert first[1..] == []; }
    }
  }

  lemma {:induction false} FeedAllAnswersInOrder(s: P.State, chunks: seq<seq<byte>>)
    ensures Kinds(P.FeedAll(s, chunks).events) + P.FeedAll(s, chunks).state.realtime == s.realtime
    decreases |chunks|
  {
    if chunks == [] {
      assert [] + s.realtime == s.realtime;
    } else {
      var first := P.FeedSpec(s, chunks[0]);
      var rest := P.FeedAll(first.state, chunks[1..]);
      P.RunIsFifo(s.(buffer := s.buffer + chunks[0]), false);
      FeedAllAnswersInOrder(first.state, chunks[1..]);
      KindsConcat(first.events, rest.events);
      Associates(Kinds(first.events), Kinds(rest.events), rest.state.realtime);
    }
  }

  predicate AllAnswers(events: seq<P.Event>) { forall e :: e in events ==> e.RealtimeStatus? }

  // Answers come in the order of the questions: those given, then those still open, are
  // always the questions asked.
  lemma HeardAnswersInOrder(nonce: Markers.Nonce, c: Channel, chunks: seq<seq<byte>>, drops: bool)
    ensures var d := Heard(nonce, c, chunks, drops);
            Kinds(d.realtime) + d.parser.realtime == Kinds(c.realtime) + c.parser.realtime
    ensures AllAnswers(c.realtime) ==> AllAnswers(Heard(nonce, c, chunks, drops).realtime)
  {
    var o := P.FeedAll(c.parser, chunks);
    FeedAllAnswersInOrder(c.parser, chunks);
    KindsOfAnswers(o.events);
    KindsConcat(c.realtime, RealtimeIn(o.events));
    Associates(Kinds(c.realtime), Kinds(o.events), o.state.realtime);
    OnlyAnswers(o.events);
  }

  // Among realtime answers only, kinds and answers go in step.
  lemma {:induction false} AnswersAreOfKind(answers: seq<P.Event>)
    requires AllAnswers(answers)
    ensures |Kinds(answers)| == |answers| && forall i :: 0 <= i < |answers| ==> Kinds(answers)[i] == answers[i].kind
  {
    if answers != [] { AnswersAreOfKind(answers[1..]); }
  }

  lemma {:induction false} OnlyAnswers(events: seq<P.Event>)
    ensures AllAnswers(RealtimeIn(events))
  {
    if events != [] { OnlyAnswers(events[1..]); }
  }

  // --- The object -----------------------------------------------------------------

  class Backchannel {
    const parser: P.ResponseParser
    const nonce: Markers.Nonce
    var gshTokens: seq<Token>
    var queuedBytes: seq<byte>          // one entry per unconsumed queued answer
    var realtimeAnswers: seq<P.Event>
    var linkDown: bool
    ghost var earlier: seq<seq<byte>>
    ghost var current: seq<byte>

    ghost function Abstract(): Channel
      reads this, parser
    {
      Channel(parser.Abstract(), gshTokens, queuedBytes, realtimeAnswers, linkDown, earlier, current)
    }

    constructor (nonce: Markers.Nonce)
      ensures Abstract() == BEGUN && fresh(parser) && this.nonce == nonce
    {
      parser := new P.ResponseParser();
      this.nonce := nonce;
      gshTokens, queuedBytes, realtimeAnswers, linkDown, earlier, current := [], [], [], false, [], [];
    }

    // Nothing of an earlier job is left to be claimed.
    method BeginJobIo()
      modifies this, parser
      ensures Abstract() == BEGUN
    {
      parser.Reset();
      gshTokens, queuedBytes, realtimeAnswers, linkDown, earlier, current := [], [], [], false, [], [];
    }

    method ExpectRealtime(kind: P.DleEotKind)
      modifies parser
      ensures Abstract() == Expecting(old(Abstract()), [kind])
    {
      parser.ExpectRealtime(kind);
    }

    method ExpectQueued()
      modifies parser
      ensures Abstract() == ExpectingOne(old(Abstract()))
    {
      parser.ExpectQueued();
    }

    method ClearRealtime()
      modifies `realtimeAnswers, `earlier, `current, parser
      ensures Abstract() == Cleared(old(Abstract()))
    {
      realtimeAnswers := [];
      if |parser.realtime| > 0 {
        parser.Reset();
        earlier, current := earlier + [current], [];
      }
    }

    // Returns how many acknowledgements belonged to a foreign writer.
    method OnBytes(data: seq<byte>) returns (foreign: nat)
      modifies `gshTokens, `queuedBytes, `realtimeAnswers, `current, parser
      ensures Abstract() == Fed(nonce, old(Abstract()), data)
      ensures foreign == ForeignIn(nonce, P.FeedSpec(old(parser.Abstract()), data).events)
    {
      var events := parser.Feed(data);
      foreign := Classify(events);
      current := current + data;
    }

    // One parsed event; true when it acknowledges somebody else's token.
    method ClassifyOne(e: P.Event) returns (theirs: bool)
      modifies `gshTokens, `queuedBytes, `realtimeAnswers
      ensures gshTokens == old(gshTokens) + Ours(nonce, P.Acks([e]))
      ensures queuedBytes == old(queuedBytes) + QueuedIn([e])
      ensures realtimeAnswers == old(realtimeAnswers) + RealtimeIn([e])
      ensures theirs <==> e.GsHAck? && !Markers.IsOurs(nonce, e.token)
    {
      match e {
        case GsHAck(t) =>
          if !Markers.IsOurs(nonce, t) { return true; }
          gshTokens := gshTokens + [t];
        case QueuedStatus(v) => queuedBytes := queuedBytes + [v];
        case RealtimeStatus(_, _) => realtimeAnswers := realtimeAnswers + [e];
        case AsbStatus(_) =>
        case UnknownByte(_) =>
      }
      return false;
    }

    method Classify(events: seq<P.Event>) returns (foreign: nat)
      modifies `gshTokens, `queuedBytes, `realtimeAnswers
      ensures gshTokens == old(gshTokens) + Ours(nonce, P.Acks(events))
      ensures queuedBytes == old(queuedBytes) + QueuedIn(events)
      ensures realtimeAnswers == old(realtimeAnswers) + RealtimeIn(events)
      ensures foreign == ForeignIn(nonce, events)
    {
      foreign := 0;
      for i := 0 to |events|
        invariant gshTokens == old(gshTokens) + Ours(nonce, P.Acks(events[..i]))
        invariant queuedBytes == old(queuedBytes) + QueuedIn(events[..i])
        invariant realtimeAnswers == old(realtimeAnswers) + RealtimeIn(events[..i])
        invariant foreign == ForeignIn(nonce, events[..i])
      {
        OneMore(nonce, events, i);
        Associates(old(gshTokens), Ours(nonce, P.Acks(events[..i])), Ours(nonce, P.Acks([events[i]])));
        Associates(old(queuedBytes), QueuedIn(events[..i]), QueuedIn([events[i]]));
        Associates(old(realtimeAnswers), RealtimeIn(events[..i]), RealtimeIn([events[i]]));
        var theirs := ClassifyOne(events[i]);
        foreign := foreign + if theirs then 1 else 0;
      }
      assert events[..|events|] == events;
    }

    method Listen(chunks: seq<seq<byte>>, drops: bool)
      modifies this, parser
      ensures Abstract() == Heard(nonce, old(Abstract()), chunks, drops)
    {
      for i := 0 to |chunks|
        invariant Heard(nonce, Abstract(), chunks[i..], drops) == Heard(nonce, old(Abstract()), chunks, drops)
      {
        HeardStep(nonce, Abstract(), chunks[i..], drops);
        assert chunks[i..][1..] == chunks[i + 1..];
        var _ := OnBytes(chunks[i]);
      }
      HeardNothing(nonce, Abstract(), drops);
      assert chunks[|chunks|..] == [];
      linkDown := linkDown || drops;
    }

    // Signalled exactly when the token has been recorded by the end of the wait.
    method AwaitToken(token: Token, chunks: seq<seq<byte>>, drops: bool, stopping: bool) returns (outcome: WaitOutcome)
      modifies this, parser
      ensures Abstract() == Heard(nonce, old(Abstract()), chunks, drops)
      ensures outcome == TokenOutcome(Abstract(), token, stopping)
    {
      Listen(chunks, drops);
      if token in gshTokens { return Signalled; }
      if linkDown { return LinkDown; }
      if stopping { return Aborted; }
      return Timeout;
    }

    // Signalled exactly when an answer is there at the end of the wait, which then is taken.
    method AwaitQueued(chunks: seq<seq<byte>>, drops: bool, stopping: bool) returns (outcome: WaitOutcome)
      modifies this, parser
      ensures Abstract() == Claimed(Heard(nonce, old(Abstract()), chunks, drops))
      ensures outcome == QueuedOutcome(Heard(nonce, old(Abstract()), chunks, drops), stopping)
    {
      Listen(chunks, drops);
      if |queuedBytes| > 0 {
        queuedBytes := queuedBytes[1..];
        return Signalled;
      }
      if linkDown { return LinkDown; }
      if stopping { return Aborted; }
      return Timeout;
    }

    // The answers are all that were read since the last clearing, enough or not.
    method AwaitRealtime(count: nat, chunks: seq<seq<byte>>, drops: bool, stopping: bool)
      returns (outcome: WaitOutcome, answers: seq<P.Event>)
      modifies this, parser
      ensures Abstract() == Heard(nonce, old(Abstract()), chunks, drops)
      ensures answers == Abstract().realtime && outcome == Outcome(|answers| >= count, Abstract(), stopping)
    {
      Listen(chunks, drops);
      answers := realtimeAnswers;
      if |answers| >= count { return Signalled, answers; }
      if linkDown { return LinkDown, answers; }
      if stopping { return Aborted, answers; }
      return Timeout, answers;
    }
  }

  lemma {:induction false} ForeignConcat(nonce: Markers.Nonce, a: seq<P.Event>, b: seq<P.Event>)
    ensures ForeignIn(nonce, a + b) == ForeignIn(nonce, a) + ForeignIn(nonce, b)
  {
    if a == [] {
      assert a + b == b;
    } else {
      assert (a + b)[0] == a[0] && (a + b)[1..] == a[1..] + b;
      ForeignConcat(nonce, a[1..], b);
    }
  }

  lemma OneMore(nonce: Markers.Nonce, events: seq<P.Event>, i: nat)
    requires i < |events|
    ensures Ours(nonce, P.Acks(events[..i + 1])) == Ours(nonce, P.Acks(events[..i])) + Ours(nonce, P.Acks([events[i]]))
    ensures QueuedIn(events[..i + 1]) == QueuedIn(events[..i]) + QueuedIn([events[i]])
    ensures RealtimeIn(events[..i + 1]) == RealtimeIn(events[..i]) + RealtimeIn([events[i]])
    ensures ForeignIn(nonce, events[..i + 1])
            == ForeignIn(nonce, events[..i]) + if events[i].GsHAck? && !Markers.IsOurs(nonce, events[i].token) then 1 else 0
  {
    assert events[..i + 1] == events[..i] + [events[i]];
    assert [events[i]][1..] == [];
    P.AcksConcat(events[..i], [events[i]]);
    OursConcat(nonce, P.Acks(events[..i]), P.Acks([events[i]]));
    QueuedConcat(events[..i], [events[i]]);
    RealtimeConcat(events[..i], [events[i]]);
    ForeignConcat(nonce, events[..i], [events[i]]);
  }
}

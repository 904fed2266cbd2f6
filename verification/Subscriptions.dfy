// Replay and live delivery of a job's events (core/src/driver.cpp, PrintJob::subscribe and
// PrintJob::emit): the critical sections as methods, their interleavings as a step system.

module Subscriptions {
  import opened PrinterTypes
  import JobTraces

  type Event = JobTraces.Action

  datatype Subscriber = Subscriber(draining: bool, pending: seq<Event>)

  // --- The critical sections ------------------------------------------------------

  // What recording an event does to one subscriber.
  function Parked(s: Subscriber, e: Event): Subscriber {
    if s.draining then s.(pending := s.pending + [e]) else s
  }

  // The subscribers past their replay, among the first n.
  function LiveBelow(subscribers: seq<Subscriber>, n: nat): seq<nat>
    requires n <= |subscribers|
  {
    if n == 0 then []
    else LiveBelow(subscribers, n - 1) + (if subscribers[n - 1].draining then [] else [n - 1])
  }

  class PrintJob {
    var history: seq<Event>
    var subscribers: seq<Subscriber>

    constructor ()
      ensures history == [] && subscribers == []
    {
      history, subscribers := [], [];
    }

    // Registers a draining subscriber and takes the replay it must deliver first.
    method Subscribe() returns (index: nat, replay: seq<Event>)
      modifies this
      ensures history == old(history) && replay == history
      ensures index == |old(subscribers)| && subscribers == old(subscribers) + [Subscriber(true, [])]
    {
      replay := history;
      index := |subscribers|;
      subscribers := subscribers + [Subscriber(true, [])];
    }

    // Goes live only when nothing is parked; otherwise takes the whole backlog.
    method Drain(index: nat) returns (live: bool, parked: seq<Event>)
      requires index < |subscribers|
      modifies this
      ensures history == old(history) && parked == old(subscribers)[index].pending && live == (parked == [])
      ensures subscribers == old(subscribers)[index := if live then old(subscribers)[index].(draining := false)
                                                       else old(subscribers)[index].(pending := [])]
    {
      var s := subscribers[index];
      parked := s.pending;
      live := |s.pending| == 0;
      if live {
        subscribers := subscribers[index := s.(draining := false)];
      } else {
        subscribers := subscribers[index := s.(pending := [])];
      }
    }

    // Records the event, parks it for whoever is still draining, and returns the others.
    method Emit(event: Event) returns (live: seq<nat>)
      modifies this
      ensures history == old(history) + [event]
      ensures |subscribers| == |old(subscribers)|
      ensures forall i :: 0 <= i < |subscribers| ==> subscribers[i] == Parked(old(subscribers)[i], event)
      ensures live == LiveBelow(old(subscribers), |old(subscribers)|)
    {
      history := history + [event];
      live := [];
      for i := 0 to |subscribers|
        invariant |subscribers| == |old(subscribers)| && history == old(history) + [event]
        invariant forall j :: 0 <= j < i ==> subscribers[j] == Parked(old(subscribers)[j], event)
        invariant forall j :: i <= j < |subscribers| ==> subscribers[j] == old(subscribers)[j]
        invariant live == LiveBelow(old(subscribers), i)
      {
        var s := subscribers[i];
        if s.draining {
          subscribers := subscribers[i := s.(pending := s.pending + [event])];
        } else {
          live := live + [i];
        }
      }
    }
  }

  lemma {:induction false} LiveBelowIff(subscribers: seq<Subscriber>, n: nat, i: nat)
    requires n <= |subscribers|
    ensures i in LiveBelow(subscribers, n) <==> i < n && !subscribers[i].draining
  {
    if n > 0 { LiveBelowIff(subscribers, n - 1, i); }
  }

  lemma {:induction false} LiveBelowDistinct(subscribers: seq<Subscriber>, n: nat)
    requires n <= |subscribers|
    ensures Distinct(LiveBelow(subscribers, n))
  {
    if n > 0 {
      LiveBelowDistinct(subscribers, n - 1);
      LiveBelowIff(subscribers, n - 1, n - 1);
    }
  }

  predicate Distinct(s: seq<nat>) { forall i, j :: 0 <= i < j < |s| ==> s[i] != s[j] }

  // --- The interleavings ----------------------------------------------------------

  // A subscriber as the outside sees it: what its callback has been given, and the batch
  // (replay or backlog) its subscribing thread still has in hand.
  datatype Seat = Seat(subscriber: Subscriber, delivered: seq<Event>, batch: seq<Event>)

  // The one emitter is idle when `live` is empty; otherwise those subscribers still have
  // to be given `event`.
  datatype World = World(history: seq<Event>, seats: seq<Seat>, event: Event, live: seq<nat>)

  datatype Step =
    | Join                      // subscribe's first critical section
    | HandOver(i: nat)          // one callback from the batch in hand
    | Drain(i: nat)             // subscribe's loop, batch exhausted
    | Record(e: Event)          // emit's critical section
    | CallBack                  // one callback of the emitter

  function SubscribersOf(seats: seq<Seat>): seq<Subscriber> {
    seq(|seats|, i requires 0 <= i < |seats| => seats[i].subscriber)
  }

  predicate Enabled(w: World, step: Step) {
    match step
    case Join => true
    case HandOver(i) => i < |w.seats| && w.seats[i].batch != []
    case Drain(i) => i < |w.seats| && w.seats[i].batch == [] && w.seats[i].subscriber.draining
    case Record(_) => w.live == []
    case CallBack => w.live != [] && w.live[0] < |w.seats|
  }

  function Given(s: Seat, e: Event): Seat { s.(delivered := s.delivered + [e]) }

  function Drained(s: Seat): Seat {
    if s.subscriber.pending == [] then s.(subscriber := s.subscriber.(draining := false))
    else s.(subscriber := s.subscriber.(pending := []), batch := s.subscriber.pending)
  }

  function Next(w: World, step: Step): World
    requires Enabled(w, step)
  {
    match step
    case Join => w.(seats := w.seats + [Seat(Subscriber(true, []), [], w.history)])
    case HandOver(i) =>
      w.(seats := w.seats[i := Given(w.seats[i], w.seats[i].batch[0]).(batch := w.seats[i].batch[1..])])
    case Drain(i) => w.(seats := w.seats[i := Drained(w.seats[i])])
    case Record(e) =>
      World(w.history + [e],
            seq(|w.seats|, i requires 0 <= i < |w.seats| => w.seats[i].(subscriber := Parked(w.seats[i].subscriber, e))),
            e, LiveBelow(SubscribersOf(w.seats), |w.seats|))
    case CallBack => w.(seats := w.seats[w.live[0] := Given(w.seats[w.live[0]], w.event)], live := w.live[1..])
  }

  predicate Run(w: World, steps: seq<Step>)
    decreases |steps|
  {
    steps == [] || (Enabled(w, steps[0]) && Run(Next(w, steps[0]), steps[1..]))
  }

  function End(w: World, steps: seq<Step>): World
    requires Run(w, steps)
    decreases |steps|
  {
    if steps == [] then w else End(Next(w, steps[0]), steps[1..])
  }

  // --- Every event once, in order -------------------------------------------------

  // What the emitter still owes subscriber i.
  function InFlight(w: World, i: nat): seq<Event> { if i in w.live then [w.event] else [] }

  predicate Accounted(w: World, i: nat)
    requires i < |w.seats|
  {
    var s := w.seats[i];
    && s.delivered + s.batch + s.subscriber.pending + InFlight(w, i) == w.history
    && (!s.subscriber.draining ==> s.batch == [] && s.subscriber.pending == [])
    && (i in w.live ==> !s.subscriber.draining)
  }

  ghost predicate Inv(w: World) {
    && Distinct(w.live) && (forall i :: i in w.live ==> i < |w.seats|)
    && forall i :: 0 <= i < |w.seats| ==> Accounted(w, i)
  }

  lemma JoinKeepsInv(w: World)
    requires Inv(w)
    ensures Inv(Next(w, Join))
  {
    var v := Next(w, Join);
    forall i | 0 <= i < |v.seats| ensures Accounted(v, i) {
      if i < |w.seats| { assert Accounted(w, i); }
    }
  }

  lemma HandOverKeepsInv(w: World, k: nat)
    requires Inv(w) && Enabled(w, HandOver(k))
    ensures Inv(Next(w, HandOver(k)))
  {
    var v := Next(w, HandOver(k));
    forall i | 0 <= i < |v.seats| ensures Accounted(v, i) {
      assert Accounted(w, i);
      if i == k {
        var s := w.seats[k];
        assert s.delivered + s.batch == s.delivered + [s.batch[0]] + s.batch[1..];
      }
    }
  }

  lemma DrainKeepsInv(w: World, k: nat)
    requires Inv(w) && Enabled(w, Drain(k))
    ensures Inv(Next(w, Drain(k)))
  {
    var v := Next(w, Drain(k));
    forall i | 0 <= i < |v.seats| ensures Accounted(v, i) {
      assert Accounted(w, i);
      if i == k {
        var s := w.seats[k];
        assert s.delivered + s.batch + s.subscriber.pending == s.delivered + s.subscriber.pending + [];
      }
    }
  }

  lemma RecordKeepsInv(w: World, e: Event)
    requires Inv(w) && w.live == []
    ensures Inv(Next(w, Record(e)))
  {
    var v := Next(w, Record(e));
    var subscribers := SubscribersOf(w.seats);
    LiveBelowDistinct(subscribers, |subscribers|);
    forall i | i in v.live ensures i < |v.seats| { LiveBelowIff(subscribers, |subscribers|, i); }
    forall i | 0 <= i < |v.seats| ensures Accounted(v, i) {
      assert Accounted(w, i);
      LiveBelowIff(subscribers, |subscribers|, i);
      var s := w.seats[i];
      assert s.delivered + s.batch + s.subscriber.pending == w.history;
      if s.subscriber.draining {
        assert s.delivered + s.batch + (s.subscriber.pending + [e]) == w.history + [e];
      }
    }
  }

  lemma CallBackKeepsInv(w: World)
    requires Inv(w) && Enabled(w, CallBack)
    ensures Inv(Next(w, CallBack))
  {
    var v := Next(w, CallBack);
    var k := w.live[0];
    assert w.live == [k] + v.live;
    assert k !in v.live;
    forall i | i in v.live ensures i < |v.seats| { assert i in w.live; }
    forall i | 0 <= i < |v.seats| ensures Accounted(v, i) {
      assert Accounted(w, i);
      if i == k {
        var s := w.seats[k];
        assert s.delivered + [] + [] + [w.event] == s.delivered + [w.event] + [] + [] + [];
      }
    }
  }

  lemma StepKeepsInv(w: World, step: Step)
    requires Inv(w) && Enabled(w, step)
    ensures Inv(Next(w, step))
  {
    match step
    case Join => JoinKeepsInv(w);
    case HandOver(i) => HandOverKeepsInv(w, i);
    case Drain(i) => DrainKeepsInv(w, i);
    case Record(e) => RecordKeepsInv(w, e);
    case CallBack => CallBackKeepsInv(w);
  }

  lemma {:induction false} RunKeepsInv(w: World, steps: seq<Step>)
    requires Inv(w) && Run(w, steps)
    ensures Inv(End(w, steps))
    decreases |steps|
  {
    if steps != [] {
      StepKeepsInv(w, steps[0]);
      RunKeepsInv(Next(w, steps[0]), steps[1..]);
    }
  }

  // A job nobody has subscribed to yet, with any history.
  function Unwatched(history: seq<Event>, event: Event): World { World(history, [], event, []) }

  // In every interleaving, what a subscriber has been given is an initial part of the
  // history, and what it has not been given is still in hand, parked or in flight, in
  // order: no event is lost, repeated or overtaken across the switch to live.
  lemma EveryEventOnceInOrder(history: seq<Event>, event: Event, steps: seq<Step>, i: nat)
    requires Run(Unwatched(history, event), steps) && i < |End(Unwatched(history, event), steps).seats|
    ensures var w := End(Unwatched(history, event), steps);
            var s := w.seats[i];
            && s.delivered + s.batch + s.subscriber.pending + InFlight(w, i) == w.history
            && s.delivered <= w.history
            && (!s.subscriber.draining && w.live == [] ==> s.delivered == w.history)
  {
    RunKeepsInv(Unwatched(history, event), steps);
    var w := End(Unwatched(history, event), steps);
    assert Accounted(w, i);
    var s := w.seats[i];
    PrefixOfFour(s.delivered, s.batch, s.subscriber.pending, InFlight(w, i));
  }

  lemma PrefixOfFour(a: seq<Event>, b: seq<Event>, c: seq<Event>, d: seq<Event>)
    ensures a <= a + b + c + d
    ensures b == [] && c == [] && d == [] ==> a + b + c + d == a
  {
    assert a + b + c + d == a + (b + c + d);
  }

  // Nothing sticks: unless every subscriber is live with the whole history, some step
  // other than a new subscription or a new event is enabled.
  lemma DeliveryNeverSticks(history: seq<Event>, event: Event, steps: seq<Step>, i: nat)
    requires Run(Unwatched(history, event), steps) && i < |End(Unwatched(history, event), steps).seats|
    ensures var w := End(Unwatched(history, event), steps);
            (w.seats[i].delivered == w.history && !w.seats[i].subscriber.draining)
            || Enabled(w, CallBack) || Enabled(w, HandOver(i)) || Enabled(w, Drain(i))
  {
    EveryEventOnceInOrder(history, event, steps, i);
    RunKeepsInv(Unwatched(history, event), steps);
    var w := End(Unwatched(history, event), steps);
    if w.live != [] { assert w.live[0] in w.live; }
  }
}

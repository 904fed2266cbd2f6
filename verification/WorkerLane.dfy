// The worker lane of one printer (core/src/driver.cpp: push, pushPeripheral, workerLoop,
// drain, stop): the critical sections as methods, their interleavings as a step system with
// the waits and notifications of the condition variables made explicit.

module WorkerLanes {
  import opened PrinterTypes

  datatype Task = Job(id: nat) | Peripheral(id: nat)

  // What queue_mutex_ guards.
  datatype Lane = Lane(tasks: seq<Task>, active: bool, stopping: bool)

  function Pushed(l: Lane, t: Task): Lane { l.(tasks := l.tasks + [t]) }
  function PushedFront(l: Lane, t: Task): Lane { l.(tasks := [t] + l.tasks) }
  function Taken(l: Lane): Lane
    requires l.tasks != []
  {
    l.(tasks := l.tasks[1..], active := true)
  }
  function Finished(l: Lane): Lane { l.(active := false) }
  function Stopping(l: Lane): Lane { l.(stopping := true) }
  function Emptied(l: Lane): Lane { l.(tasks := []) }
  predicate Idle(l: Lane) { l.tasks == [] && !l.active }

  // The worker's wait ends on this.
  predicate WorkerMayGo(l: Lane) { l.stopping || l.tasks != [] }

  class LaneState {
    var tasks: seq<Task>
    var active: bool
    var stopping: bool

    function Abstract(): Lane
      reads this
    {
      Lane(tasks, active, stopping)
    }

    constructor ()
      ensures Abstract() == Lane([], false, false)
    {
      tasks, active, stopping := [], false, false;
    }

    method Push(t: Task)
      modifies this
      ensures Abstract() == Pushed(old(Abstract()), t)
    {
      tasks := tasks + [t];
    }

    method PushPeripheral(t: Task, ahead: bool)
      modifies this
      ensures Abstract() == if ahead then PushedFront(old(Abstract()), t) else Pushed(old(Abstract()), t)
    {
      if ahead { tasks := [t] + tasks; } else { tasks := tasks + [t]; }
    }

    // The worker's first critical section, once its wait has ended.
    method Take() returns (task: Option<Task>)
      requires WorkerMayGo(Abstract())
      modifies this
      ensures old(stopping) ==> task == None && Abstract() == old(Abstract())
      ensures !old(stopping) ==> task == Some(old(tasks)[0]) && Abstract() == Taken(old(Abstract()))
    {
      if stopping { return None; }
      task := Some(tasks[0]);
      tasks, active := tasks[1..], true;
    }

    method Finish()
      modifies this
      ensures Abstract() == Finished(old(Abstract()))
    {
      active := false;
    }

    method BeginStop()
      modifies this
      ensures Abstract() == Stopping(old(Abstract()))
    {
      stopping := true;
    }

    method TakeLeftovers() returns (leftovers: seq<Task>)
      modifies this
      ensures leftovers == old(tasks) && Abstract() == Emptied(old(Abstract()))
    {
      leftovers, tasks := tasks, [];
    }
  }

  // --- The interleavings ----------------------------------------------------------

  // Where the worker thread is: about to test its predicate, enrolled on the condition
  // variable, running, about to notify, or gone.
  datatype Worker = Testing | Asleep | Running(task: Task) | Notifying | Gone

  // Where the stopping thread is.
  datatype Stopper = NotStopped | Flagged | Published | Notified | Joined | Cancelling(left: seq<Task>) | Stopped

  datatype Drainer = Checking | Waiting | Returned

  // `owed` counts pushers between their push and their notify. The last four fields are
  // history: everything pushed in order, and where it went.
  datatype World = World(lane: Lane, worker: Worker, stopper: Stopper, drainers: seq<Drainer>, owed: nat,
                         pushed: seq<Task>, ran: seq<Task>, cancelled: seq<Task>)

  const START := World(Lane([], false, false), Testing, NotStopped, [], 0, [], [], [])

  datatype Step =
    | Push(task: Task, ahead: bool)
    | PushNotify
    | WorkerTests | WorkerWakes | WorkerFinishes | WorkerNotifies
    | StopFlags | StopPublishes | StopNotifies | StopJoins | StopSwaps | StopCancels | StopEnds
    | DrainBegins | DrainTests(k: nat) | DrainWakes(k: nat)

  predicate Enabled(w: World, s: Step) {
    match s
    case Push(t, ahead) => ahead ==> t.Peripheral?
    case PushNotify => w.owed > 0
    case WorkerTests => w.worker == Testing
    case WorkerWakes => w.worker == Asleep            // spurious
    case WorkerFinishes => w.worker.Running?
    case WorkerNotifies => w.worker == Notifying
    case StopFlags => w.stopper == NotStopped
    case StopPublishes => w.stopper == Flagged
    case StopNotifies => w.stopper == Published
    case StopJoins => w.stopper == Notified && w.worker == Gone
    case StopSwaps => w.stopper == Joined
    case StopCancels => w.stopper.Cancelling? && w.stopper.left != []
    case StopEnds => w.stopper == Cancelling([])
    case DrainBegins => true
    case DrainTests(k) => k < |w.drainers| && w.drainers[k] == Checking
    case DrainWakes(k) => k < |w.drainers| && w.drainers[k] == Waiting   // spurious
  }

  // notify_all on queue_cv_ and on idle_cv_.
  function WakeWorker(v: Worker): Worker { if v == Asleep then Testing else v }
  function WakeDrainers(d: seq<Drainer>): seq<Drainer> {
    seq(|d|, i requires 0 <= i < |d| => if d[i] == Waiting then Checking else d[i])
  }

  function AfterTest(w: World): World {
    if !WorkerMayGo(w.lane) then w.(worker := Asleep)
    else if w.lane.stopping then w.(worker := Gone)
    else w.(lane := Taken(w.lane), worker := Running(w.lane.tasks[0]))
  }

  function Next(w: World, s: Step): World
    requires Enabled(w, s)
  {
    match s
    case Push(t, ahead) =>
      w.(lane := if ahead then PushedFront(w.lane, t) else Pushed(w.lane, t), owed := w.owed + 1, pushed := w.pushed + [t])
    case PushNotify => w.(worker := WakeWorker(w.worker), owed := w.owed - 1)
    case WorkerTests => AfterTest(w)
    case WorkerWakes => w.(worker := Testing)
    case WorkerFinishes => w.(lane := Finished(w.lane), worker := Notifying, ran := w.ran + [w.worker.task])
    case WorkerNotifies => w.(worker := Testing, drainers := WakeDrainers(w.drainers))
    case StopFlags => w.(stopper := Flagged)
    case StopPublishes => w.(lane := Stopping(w.lane), stopper := Published)
    case StopNotifies => w.(worker := WakeWorker(w.worker), stopper := Notified)
    case StopJoins => w.(stopper := Joined)
    case StopSwaps => w.(lane := Emptied(w.lane), stopper := Cancelling(w.lane.tasks))
    case StopCancels => w.(stopper := Cancelling(w.stopper.left[1..]), cancelled := w.cancelled + [w.stopper.left[0]])
    case StopEnds => w.(stopper := Stopped, drainers := WakeDrainers(w.drainers))
    case DrainBegins => w.(drainers := w.drainers + [Checking])
    case DrainTests(k) =>
      w.(drainers := w.drainers[k := if w.stopper != NotStopped || Idle(w.lane) then Returned else Waiting])
    case DrainWakes(k) => w.(drainers := w.drainers[k := Checking])
  }

  predicate Run(w: World, steps: seq<Step>)
    decreases |steps|
  {
    steps == [] || (Enabled(w, steps[0]) && Run(Next(w, steps[0]), steps[1..]))
  }

  function End(w: World, steps: seq<Step>): World
    requires Run(w, steps)
    decreases |steps|
  {
    if steps == [] then w else End(Next(w, steps[0]), steps[1..])
  }

  // --- Order and conservation -----------------------------------------------------

  function Jobs(tasks: seq<Task>): seq<Task> {
    if tasks == [] then [] else (if tasks[0].Job? then [tasks[0]] else []) + Jobs(tasks[1..])
  }

  lemma {:induction false} JobsConcat(a: seq<Task>, b: seq<Task>)
    ensures Jobs(a + b) == Jobs(a) + Jobs(b)
    decreases |a|
  {
    if a == [] {
      assert a + b == b;
    } else {
      assert (a + b)[1..] == a[1..] + b;
      JobsConcat(a[1..], b);
    }
  }

  lemma JobsOfOne(t: Task)
    ensures Jobs([t]) == if t.Job? then [t] else []
  {
    assert [t][1..] == [];
  }

  function InHand(v: Worker): seq<Task> { if v.Running? then [v.task] else [] }
  function Left(s: Stopper): seq<Task> { if s.Cancelling? then s.left else [] }

  // Every task there is, in the order job tasks take: run, running, cancelled, about to be
  // cancelled, queued.
  function Everywhere(w: World): seq<Task> {
    w.ran + InHand(w.worker) + w.cancelled + Left(w.stopper) + w.lane.tasks
  }

  predicate StopIsPast(s: Stopper) { s == Joined || s.Cancelling? || s == Stopped }

  ghost predicate Conserved(everywhere: seq<Task>, pushed: seq<Task>) {
    multiset(everywhere) == multiset(pushed) && Jobs(everywhere) == Jobs(pushed)
  }

  predicate Shape(w: World) {
    && (w.lane.active <==> w.worker.Running?)
    && (w.lane.stopping <==> w.stopper != NotStopped && w.stopper != Flagged)
    && (StopIsPast(w.stopper) ==> w.worker == Gone)
    && (w.worker == Gone ==> w.lane.stopping)
    && (w.stopper.Cancelling? || w.stopper == Stopped || (w.cancelled == [] && Left(w.stopper) == []))
  }

  ghost predicate Inv(w: World) { Conserved(Everywhere(w), w.pushed) && Shape(w) }

  lemma PushConserves(out: seq<Task>, queue: seq<Task>, pushed: seq<Task>, t: Task)
    requires Conserved(out + queue, pushed)
    ensures Conserved(out + (queue + [t]), pushed + [t])
  {
    assert out + (queue + [t]) == (out + queue) + [t];
    JobsConcat(out + queue, [t]);
    JobsConcat(pushed, [t]);
  }

  // A peripheral at the front of the queue is behind no job task it matters to.
  lemma PushFrontConserves(out: seq<Task>, queue: seq<Task>, pushed: seq<Task>, t: Task)
    requires Conserved(out + queue, pushed) && !t.Job?
    ensures Conserved(out + ([t] + queue), pushed + [t])
  {
    JobsOfOne(t);
    JobsConcat(out, [t] + queue);
    JobsConcat([t], queue);
    JobsConcat(out, queue);
    JobsConcat(pushed, [t]);
    assert [] + Jobs(queue) == Jobs(queue) && Jobs(pushed) + [] == Jobs(pushed);
    FrontMultiset(out, queue, t);
  }

  lemma FrontMultiset(out: seq<Task>, queue: seq<Task>, t: Task)
    ensures multiset(out + ([t] + queue)) == multiset(out + queue) + multiset{t}
  {
  }

  function Out(w: World): seq<Task> { w.ran + InHand(w.worker) + w.cancelled + Left(w.stopper) }

  lemma PushKeepsInv(w: World, t: Task, ahead: bool)
    requires Inv(w) && Enabled(w, Push(t, ahead))
    ensures Inv(Next(w, Push(t, ahead)))
  {
    if ahead { PushFrontConserves(Out(w), w.lane.tasks, w.pushed, t); }
    else { PushConserves(Out(w), w.lane.tasks, w.pushed, t); }
  }

  lemma WorkerTestsMovesNothing(w: World)
    requires Shape(w) && Enabled(w, WorkerTests)
    ensures Everywhere(Next(w, WorkerTests)) == Everywhere(w)
  {
    var v := Next(w, WorkerTests);
    if v.worker.Running? {
      assert w.cancelled == [] && Left(w.stopper) == [];
      TakeMovesNothing(w.ran, w.lane.tasks);
    }
  }

  lemma TakeMovesNothing(ran: seq<Task>, queue: seq<Task>)
    requires queue != []
    ensures ran + [queue[0]] + [] + [] + queue[1..] == ran + [] + [] + [] + queue
  {
  }

  lemma CancelMovesNothing(out: seq<Task>, cancelled: seq<Task>, left: seq<Task>, queued: seq<Task>)
    requires left != []
    ensures out + (cancelled + [left[0]]) + left[1..] + queued == out + cancelled + left + queued
  {
    assert [left[0]] + left[1..] == left;
    assert out + (cancelled + [left[0]]) + left[1..] == out + cancelled + left;
  }

  lemma SwapMovesNothing(out: seq<Task>, queued: seq<Task>)
    ensures out + [] + queued == out + queued + []
  {
  }

  lemma OtherStepsMoveNothing(w: World, s: Step)
    requires Shape(w) && Enabled(w, s) && !s.Push? && s != WorkerTests
    ensures Everywhere(Next(w, s)) == Everywhere(w) && Next(w, s).pushed == w.pushed
  {
    match s
    case WorkerFinishes => FinishMovesNothing(w.ran, w.worker.task);
    case StopSwaps => SwapMovesNothing(w.ran + InHand(w.worker) + w.cancelled, w.lane.tasks);
    case StopCancels => CancelMovesNothing(w.ran + InHand(w.worker), w.cancelled, w.stopper.left, w.lane.tasks);
    case _ =>
  }

  lemma FinishMovesNothing(ran: seq<Task>, t: Task)
    ensures (ran + [t]) + [] == ran + [t]
  {
  }

  lemma ShapeStays(w: World, s: Step)
    requires Shape(w) && Enabled(w, s)
    ensures Shape(Next(w, s))
  {
  }

  lemma StepKeepsInv(w: World, s: Step)
    requires Inv(w) && Enabled(w, s)
    ensures Inv(Next(w, s))
  {
    ShapeStays(w, s);
    if s.Push? { PushKeepsInv(w, s.task, s.ahead); }
    else if s == WorkerTests { WorkerTestsMovesNothing(w); }
    else { OtherStepsMoveNothing(w, s); }
  }

  // --- Nobody sleeps through a notification ---------------------------------------

  // The stopping thread has been past notify_all on queue_cv_.
  predicate HasNotified(s: Stopper) { s == Notified || StopIsPast(s) }

  // A sleeping worker has nothing to do, or a notification is still to come; and stop's own
  // notification it has never slept through.
  predicate WorkerAwake(w: World) {
    w.worker == Asleep ==> (!WorkerMayGo(w.lane) || w.owed > 0 || w.stopper == Published) && !HasNotified(w.stopper)
  }

  // A drainer may wait while the lane is busy, or while a notification is still to come.
  predicate MayWait(w: World) {
    || (w.stopper == NotStopped && !Idle(w.lane))
    || w.worker == Notifying
    || (w.stopper != NotStopped && w.stopper != Stopped)
  }

  ghost predicate Awake(w: World) {
    WorkerAwake(w) && forall k :: 0 <= k < |w.drainers| && w.drainers[k] == Waiting ==> MayWait(w)
  }

  lemma WorkerStaysAwake(w: World, s: Step)
    requires Shape(w) && WorkerAwake(w) && Enabled(w, s)
    ensures WorkerAwake(Next(w, s))
  {
  }

  // A step that neither wakes the drainers nor is one of theirs lets them go on waiting.
  lemma WaitingStaysJustified(w: World, s: Step)
    requires Shape(w) && MayWait(w) && Enabled(w, s) && s != WorkerNotifies && s != StopEnds
    ensures MayWait(Next(w, s))
  {
  }

  lemma DrainersStayAwake(w: World, s: Step, k: nat)
    requires Shape(w) && Awake(w) && Enabled(w, s) && k < |Next(w, s).drainers| && Next(w, s).drainers[k] == Waiting
    ensures MayWait(Next(w, s))
  {
    if s != WorkerNotifies && s != StopEnds && k < |w.drainers| && w.drainers[k] == Waiting {
      WaitingStaysJustified(w, s);
    }
  }

  lemma StepKeepsAwake(w: World, s: Step)
    requires Shape(w) && Awake(w) && Enabled(w, s)
    ensures Awake(Next(w, s))
  {
    WorkerStaysAwake(w, s);
    forall k | 0 <= k < |Next(w, s).drainers| && Next(w, s).drainers[k] == Waiting ensures MayWait(Next(w, s)) {
      DrainersStayAwake(w, s, k);
    }
  }

  lemma {:induction false} RunKeepsInv(w: World, steps: seq<Step>)
    requires Inv(w) && Awake(w) && Run(w, steps)
    ensures Inv(End(w, steps)) && Awake(End(w, steps))
    decreases |steps|
  {
    if steps != [] {
      StepKeepsInv(w, steps[0]);
      StepKeepsAwake(w, steps[0]);
      RunKeepsInv(Next(w, steps[0]), steps[1..]);
    }
  }

  ghost predicate Reachable(w: World) { exists steps :: Run(START, steps) && End(START, steps) == w }

  lemma ReachableIsSound(w: World)
    requires Reachable(w)
    ensures Inv(w) && Awake(w)
  {
    var steps :| Run(START, steps) && End(START, steps) == w;
    RunKeepsInv(START, steps);
  }

  // Every task ever pushed is in exactly one place, and job tasks leave the queue in the
  // order they were pushed, one at a time, whatever peripherals jump ahead.
  lemma TasksAreConserved(w: World)
    requires Reachable(w)
    ensures multiset(w.pushed) == multiset(w.ran) + multiset(InHand(w.worker)) + multiset(w.cancelled)
                                  + multiset(Left(w.stopper)) + multiset(w.lane.tasks)
    ensures Jobs(w.ran) + Jobs(InHand(w.worker)) <= Jobs(w.pushed)
    ensures w.worker.Running? ==> w.lane.active && w.cancelled == []
  {
    ReachableIsSound(w);
    EverywhereCounts(w.ran, InHand(w.worker), w.cancelled, Left(w.stopper), w.lane.tasks);
  }

  lemma EverywhereCounts(ran: seq<Task>, hand: seq<Task>, cancelled: seq<Task>, left: seq<Task>, queued: seq<Task>)
    ensures multiset(ran + hand + cancelled + left + queued)
            == multiset(ran) + multiset(hand) + multiset(cancelled) + multiset(left) + multiset(queued)
    ensures Jobs(ran) + Jobs(hand) <= Jobs(ran + hand + cancelled + left + queued)
  {
    JobsConcat(ran + hand + cancelled + left, queued);
    JobsConcat(ran + hand + cancelled, left);
    JobsConcat(ran + hand, cancelled);
    JobsConcat(ran, hand);
  }

  // Once the stopping thread has notified, the worker is not asleep, whatever pushes are
  // under way; once it has finished, neither is any drainer.
  lemma StopReachesEverybody(w: World)
    requires Reachable(w)
    ensures w.lane.stopping && w.stopper != Published ==> w.worker != Asleep
    ensures w.stopper == Stopped ==> w.worker == Gone && forall k :: 0 <= k < |w.drainers| ==> w.drainers[k] != Waiting
  {
    ReachableIsSound(w);
  }

  // A drain waits only while there is something to wait for.
  lemma DrainWaitsForWork(w: World, k: nat)
    requires Reachable(w) && k < |w.drainers| && w.drainers[k] == Waiting && w.stopper == NotStopped && w.worker != Notifying
    ensures !Idle(w.lane)
  {
    ReachableIsSound(w);
  }

  // --- Stopping ends --------------------------------------------------------------

  // The steps that bring a stop to its end, each of the stopping thread or the worker.
  function StopSteps(w: World): set<Step> {
    match w.stopper
    case NotStopped => {}
    case Flagged => {StopPublishes}
    case Published => {StopNotifies}
    case Notified => {StopJoins, WorkerTests, WorkerFinishes, WorkerNotifies}
    case Joined => {StopSwaps}
    case Cancelling(_) => {StopCancels, StopEnds}
    case Stopped => {}
  }

  // Once stop was called one of these is always enabled until stop is over: the join needs
  // nobody but the worker it waits for.
  lemma StopNeverHangs(w: World) returns (s: Step)
    requires Reachable(w) && w.stopper != NotStopped && w.stopper != Stopped
    ensures s in StopSteps(w) && Enabled(w, s)
  {
    ReachableIsSound(w);
    match w.stopper
    case Flagged => s := StopPublishes;
    case Published => s := StopNotifies;
    case Joined => s := StopSwaps;
    case Cancelling(left) => s := if left == [] then StopEnds else StopCancels;
    case Notified =>
      match w.worker {
        case Gone => s := StopJoins;
        case Testing => s := WorkerTests;
        case Running(_) => s := WorkerFinishes;
        case Notifying => s := WorkerNotifies;
        case Asleep => assert false;
      }
  }

  // How far a stop has to go: its phases, what the worker has left to do before it is gone,
  // the leftovers still to cancel.
  function Phases(s: Stopper): nat {
    match s
    case NotStopped => 6
    case Flagged => 5
    case Published => 4
    case Notified => 3
    case Joined => 2
    case Cancelling(_) => 1
    case Stopped => 0
  }

  function WorkerToGo(w: World): nat {
    if w.stopper != Notified then 0
    else match w.worker
      case Running(_) => 3
      case Notifying => 2
      case Testing => 1
      case Asleep => 0
      case Gone => 0
  }

  predicate Nearer(v: World, w: World) {
    || Phases(v.stopper) < Phases(w.stopper)
    || (Phases(v.stopper) == Phases(w.stopper)
        && (WorkerToGo(v) < WorkerToGo(w) || (WorkerToGo(v) == WorkerToGo(w) && |Left(v.stopper)| < |Left(w.stopper)|)))
  }

  // Every stop step brings the end nearer, and one that is enabled stays so until it is.
  lemma StepBringsStopNearer(w: World, t: Step)
    requires Shape(w) && WorkerAwake(w) && w.stopper != NotStopped && Enabled(w, t)
    ensures t in StopSteps(w) ==> Nearer(Next(w, t), w)
    ensures var v := Next(w, t);
            !Nearer(v, w) ==>
              && !Nearer(w, v)
              && forall s :: s in StopSteps(w) && Enabled(w, s) ==> s in StopSteps(v) && Enabled(v, s)
  {
  }

  // An endless run.
  ghost predicate Trace(worlds: nat -> World, steps: nat -> Step) {
    && Reachable(worlds(0))
    && forall n: nat :: Enabled(worlds(n), steps(n)) && worlds(n + 1) == Next(worlds(n), steps(n))
  }

  ghost predicate EnabledFrom(worlds: nat -> World, n: nat, s: Step) {
    forall m: nat :: n <= m ==> Enabled(worlds(m), s)
  }

  ghost predicate TakenFrom(steps: nat -> Step, n: nat, s: Step) { exists m: nat :: n <= m && steps(m) == s }

  // Neither the worker nor the stopping thread is passed over for ever: tasks return, and
  // a step that stays possible is taken. Pushers and drainers may do as they please.
  ghost predicate Fair(worlds: nat -> World, steps: nat -> Step) {
    forall n: nat, s :: s in StopSteps(worlds(n)) && EnabledFrom(worlds, n, s) ==> TakenFrom(steps, n, s)
  }

  lemma {:induction false} OneStepMore(w: World, steps: seq<Step>, s: Step)
    requires Run(w, steps) && Enabled(End(w, steps), s)
    ensures Run(w, steps + [s]) && End(w, steps + [s]) == Next(End(w, steps), s)
    decreases |steps|
  {
    if steps == [] {
      assert steps + [s] == [s];
    } else {
      OneStepMore(Next(w, steps[0]), steps[1..], s);
      assert (steps + [s])[0] == steps[0] && (steps + [s])[1..] == steps[1..] + [s];
    }
  }

  lemma NextIsReachable(w: World, s: Step)
    requires Reachable(w) && Enabled(w, s)
    ensures Reachable(Next(w, s))
  {
    var steps :| Run(START, steps) && End(START, steps) == w;
    OneStepMore(START, steps, s);
  }

  lemma {:induction false} TraceIsReachable(worlds: nat -> World, steps: nat -> Step, n: nat)
    requires Trace(worlds, steps)
    ensures Reachable(worlds(n))
  {
    if n > 0 {
      TraceIsReachable(worlds, steps, n - 1);
      NextIsReachable(worlds(n - 1), steps(n - 1));
    }
  }

  predicate Called(w: World) { w.stopper != NotStopped }

  // As long as the end comes no nearer, an enabled stop step stays enabled.
  lemma {:induction false} NearerOrStillEnabled(worlds: nat -> World, steps: nat -> Step, n: nat, m: nat, s: Step)
    requires Trace(worlds, steps) && n <= m && Called(worlds(n))
    requires s in StopSteps(worlds(n)) && Enabled(worlds(n), s)
    ensures Called(worlds(m)) && !Nearer(worlds(n), worlds(m))
    ensures Nearer(worlds(m), worlds(n)) || (s in StopSteps(worlds(m)) && Enabled(worlds(m), s))
    decreases m - n
  {
    if n < m {
      NearerOrStillEnabled(worlds, steps, n, m - 1, s);
      TraceIsReachable(worlds, steps, m - 1);
      ReachableIsSound(worlds(m - 1));
      StepBringsStopNearer(worlds(m - 1), steps(m - 1));
    }
  }

  lemma StopAdvances(worlds: nat -> World, steps: nat -> Step, n: nat) returns (m: nat)
    requires Trace(worlds, steps) && Fair(worlds, steps) && Called(worlds(n)) && worlds(n).stopper != Stopped
    ensures n <= m && Nearer(worlds(m), worlds(n)) && Called(worlds(m))
  {
    TraceIsReachable(worlds, steps, n);
    var s := StopNeverHangs(worlds(n));
    if TakenFrom(steps, n, s) {
      var k: nat :| n <= k && steps(k) == s;
      NearerOrStillEnabled(worlds, steps, n, k, s);
      if Nearer(worlds(k), worlds(n)) { return k; }
      TraceIsReachable(worlds, steps, k);
      ReachableIsSound(worlds(k));
      StepBringsStopNearer(worlds(k), steps(k));
      m := k + 1;
    } else {
      m :| n <= m && !Enabled(worlds(m), s);
      NearerOrStillEnabled(worlds, steps, n, m, s);
    }
  }

  // A stop that was called ends, in every endless run that lets the worker finish its task
  // and passes neither thread over for ever -- however many pushes, drains and spurious
  // wake-ups come between.
  lemma {:induction false} StopEventuallyEnds(worlds: nat -> World, steps: nat -> Step, n: nat) returns (m: nat)
    requires Trace(worlds, steps) && Fair(worlds, steps) && Called(worlds(n))
    ensures n <= m && worlds(m).stopper == Stopped
    decreases Phases(worlds(n).stopper), WorkerToGo(worlds(n)), |Left(worlds(n).stopper)|
  {
    if worlds(n).stopper == Stopped { return n; }
    var k := StopAdvances(worlds, steps, n);
    m := StopEventuallyEnds(worlds, steps, k);
  }

  // Once stopping is published the worker takes no further task.
  lemma StoppingTakesNoTask(w: World)
    requires Reachable(w) && w.lane.stopping && Enabled(w, WorkerTests)
    ensures Next(w, WorkerTests).worker == Gone && Next(w, WorkerTests).lane == w.lane
  {
    ReachableIsSound(w);
  }
}

// The driver as a system: submissions, attempts, crashes and restarts over the text of the
// journal (core/src/driver.cpp, submit, runJob and the PrinterDriver constructor, over
// core/src/job_store.cpp). The link and the crash points are the adversary's.

module DriverRuns {
  import opened PrinterTypes
  import opened JournalText
  import opened JobStoreModel
  import opened JobTraces

  // An attempt this process knows as a live handle. Its payload is never empty: every
  // payload starts with the initialise command.
  datatype Attempt = Attempt(view: View, size: nat, ceiling: ConfidenceLevel)

  // `paper` counts the payload bytes the link accepted for an attempt, `reprinted` the
  // keys for which a reprint was forced; neither is known to the driver.
  datatype World = World(journal: string, index: map<string, string>, live: map<string, Attempt>,
                         paper: map<string, nat>, reprinted: set<string>)

  const START_WORLD := World([], map[], map[], map[], {})

  // A crash may cut the append in progress after any number of characters.
  datatype Event =
    | Submit(record: JobRecord, size: nat, ceiling: ConfidenceLevel, reprint: bool, now: uint64)
    | Act(id: string, action: Action, now: uint64)
    | Restart(now: uint64)
    | CrashInSubmit(record: JobRecord, reprint: bool, at: uint64, cut: nat, now: uint64)
    | CrashInAct(id: string, action: Action, at: uint64, cut: nat, now: uint64)

  function Bytes(w: World, id: string): nat { BytesOf(w.paper, id) }

  function TokenText(t: seq<byte>): string { seq(|t|, i requires 0 <= i < |t| => t[i] as char) }

  predicate IsJournaled(a: Action) { !a.Took? }

  function Paper(a: Action): nat { if IsPaper(a) then |a.bytes| else 0 }

  // The journal record of one action of an attempt.
  function EntryOf(id: string, a: Action, now: uint64): Entry
    requires IsJournaled(a)
  {
    match a
    case Record(s, c, r, e) => StateLineEntry(id, s, c, r, now, e)
    case Tokens(p) => TokenLineEntry(id, TokenText(p.printToken), TokenText(p.cutToken))
  }

  // What submit does with a key: a new attempt, or the job already known under it.
  predicate Admits(w: World, key: string, reprint: bool) {
    key !in w.index || reprint || StateOf(w, w.index[key]) == Some(FailedKnown)
  }

  // The state a handle reports: live, or as the journal was reloaded.
  function StateOf(w: World, id: string): Option<JobState> {
    if id in w.live then Some(w.live[id].view.state)
    else if id in Rebuild(w.journal).byId then Some(Rebuild(w.journal).byId[id].state)
    else None
  }

  // A fresh id and a non-empty key are the driver's own doing.
  predicate MaySubmit(w: World, record: JobRecord, reprint: bool) {
    record.key != [] && record.id !in Rebuild(w.journal).byId && Admits(w, record.key, reprint)
  }

  predicate MayAct(w: World, id: string, a: Action) {
    id in w.live && Legal(w.live[id].size, w.live[id].ceiling, w.live[id].view, a)
  }

  predicate Possible(w: World, e: Event) {
    match e
    case Submit(record, size, _, reprint, _) => size > 0 && MaySubmit(w, record, reprint)
    case Act(id, action, _) => MayAct(w, id, action)
    case Restart(_) => true
    case CrashInSubmit(record, reprint, at, cut, _) =>
      MaySubmit(w, record, reprint) && cut <= |SubmitText(Created(record, at))| - 1
    case CrashInAct(id, action, at, cut, _) =>
      MayAct(w, id, action) && IsJournaled(action) && cut <= |LineOf(EntryOf(id, action, at))|
  }

  function SubmitText(r: JobRecord): string {
    RecordText(JobLineEntry(r)) + RecordText(StateEntryOf(r))
  }

  function Reprints(w: World, key: string, reprint: bool): set<string> {
    if reprint then w.reprinted + {key} else w.reprinted
  }

  // A new process over whatever text the last one left.
  function Reopen(w: World, text: string, now: uint64): World {
    RestartIsAFixpoint(text, now, now);
    var s := Recover(Rebuild(text), now);
    w.(journal := CompactText(s), index := s.idByKey, live := map[])
  }

  function Moved(a: Attempt, action: Action): Attempt { a.(view := JobTraces.Next(a.view, action)) }

  // A transition of a live handle, and bytes the link took for it.
  function Advanced(w: World, id: string, a: Action): World
    requires id in w.live
  {
    w.(live := w.live[id := Moved(w.live[id], a)])
  }

  function Taken(w: World, id: string, a: Action): World
    requires id in w.live && a.Took?
  {
    Advanced(w, id, a).(paper := w.paper[id := Bytes(w, id) + Paper(a)])
  }

  function After(w: World, e: Event): World
    requires Possible(w, e)
  {
    match e
    case Submit(record, size, ceiling, reprint, now) =>
      var r := Created(record, now);
      w.(journal := w.journal + SubmitText(r), index := w.index[r.key := r.id],
         live := w.live[r.id := Attempt(START, size, ceiling)], paper := w.paper[r.id := 0],
         reprinted := Reprints(w, r.key, reprint))
    case Act(id, action, now) =>
      if action.Took? then Taken(w, id, action)
      else Advanced(w, id, action).(journal := w.journal + RecordText(EntryOf(id, action, now)))
    case Restart(now) => Reopen(w, w.journal, now)
    case CrashInSubmit(record, reprint, at, cut, now) =>
      Reopen(w.(paper := w.paper[record.id := 0], reprinted := Reprints(w, record.key, reprint)), w.journal + SubmitText(Created(record, at))[..cut], now)
    case CrashInAct(id, action, at, cut, now) =>
      Reopen(w, w.journal + LineOf(EntryOf(id, action, at))[..cut], now)
  }

  predicate Run(w: World, events: seq<Event>)
    decreases |events|
  {
    events == [] || (Possible(w, events[0]) && Run(After(w, events[0]), events[1..]))
  }

  function End(w: World, events: seq<Event>): World
    requires Run(w, events)
    decreases |events|
  {
    if events == [] then w else End(After(w, events[0]), events[1..])
  }

  // --- The invariant, over the store the journal rebuilds -------------------------

  // A finished record tells the truth about paper as far as it can.
  predicate Settled(r: JobRecord, bytes: nat) {
    && IsTerminal(r.state)
    && (r.state == FailedKnown ==> (bytes > 0 <==> r.reason == CutterFault))
  }

  predicate Tracks(r: JobRecord, a: Attempt, bytes: nat) {
    a.size > 0 && Honest(a.size, a.view) && r.state == a.view.state && r.reason == a.view.reason && a.view.accepted == bytes
  }

  predicate Fits(r: JobRecord, live: map<string, Attempt>, id: string, bytes: nat) {
    r.key != [] && if id in live then Tracks(r, live[id], bytes) else Settled(r, bytes)
  }

  function BytesOf(paper: map<string, nat>, id: string): nat { if id in paper then paper[id] else 0 }

  ghost predicate AllFit(byId: map<string, JobRecord>, live: map<string, Attempt>, paper: map<string, nat>) {
    && (forall id :: id in byId ==> Fits(byId[id], live, id, BytesOf(paper, id)))
    && (forall id :: id in live ==> id in byId)
    && (forall id :: id in paper && paper[id] > 0 ==> id in byId)
  }

  // Of a key never force-reprinted, every attempt but the last is a known failure.
  predicate Superseded(earlier: JobRecord, later: JobRecord, reprinted: set<string>) {
    earlier.key == later.key && earlier.key !in reprinted ==> earlier.state == FailedKnown
  }

  ghost predicate Chained(order: seq<string>, byId: map<string, JobRecord>, reprinted: set<string>)
    requires forall id :: id in order ==> id in byId
  {
    forall i, j :: 0 <= i < j < |order| ==> Superseded(byId[order[i]], byId[order[j]], reprinted)
  }

  ghost predicate Sound(s: Store, w: World) {
    && WellFormed(s)
    && w.index == s.idByKey
    && AllFit(s.byId, w.live, w.paper)
    && Chained(s.order, s.byId, w.reprinted)
  }

  ghost predicate Inv(w: World) { Complete(w.journal) && Sound(Rebuild(w.journal), w) }

  lemma UpdateKeepsFit(byId: map<string, JobRecord>, live: map<string, Attempt>, paper: map<string, nat>,
                       id: string, r: JobRecord, a: Attempt, bytes: nat)
    requires AllFit(byId, live, paper) && id in byId && id in live && r.key == byId[id].key && Tracks(r, a, bytes)
    ensures AllFit(byId[id := r], live[id := a], paper[id := bytes])
    ensures bytes == BytesOf(paper, id) ==> AllFit(byId[id := r], live[id := a], paper)
  {
  }

  lemma UpdateKeepsChain(order: seq<string>, byId: map<string, JobRecord>, reprinted: set<string>, id: string, r: JobRecord)
    requires forall x :: x in order ==> x in byId
    requires Chained(order, byId, reprinted) && id in byId && r.key == byId[id].key
    requires byId[id].state == FailedKnown ==> r.state == FailedKnown
    ensures Chained(order, byId[id := r], reprinted)
  {
    forall i, j | 0 <= i < j < |order| ensures Superseded(byId[id := r][order[i]], byId[id := r][order[j]], reprinted) {
      assert Superseded(byId[order[i]], byId[order[j]], reprinted);
    }
  }

  // Changing a live attempt's record without its key keeps everything else.
  lemma UpdateKeepsSound(s: Store, w: World, id: string, r: JobRecord, a: Attempt, bytes: nat)
    requires Sound(s, w) && id in s.byId && id in w.live
    requires r.id == id && r.key == s.byId[id].key
    requires s.byId[id].state == FailedKnown ==> r.state == FailedKnown
    requires Tracks(r, a, bytes)
    ensures Sound(s.(byId := s.byId[id := r]), w.(live := w.live[id := a], paper := w.paper[id := bytes]))
    ensures bytes == Bytes(w, id) ==> Sound(s.(byId := s.byId[id := r]), w.(live := w.live[id := a]))
  {
    UpdateKeepsWellFormed(s, id, r);
    UpdateKeepsFit(s.byId, w.live, w.paper, id, r, a, bytes);
    UpdateKeepsChain(s.order, s.byId, w.reprinted, id, r);
  }

  // A legal action and any record of it, cut short or not, keep the invariant.
  lemma ActKeepsSound(s: Store, w: World, id: string, a: Action, now: uint64, written: Entry)
    requires Sound(s, w) && MayAct(w, id, a) && IsJournaled(a) && TornEntry(EntryOf(id, a, now), written)
    ensures Sound(Apply(s, written), Advanced(w, id, a))
  {
    var at := w.live[id];
    assert Fits(s.byId[id], w.live, id, Bytes(w, id));
    HonestStays(at.size, at.ceiling, at.view, a);
    UpdateKeepsSound(s, w, id, Apply(s, written).byId[id], Moved(at, a), Bytes(w, id));
  }

  lemma SameEntry<K, V>(m: map<K, V>, k: K)
    requires k in m
    ensures m[k := m[k]] == m
  {
  }

  lemma AcceptKeepsSound(s: Store, w: World, id: string, a: Action)
    requires Sound(s, w) && MayAct(w, id, a) && a.Took?
    ensures Sound(s, Taken(w, id, a))
  {
    var at, r := w.live[id], s.byId[id];
    assert Fits(r, w.live, id, Bytes(w, id));
    HonestStays(at.size, at.ceiling, at.view, a);
    UpdateKeepsFit(s.byId, w.live, w.paper, id, r, Moved(at, a), Bytes(w, id) + Paper(a));
    SameEntry(s.byId, id);
  }

  // A key admitted without a reprint has only known failures behind it.
  lemma AdmittedKeyHasFailed(s: Store, w: World, key: string, i: nat)
    requires Sound(s, w) && key != [] && i < |s.order| && s.order[i] in s.byId && s.byId[s.order[i]].key == key
    requires key !in w.reprinted
    requires key in w.index && w.index[key] in s.byId ==> s.byId[w.index[key]].state == FailedKnown
    ensures s.byId[s.order[i]].state == FailedKnown
  {
    KeyIndexFinds(s.order, s.byId, key);
    var k :| 0 <= k < |s.order| && s.order[k] == w.index[key] && LastOfKey(s.order, s.byId, key, k);
    if i < k { assert Superseded(s.byId[s.order[i]], s.byId[s.order[k]], w.reprinted); }
  }

  // The world right after a job is created.
  function Admitted(w: World, r: JobRecord, size: nat, ceiling: ConfidenceLevel, reprint: bool): World {
    w.(index := w.index[r.key := r.id], live := w.live[r.id := Attempt(START, size, ceiling)],
       paper := w.paper[r.id := 0], reprinted := Reprints(w, r.key, reprint))
  }

  lemma NewJobKeepsFit(byId: map<string, JobRecord>, live: map<string, Attempt>, paper: map<string, nat>, r: JobRecord, a: Attempt)
    requires AllFit(byId, live, paper) && r.id !in byId && r.key != [] && Tracks(r, a, 0)
    ensures AllFit(byId[r.id := r], live[r.id := a], paper[r.id := 0])
  {
  }

  lemma NewJobKeepsChain(order: seq<string>, byId: map<string, JobRecord>, reprinted: set<string>, r: JobRecord)
    requires (forall x :: x in order ==> x in byId) && r.id !in byId && Chained(order, byId, reprinted)
    requires forall i :: 0 <= i < |order| ==> Superseded(byId[order[i]], r, reprinted)
    ensures Chained(order + [r.id], byId[r.id := r], reprinted)
  {
    forall i, j | 0 <= i < j < |order + [r.id]|
      ensures Superseded(byId[r.id := r][(order + [r.id])[i]], byId[r.id := r][(order + [r.id])[j]], reprinted)
    {
      assert order[i] in byId;
      if j < |order| { assert order[j] in byId && Superseded(byId[order[i]], byId[order[j]], reprinted); }
      else { assert Superseded(byId[order[i]], r, reprinted); }
    }
  }

  lemma ReprintKeepsChain(order: seq<string>, byId: map<string, JobRecord>, few: set<string>, many: set<string>)
    requires (forall x :: x in order ==> x in byId) && few <= many && Chained(order, byId, few)
    ensures Chained(order, byId, many)
  {
    forall i, j | 0 <= i < j < |order| ensures Superseded(byId[order[i]], byId[order[j]], many) {
      assert Superseded(byId[order[i]], byId[order[j]], few);
    }
  }

  lemma SubmitKeepsSound(s: Store, w: World, r: JobRecord, size: nat, ceiling: ConfidenceLevel, reprint: bool)
    requires Sound(s, w) && size > 0 && r.key != [] && r.id !in s.byId && Bytes(w, r.id) == 0
    requires r.state == Queued && r.reason == NoReason
    requires reprint || (r.key in w.index && w.index[r.key] in s.byId ==> s.byId[w.index[r.key]].state == FailedKnown)
    ensures Sound(Apply(s, JobLineEntry(r)), Admitted(w, r, size, ceiling, reprint))
  {
    var reprinted := Reprints(w, r.key, reprint);
    NewJobKeepsWellFormed(s, r);
    NewJobKeepsFit(s.byId, w.live, w.paper, r, Attempt(START, size, ceiling));
    ReprintKeepsChain(s.order, s.byId, w.reprinted, reprinted);
    NewJobSupersedes(s, w, r, reprint);
    NewJobKeepsChain(s.order, s.byId, reprinted, r);
  }

  lemma NewJobSupersedes(s: Store, w: World, r: JobRecord, reprint: bool)
    requires Sound(s, w) && r.key != []
    requires reprint || (r.key in w.index && w.index[r.key] in s.byId ==> s.byId[w.index[r.key]].state == FailedKnown)
    ensures forall i :: 0 <= i < |s.order| ==> s.order[i] in s.byId && Superseded(s.byId[s.order[i]], r, Reprints(w, r.key, reprint))
  {
    forall i | 0 <= i < |s.order|
      ensures s.order[i] in s.byId && Superseded(s.byId[s.order[i]], r, Reprints(w, r.key, reprint))
    {
      assert s.order[i] in s.byId;
      if !reprint && r.key !in w.reprinted && s.byId[s.order[i]].key == r.key { AdmittedKeyHasFailed(s, w, r.key, i); }
    }
  }

  // A later record of the same job that changes nothing decisive.
  lemma RewriteKeepsSound(s: Store, w: World, id: string, written: Entry)
    requires Sound(s, w) && id in w.live && written.StateLineEntry? && written.id == id
    requires id in s.byId && written.state == s.byId[id].state && written.reason == s.byId[id].reason
    ensures Sound(Apply(s, written), w)
  {
    assert Fits(s.byId[id], w.live, id, Bytes(w, id));
    UpdateKeepsSound(s, w, id, WithState(s.byId[id], written), w.live[id], Bytes(w, id));
    SameEntry(w.live, id);
  }

  function Recovered(r: JobRecord, now: uint64): JobRecord { RecoverRecord(r, now).(recovered := false) }

  // Recovery settles every attempt that was live, and leaves the settled ones alone.
  lemma RecoveryFits(r: JobRecord, live: map<string, Attempt>, id: string, bytes: nat, now: uint64)
    requires Fits(r, live, id, bytes)
    ensures Fits(Recovered(r, now), map[], id, bytes)
    ensures Recovered(r, now).key == r.key && (r.state == FailedKnown ==> Recovered(r, now).state == FailedKnown)
  {
  }

  lemma RecoverKeepsFit(byId: map<string, JobRecord>, live: map<string, Attempt>, paper: map<string, nat>,
                        after: map<string, JobRecord>, now: uint64)
    requires AllFit(byId, live, paper) && after.Keys == byId.Keys && forall id :: id in byId ==> after[id] == Recovered(byId[id], now)
    ensures AllFit(after, map[], paper)
  {
    forall id | id in after ensures Fits(after[id], map[], id, BytesOf(paper, id)) {
      assert Fits(byId[id], live, id, BytesOf(paper, id));
      RecoveryFits(byId[id], live, id, BytesOf(paper, id), now);
    }
  }

  lemma RecoverKeepsChain(order: seq<string>, byId: map<string, JobRecord>, reprinted: set<string>,
                          after: map<string, JobRecord>, now: uint64)
    requires after.Keys == byId.Keys && forall id :: id in byId ==> after[id] == Recovered(byId[id], now)
    requires (forall x :: x in order ==> x in byId) && Chained(order, byId, reprinted)
    ensures Chained(order, after, reprinted)
  {
    forall i, j | 0 <= i < j < |order| ensures Superseded(after[order[i]], after[order[j]], reprinted) {
      assert Superseded(byId[order[i]], byId[order[j]], reprinted);
    }
  }

  lemma RecoveredStore(s: Store, now: uint64)
    requires WellFormed(s)
    ensures var t := Persisted(Recover(s, now));
            && t.order == s.order && t.idByKey == s.idByKey && t.byId.Keys == s.byId.Keys && WellFormed(t)
            && forall id :: id in s.byId ==> t.byId[id] == Recovered(s.byId[id], now)
  {
    var first := Recover(s, now);
    RecoverKeepsWellFormed(s, now);
    KeyIndexDependsOnKeys(s.order, first.byId, Persisted(first).byId);
  }

  lemma RecoverKeepsSound(s: Store, w: World, now: uint64)
    requires Sound(s, w)
    ensures Sound(Persisted(Recover(s, now)), w.(live := map[]))
  {
    RecoveredStore(s, now);
    var after := Persisted(Recover(s, now)).byId;
    RecoverKeepsFit(s.byId, w.live, w.paper, after, now);
    RecoverKeepsChain(s.order, s.byId, w.reprinted, after, now);
  }

  lemma SoundReads(s: Store, w: World, v: World)
    requires Sound(s, w) && v.index == w.index && v.live == w.live && v.paper == w.paper && v.reprinted == w.reprinted
    ensures Sound(s, v)
  {
  }

  // Opening any text that rebuilds a sound store.
  lemma ReopenKeepsInv(w: World, now: uint64, text: string, was: World)
    requires Sound(Rebuild(text), was)
    requires was.paper == w.paper && was.reprinted == w.reprinted
    ensures Inv(Reopen(w, text, now))
  {
    RestartIsAFixpoint(text, now, now);
    var first := Recover(Rebuild(text), now);
    RecoverKeepsSound(Rebuild(text), was, now);
    TextIsComplete(CompactEntries(first.order, first.byId));
    SoundReads(Persisted(first), was.(live := map[]), Reopen(w, text, now));
  }

  // --- Every event keeps the invariant --------------------------------------------

  lemma GuardReadsTheJournal(w: World, record: JobRecord, reprint: bool)
    requires Inv(w) && MaySubmit(w, record, reprint)
    ensures var s := Rebuild(w.journal);
            reprint || (record.key in w.index && w.index[record.key] in s.byId ==> s.byId[w.index[record.key]].state == FailedKnown)
  {
    var s := Rebuild(w.journal);
    if record.key in w.index && w.index[record.key] in s.byId {
      var id := w.index[record.key];
      assert Fits(s.byId[id], w.live, id, Bytes(w, id));
    }
  }

  lemma SubmitKeepsInv(w: World, record: JobRecord, size: nat, ceiling: ConfidenceLevel, reprint: bool, now: uint64)
    requires Inv(w) && size > 0 && MaySubmit(w, record, reprint)
    ensures Inv(After(w, Submit(record, size, ceiling, reprint, now)))
  {
    var s := Rebuild(w.journal);
    var r := Created(record, now);
    var job := AsWritten(JobLineEntry(r));
    GuardReadsTheJournal(w, record, reprint);
    AppendTwo(w.journal, JobLineEntry(r), StateEntryOf(r));
    SubmitKeepsSound(s, w, job.record, size, ceiling, reprint);
    RewriteKeepsSound(Apply(s, job), Admitted(w, job.record, size, ceiling, reprint), r.id, StateEntryOf(r));
    SoundReads(Apply(Apply(s, job), StateEntryOf(r)), Admitted(w, job.record, size, ceiling, reprint),
               After(w, Submit(record, size, ceiling, reprint, now)));
  }

  lemma AcceptKeepsInv(w: World, id: string, a: Action, now: uint64)
    requires Inv(w) && MayAct(w, id, a) && a.Took?
    ensures Inv(After(w, Act(id, a, now)))
  {
    var s := Rebuild(w.journal);
    AcceptKeepsSound(s, w, id, a);
    assert After(w, Act(id, a, now)) == Taken(w, id, a);
  }

  lemma JournaledActKeepsInv(w: World, id: string, a: Action, now: uint64)
    requires Inv(w) && MayAct(w, id, a) && IsJournaled(a)
    ensures Inv(After(w, Act(id, a, now)))
  {
    var s := Rebuild(w.journal);
    var e := EntryOf(id, a, now);
    AppendRecord(w.journal, e);
    ActKeepsSound(s, w, id, a, now, e);
    SoundReads(Apply(s, e), Advanced(w, id, a), After(w, Act(id, a, now)));
  }

  // A crash while an action is being journaled: the action happened, or it did not.
  lemma CrashInActKeepsInv(w: World, id: string, a: Action, at: uint64, cut: nat, now: uint64)
    requires Inv(w) && Possible(w, CrashInAct(id, a, at, cut, now))
    ensures Inv(After(w, CrashInAct(id, a, at, cut, now)))
  {
    var s := Rebuild(w.journal);
    var e := EntryOf(id, a, at);
    var text := w.journal + LineOf(e)[..cut];
    TornAppend(w.journal, e, cut);
    if Rebuild(text) == s {
      ReopenKeepsInv(w, now, text, w);
    } else {
      var torn :| TornEntry(e, torn) && Rebuild(text) == Apply(s, torn);
      ActKeepsSound(s, w, id, a, at, torn);
      ReopenKeepsInv(w, now, text, Advanced(w, id, a));
    }
  }

  // Naming a fresh id without paper changes nothing.
  lemma FreshIdKeepsSound(s: Store, w: World, record: JobRecord, reprint: bool)
    requires Sound(s, w) && record.id !in s.byId
    ensures Sound(s, w.(paper := w.paper[record.id := 0], reprinted := Reprints(w, record.key, reprint)))
  {
    ReprintKeepsChain(s.order, s.byId, w.reprinted, Reprints(w, record.key, reprint));
    var paper := w.paper[record.id := 0];
    forall x | x in s.byId ensures Fits(s.byId[x], w.live, x, BytesOf(paper, x)) {
      assert Fits(s.byId[x], w.live, x, BytesOf(w.paper, x));
    }
  }

  // What a crash while a job is being created leaves: no job, a job line alone, or the job.
  lemma TornJobRecord(w: World, record: JobRecord, reprint: bool, at: uint64, after: Store) returns (was: World)
    requires Inv(w) && MaySubmit(w, record, reprint)
    requires TornResult(Rebuild(w.journal), JobLineEntry(Created(record, at)), after)
    ensures Sound(after, was)
    ensures was.paper == w.paper[record.id := 0] && was.reprinted == Reprints(w, record.key, reprint)
  {
    var s := Rebuild(w.journal);
    if after == s {
      FreshIdKeepsSound(s, w, record, reprint);
      was := w.(paper := w.paper[record.id := 0], reprinted := Reprints(w, record.key, reprint));
    } else {
      GuardReadsTheJournal(w, record, reprint);
      var torn :| TornEntry(JobLineEntry(Created(record, at)), torn) && after == Apply(s, torn);
      was := TornJobIsSound(s, w, record, Created(record, at), torn.record, reprint);
      assert torn == JobLineEntry(torn.record);
    }
  }

  lemma TornQueuedRecord(w: World, record: JobRecord, reprint: bool, at: uint64, after: Store) returns (was: World)
    requires Inv(w) && MaySubmit(w, record, reprint)
    requires TornResult(Apply(Rebuild(w.journal), AsWritten(JobLineEntry(Created(record, at)))), StateEntryOf(Created(record, at)), after)
    ensures Sound(after, was)
    ensures was.paper == w.paper[record.id := 0] && was.reprinted == Reprints(w, record.key, reprint)
  {
    var s, r := Rebuild(w.journal), Created(record, at);
    var written := AsWritten(JobLineEntry(r));
    GuardReadsTheJournal(w, record, reprint);
    was := TornJobIsSound(s, w, record, r, written.record, reprint);
    var created := Apply(s, written);
    if after != created {
      var torn :| TornEntry(StateEntryOf(r), torn) && after == Apply(created, torn);
      RewriteKeepsSound(created, was, r.id, torn);
    }
  }

  lemma TornJobIsSound(s: Store, w: World, record: JobRecord, r: JobRecord, written: JobRecord, reprint: bool) returns (was: World)
    requires Sound(s, w) && record.key != [] && record.id !in s.byId && r.id == record.id && r.key == record.key
    requires reprint || (record.key in w.index && w.index[record.key] in s.byId ==> s.byId[w.index[record.key]].state == FailedKnown)
    requires written == FreshRecord(r.id, r.key, r.printerId, r.createdMs, r.attempt, r.kind, written.payloadBytes,
                                    written.printToken, written.cutToken)
    ensures Sound(Apply(s, JobLineEntry(written)), was) && record.id in was.live
    ensures record.id in Apply(s, JobLineEntry(written)).byId
    ensures Apply(s, JobLineEntry(written)).byId[record.id] == written
    ensures was.paper == w.paper[record.id := 0] && was.reprinted == Reprints(w, record.key, reprint)
  {
    SubmitKeepsSound(s, w, written, 1, TransportAccepted, reprint);
    was := Admitted(w, written, 1, TransportAccepted, reprint);
  }

  lemma CrashInSubmitKeepsInv(w: World, record: JobRecord, reprint: bool, at: uint64, cut: nat, now: uint64)
    requires Inv(w) && Possible(w, CrashInSubmit(record, reprint, at, cut, now))
    ensures Inv(After(w, CrashInSubmit(record, reprint, at, cut, now)))
  {
    var r := Created(record, at);
    var text := w.journal + SubmitText(r)[..cut];
    SubmitTextCut(r, cut);
    TornCreate(w.journal, JobLineEntry(r), StateEntryOf(r), cut);
    var was: World;
    if TornResult(Rebuild(w.journal), JobLineEntry(r), Rebuild(text)) {
      was := TornJobRecord(w, record, reprint, at, Rebuild(text));
    } else {
      was := TornQueuedRecord(w, record, reprint, at, Rebuild(text));
    }
    ReopenKeepsInv(w.(paper := w.paper[record.id := 0], reprinted := Reprints(w, record.key, reprint)), now, text, was);
  }

  lemma SubmitTextCut(r: JobRecord, cut: nat)
    requires cut <= |SubmitText(r)| - 1
    ensures SubmitText(r)[..cut] == (RecordText(JobLineEntry(r)) + LineOf(StateEntryOf(r)))[..cut]
  {
    assert SubmitText(r) == (RecordText(JobLineEntry(r)) + LineOf(StateEntryOf(r))) + ['\n'];
  }

  lemma StepKeepsInv(w: World, e: Event)
    requires Inv(w) && Possible(w, e)
    ensures Inv(After(w, e))
  {
    match e
    case Submit(record, size, ceiling, reprint, now) => SubmitKeepsInv(w, record, size, ceiling, reprint, now);
    case Act(id, a, now) =>
      if a.Took? { AcceptKeepsInv(w, id, a, now); } else { JournaledActKeepsInv(w, id, a, now); }
    case Restart(now) => ReopenKeepsInv(w, now, w.journal, w);
    case CrashInSubmit(record, reprint, at, cut, now) => CrashInSubmitKeepsInv(w, record, reprint, at, cut, now);
    case CrashInAct(id, a, at, cut, now) => CrashInActKeepsInv(w, id, a, at, cut, now);
  }

  lemma {:induction false} RunKeepsInv(w: World, events: seq<Event>)
    requires Inv(w) && Run(w, events)
    ensures Inv(End(w, events))
    decreases |events|
  {
    if events != [] {
      StepKeepsInv(w, events[0]);
      RunKeepsInv(After(w, events[0]), events[1..]);
    }
  }

  lemma StartIsSound()
    ensures Inv(START_WORLD)
  {
    assert Lines([]) == [];
    assert Rebuild([]) == EMPTY_STORE;
  }

  // --- At most once ---------------------------------------------------------------

  ghost predicate Reachable(w: World) { exists events :: Run(START_WORLD, events) && End(START_WORLD, events) == w }

  lemma ReachableIsSound(w: World)
    requires Reachable(w)
    ensures Inv(w)
  {
    var events :| Run(START_WORLD, events) && End(START_WORLD, events) == w;
    StartIsSound();
    RunKeepsInv(START_WORLD, events);
  }

  // Two attempts of one key, never force-reprinted: the earlier is a known failure, and
  // it put bytes on paper exactly when its reason is the cutter fault.
  lemma EarlierAttemptFailed(w: World, i: nat, j: nat)
    requires Reachable(w)
    requires var s := Rebuild(w.journal);
             i < j < |s.order| && s.order[i] in s.byId && s.order[j] in s.byId
             && s.byId[s.order[i]].key == s.byId[s.order[j]].key && s.byId[s.order[i]].key !in w.reprinted
    ensures var s := Rebuild(w.journal);
            s.byId[s.order[i]].state == FailedKnown
            && (Bytes(w, s.order[i]) > 0 <==> s.byId[s.order[i]].reason == CutterFault)
  {
    ReachableIsSound(w);
    var s := Rebuild(w.journal);
    assert Superseded(s.byId[s.order[i]], s.byId[s.order[j]], w.reprinted);
    assert Fits(s.byId[s.order[i]], w.live, s.order[i], Bytes(w, s.order[i]));
  }

  predicate Printed(w: World, key: string, id: string) {
    var s := Rebuild(w.journal);
    id in s.byId && s.byId[id].key == key && Bytes(w, id) > 0
  }

  predicate CutterFailed(w: World, id: string) {
    var s := Rebuild(w.journal);
    id in s.byId && s.byId[id].state == FailedKnown && s.byId[id].reason == CutterFault
  }

  // At most one attempt of a key ever has a payload byte accepted, across any number of
  // crashes and restarts, unless one of them ended in a cutter fault.
  lemma AtMostOnce(w: World, key: string, a: string, b: string)
    requires Reachable(w) && key !in w.reprinted && Printed(w, key, a) && Printed(w, key, b) && a != b
    ensures CutterFailed(w, a) || CutterFailed(w, b)
  {
    ReachableIsSound(w);
    var s := Rebuild(w.journal);
    var i :| 0 <= i < |s.order| && s.order[i] == a;
    var j :| 0 <= j < |s.order| && s.order[j] == b;
    if i < j { EarlierAttemptFailed(w, i, j); } else { EarlierAttemptFailed(w, j, i); }
  }

  // No payload byte is on paper before the journal says SendStarted.
  lemma PaperIsJournaled(w: World, id: string)
    requires Reachable(w) && Bytes(w, id) > 0
    ensures var s := Rebuild(w.journal);
            id in s.byId && s.byId[id].state !in {Queued, PreflightOk}
            && (s.byId[id].state == FailedKnown ==> s.byId[id].reason == CutterFault)
  {
    ReachableIsSound(w);
    var s := Rebuild(w.journal);
    assert Fits(s.byId[id], w.live, id, Bytes(w, id));
  }

  // After any restart every attempt has a verdict, and one that may have printed is never
  // reported as a safe failure.
  lemma RestartSettlesEverything(w: World, now: uint64, id: string)
    requires Reachable(w) && id in Rebuild(After(w, Restart(now)).journal).byId
    ensures var r := Rebuild(After(w, Restart(now)).journal).byId[id];
            IsTerminal(r.state) && (Bytes(w, id) > 0 && r.reason != CutterFault ==> r.state != FailedKnown)
  {
    ReachableIsSound(w);
    StepKeepsInv(w, Restart(now));
    var w' := After(w, Restart(now));
    assert Fits(Rebuild(w'.journal).byId[id], w'.live, id, Bytes(w', id));
  }

  // --- An attempt's trace is a run of the driver ----------------------------------

  function ActionText(id: string, a: Action, now: uint64): string {
    if IsJournaled(a) then RecordText(EntryOf(id, a, now)) else []
  }

  // The journal text of a trace.
  function JournalOf(id: string, t: Trace, now: uint64): string {
    if t == [] then [] else ActionText(id, t[0], now) + JournalOf(id, t[1..], now)
  }

  lemma {:induction false} JournalOfConcat(id: string, a: Trace, b: Trace, now: uint64)
    ensures JournalOf(id, a + b, now) == JournalOf(id, a, now) + JournalOf(id, b, now)
  {
    if a == [] {
      assert a + b == b;
    } else {
      assert (a + b)[0] == a[0] && (a + b)[1..] == a[1..] + b;
      JournalOfConcat(id, a[1..], b, now);
    }
  }

  lemma Joins(x: string, y: string, z: string)
    ensures x + (y + z) == (x + y) + z && x + [] == x
  {
  }

  function Acts(id: string, t: Trace, now: uint64): seq<Event> {
    if t == [] then [] else [Act(id, t[0], now)] + Acts(id, t[1..], now)
  }

  // What a trace does to the world it happens in.
  predicate Carried(w: World, v: World, id: string, t: Trace, now: uint64) {
    && v.journal == w.journal + JournalOf(id, t, now)
    && id in w.live && v.live == w.live[id := w.live[id].(view := Final(w.live[id].view, t))]
    && v.index == w.index && v.reprinted == w.reprinted
    && Bytes(v, id) == Bytes(w, id) + |PaperOf(t)| && SameElsewhere(w.paper, v.paper, id)
  }

  predicate SameElsewhere(before: map<string, nat>, after: map<string, nat>, id: string) {
    && before.Keys <= after.Keys <= before.Keys + {id}
    && forall x :: x in before && x != id ==> after[x] == before[x]
  }

  lemma OneActCarries(w: World, id: string, a: Action, now: uint64)
    requires MayAct(w, id, a)
    ensures Carried(w, After(w, Act(id, a, now)), id, [a], now)
  {
    assert [a][1..] == [];
    assert JournalOf(id, [a], now) == ActionText(id, a, now) + [];
    Joins(w.journal, [], []);
    Joins(ActionText(id, a, now), [], []);
    assert PaperOf([a]) == (if IsPaper(a) then a.bytes else []) + [];
  }

  lemma UpdatedTwice(m: map<string, Attempt>, id: string, a: Attempt, b: Attempt)
    ensures m[id := a][id := b] == m[id := b]
  {
  }

  lemma ViewsAddUp(v: View, a: Action, t: Trace)
    ensures Final(v, [a] + t) == Final(Final(v, [a]), t)
  {
    assert ([a] + t)[0] == a && ([a] + t)[1..] == t && [a][1..] == [];
  }

  lemma CarriedOn(w: World, u: World, v: World, id: string, a: Action, t: Trace, now: uint64)
    requires Carried(w, u, id, [a], now) && Carried(u, v, id, t, now)
    ensures Carried(w, v, id, [a] + t, now)
  {
    JournalOfConcat(id, [a], t, now);
    Joins(w.journal, JournalOf(id, [a], now), JournalOf(id, t, now));
    PaperOfConcat([a], t);
    ViewsAddUp(w.live[id].view, a, t);
    UpdatedTwice(w.live, id, u.live[id], v.live[id]);
  }

  // Any lawful trace of a live attempt is a run of the driver: the journal gains its text,
  // the paper its bytes, and the attempt ends where the trace ends.
  lemma {:induction false} TraceIsARun(w: World, id: string, t: Trace, now: uint64)
    requires id in w.live && Lawful(w.live[id].size, w.live[id].ceiling, w.live[id].view, t)
    ensures Run(w, Acts(id, t, now)) && Carried(w, End(w, Acts(id, t, now)), id, t, now)
    decreases |t|
  {
    if t == [] {
      Joins(w.journal, [], []);
      assert w.live == w.live[id := w.live[id]];
    } else {
      var next := After(w, Act(id, t[0], now));
      OneActCarries(w, id, t[0], now);
      assert Acts(id, t, now)[0] == Act(id, t[0], now) && Acts(id, t, now)[1..] == Acts(id, t[1..], now);
      TraceIsARun(next, id, t[1..], now);
      CarriedOn(w, next, End(next, Acts(id, t[1..], now)), id, t[0], t[1..], now);
      assert t == [t[0]] + t[1..];
    }
  }

  // --- The one exception is real --------------------------------------------------

  predicate KeepsKey(w: World, v: World, id: string) {
    var s, t := Rebuild(w.journal).byId, Rebuild(v.journal).byId;
    id in s && id in t && t[id].key == s[id].key
  }

  lemma ApplyKeepsKey(s: Store, e: Entry, id: string)
    requires id in s.byId
    ensures id in Apply(s, e).byId && Apply(s, e).byId[id].key == s.byId[id].key
  {
  }

  // No record ever changes its key, and a submission adds its own.
  lemma KeysSurvive(w: World, e: Event, id: string)
    requires Inv(w) && Possible(w, e) && e.Act? && id in Rebuild(w.journal).byId
    ensures KeepsKey(w, After(w, e), id)
  {
    if IsJournaled(e.action) {
      AppendKeepsKey(w.journal, EntryOf(e.id, e.action, e.now), id);
    } else {
      assert After(w, e).journal == w.journal;
    }
  }

  lemma AppendKeepsKey(journal: string, e: Entry, id: string)
    requires Complete(journal) && id in Rebuild(journal).byId
    ensures var t := Rebuild(journal + RecordText(e)).byId; id in t && t[id].key == Rebuild(journal).byId[id].key
  {
    AppendRecord(journal, e);
    ApplyKeepsKey(Rebuild(journal), AsWritten(e), id);
  }

  lemma SubmitKeepsKey(w: World, e: Event, id: string)
    requires Inv(w) && Possible(w, e) && e.Submit? && id in Rebuild(w.journal).byId
    ensures KeepsKey(w, After(w, e), id)
  {
    var s, r := Rebuild(w.journal), Created(e.record, e.now);
    var j, q := AsWritten(JobLineEntry(r)), StateEntryOf(r);
    AppendTwo(w.journal, JobLineEntry(r), q);
    ApplyKeepsKey(s, j, id);
    ApplyKeepsKey(Apply(s, j), q, id);
  }

  function Ids(w: World): set<string> { Rebuild(w.journal).byId.Keys }

  lemma ApplyKeepsIds(s: Store, e: Entry)
    requires e.JobLineEntry? || e.id in s.byId
    ensures Apply(s, e).byId.Keys == s.byId.Keys + {if e.JobLineEntry? then e.record.id else e.id}
  {
  }

  lemma SubmitMakesTheJob(w: World, e: Event)
    requires Inv(w) && Possible(w, e) && e.Submit?
    ensures Ids(After(w, e)) == Ids(w) + {e.record.id}
    ensures Rebuild(After(w, e).journal).byId[e.record.id].key == e.record.key
  {
    var s, r := Rebuild(w.journal), Created(e.record, e.now);
    var j, q := AsWritten(JobLineEntry(r)), StateEntryOf(r);
    AppendTwo(w.journal, JobLineEntry(r), q);
    ApplyKeepsIds(s, j);
    ApplyKeepsIds(Apply(s, j), q);
    ApplyKeepsKey(Apply(s, j), q, r.id);
  }

  lemma ActAddsNoJob(w: World, e: Event)
    requires Inv(w) && Possible(w, e) && e.Act?
    ensures Ids(After(w, e)) == Ids(w)
  {
    if IsJournaled(e.action) {
      AppendRecord(w.journal, EntryOf(e.id, e.action, e.now));
      ApplyKeepsIds(Rebuild(w.journal), AsWritten(EntryOf(e.id, e.action, e.now)));
    } else {
      assert After(w, e).journal == w.journal;
    }
  }

  lemma {:induction false} ActsKeepKeys(w: World, id: string, t: Trace, now: uint64)
    requires Inv(w) && Run(w, Acts(id, t, now))
    ensures Ids(End(w, Acts(id, t, now))) == Ids(w)
    ensures forall other :: other in Ids(w) ==> KeepsKey(w, End(w, Acts(id, t, now)), other)
    decreases |t|
  {
    if t != [] {
      var act := Act(id, t[0], now);
      assert Acts(id, t, now)[0] == act && Acts(id, t, now)[1..] == Acts(id, t[1..], now);
      ActAddsNoJob(w, act);
      StepKeepsInv(w, act);
      ActsKeepKeys(After(w, act), id, t[1..], now);
      forall other | other in Ids(w) ensures KeepsKey(w, End(w, Acts(id, t, now)), other) { KeysSurvive(w, act, other); }
    }
  }

  const FIRST_BYTE := Took(Printing, [0x1B])
  const STARTED := JobTraces.Record(SendStarted, TransportAccepted, NoReason, NoEvidence)

  // A one-byte attempt that prints and goes no further, and one that prints, is confirmed
  // and cut, and finds the cutter jammed.
  const PRINTS: Trace := [STARTED, FIRST_BYTE]

  const JAMS: Trace := [
    STARTED, FIRST_BYTE,
    JobTraces.Record(BytesSent, TransportAccepted, NoReason, NoEvidence),
    JobTraces.Record(PrintConfirmed, PrintAcknowledged, NoReason, NoEvidence),
    JobTraces.Record(CutCommandProcessed, CutProcessed, NoReason, NoEvidence),
    JobTraces.Record(FailedKnown, CutProcessed, CutterFault, STATUS_EVIDENCE)
  ]

  lemma Continues(t: Trace, v: View, a: Action)
    requires Lawful(1, CutFaultFree, START, t) && Final(START, t) == v && Legal(1, CutFaultFree, v, a)
    ensures Lawful(1, CutFaultFree, START, t + [a]) && Final(START, t + [a]) == JobTraces.Next(v, a)
  {
    OneLawful(1, CutFaultFree, v, a);
    ThenLawful(1, CutFaultFree, START, t, [a]);
  }

  lemma PrintsIsLawful()
    ensures Lawful(1, CutFaultFree, START, PRINTS) && Final(START, PRINTS) == View(SendStarted, 0, NoReason, 1)
    ensures |PaperOf(PRINTS)| == 1
  {
    OneLawful(1, CutFaultFree, START, STARTED);
    Continues([STARTED], View(SendStarted, 0, NoReason, 0), FIRST_BYTE);
    assert PRINTS == [STARTED] + [FIRST_BYTE];
    AcceptedCountsPaper(START, PRINTS);
  }

  lemma JamsIsLawful()
    ensures Lawful(1, CutFaultFree, START, JAMS) && Final(START, JAMS) == View(FailedKnown, 3, CutterFault, 1)
    ensures |PaperOf(JAMS)| == 1
  {
    PrintsIsLawful();
    Continues(PRINTS, View(SendStarted, 0, NoReason, 1), JAMS[2]);
    assert JAMS[..3] == PRINTS + [JAMS[2]];
    Continues(JAMS[..3], View(BytesSent, 0, NoReason, 1), JAMS[3]);
    assert JAMS[..4] == JAMS[..3] + [JAMS[3]];
    Continues(JAMS[..4], View(PrintConfirmed, 2, NoReason, 1), JAMS[4]);
    assert JAMS[..5] == JAMS[..4] + [JAMS[4]];
    Continues(JAMS[..5], View(CutCommandProcessed, 3, NoReason, 1), JAMS[5]);
    assert JAMS == JAMS[..5] + [JAMS[5]];
    AcceptedCountsPaper(START, JAMS);
  }

  // A submission that is admitted, and then one attempt's whole trace.
  function OneJob(record: JobRecord, t: Trace, now: uint64): seq<Event> {
    [Submit(record, 1, CutFaultFree, false, now)] + Acts(record.id, t, now)
  }

  lemma SubmitStarts(w: World, record: JobRecord, now: uint64)
    requires Inv(w) && MaySubmit(w, record, false)
    ensures var submit := Submit(record, 1, CutFaultFree, false, now);
            Possible(w, submit)
            && var u := After(w, submit);
               && Inv(u) && u.index == w.index[record.key := record.id] && u.reprinted == w.reprinted
               && record.id in u.live && u.live[record.id] == Attempt(START, 1, CutFaultFree) && Bytes(u, record.id) == 0
  {
    StepKeepsInv(w, Submit(record, 1, CutFaultFree, false, now));
  }

  lemma OneJobSteps(w: World, record: JobRecord, t: Trace, now: uint64)
    requires Possible(w, Submit(record, 1, CutFaultFree, false, now))
    requires Run(After(w, Submit(record, 1, CutFaultFree, false, now)), Acts(record.id, t, now))
    ensures Run(w, OneJob(record, t, now))
    ensures End(w, OneJob(record, t, now)) == End(After(w, Submit(record, 1, CutFaultFree, false, now)), Acts(record.id, t, now))
  {
    assert OneJob(record, t, now)[1..] == Acts(record.id, t, now);
  }

  lemma OneJobRuns(w: World, record: JobRecord, t: Trace, now: uint64)
    requires Inv(w) && MaySubmit(w, record, false) && Lawful(1, CutFaultFree, START, t)
    ensures Run(w, OneJob(record, t, now)) && Inv(End(w, OneJob(record, t, now)))
    ensures var v := End(w, OneJob(record, t, now));
            && v.index == w.index[record.key := record.id] && v.reprinted == w.reprinted
            && record.id in v.live && v.live[record.id] == Attempt(Final(START, t), 1, CutFaultFree)
            && Bytes(v, record.id) == |PaperOf(t)|
            && Ids(v) == Ids(w) + {record.id} && Rebuild(v.journal).byId[record.id].key == record.key
  {
    SubmitStarts(w, record, now);
    var u := After(w, Submit(record, 1, CutFaultFree, false, now));
    TraceIsARun(u, record.id, t, now);
    OneJobSteps(w, record, t, now);
    RunKeepsInv(u, Acts(record.id, t, now));
    OneJobIsJournaled(w, record, t, now);
  }

  lemma OneJobIsJournaled(w: World, record: JobRecord, t: Trace, now: uint64)
    requires Inv(w) && MaySubmit(w, record, false) && Run(w, OneJob(record, t, now))
    ensures var v := End(w, OneJob(record, t, now));
            Ids(v) == Ids(w) + {record.id} && Rebuild(v.journal).byId[record.id].key == record.key
  {
    var submit := Submit(record, 1, CutFaultFree, false, now);
    assert OneJob(record, t, now)[1..] == Acts(record.id, t, now);
    StepKeepsInv(w, submit);
    SubmitMakesTheJob(w, submit);
    ActsKeepKeys(After(w, submit), record.id, t, now);
    assert record.id in Ids(After(w, submit));
  }

  lemma OneJobLeavesOthers(w: World, record: JobRecord, t: Trace, now: uint64, other: string)
    requires Inv(w) && MaySubmit(w, record, false) && Lawful(1, CutFaultFree, START, t)
    requires other in Rebuild(w.journal).byId
    ensures Run(w, OneJob(record, t, now))
    ensures var v := End(w, OneJob(record, t, now)); KeepsKey(w, v, other) && Bytes(v, other) == Bytes(w, other)
  {
    var submit := Submit(record, 1, CutFaultFree, false, now);
    var u := After(w, submit);
    StepKeepsInv(w, submit);
    TraceIsARun(u, record.id, t, now);
    assert OneJob(record, t, now)[1..] == Acts(record.id, t, now);
    SubmitKeepsKey(w, submit, other);
    ActsKeepKeys(u, record.id, t, now);
  }

  // Whatever the driver has been through, a key whose last attempt jammed the cutter can
  // be submitted again without any reprint and then prints a second time.
  lemma CutterFaultPrintsTwice(w: World, record: JobRecord, old_: string, now: uint64) returns (events: seq<Event>)
    requires Reachable(w) && record.key in w.index && w.index[record.key] == old_ && record.key !in w.reprinted
    requires CutterFailed(w, old_) && Printed(w, record.key, old_)
    requires record.key != [] && record.id !in Rebuild(w.journal).byId
    ensures Run(w, events)
    ensures var v := End(w, events);
            record.key !in v.reprinted && Printed(v, record.key, record.id) && Printed(v, record.key, old_) && record.id != old_
  {
    ReachableIsSound(w);
    assert Fits(Rebuild(w.journal).byId[old_], w.live, old_, Bytes(w, old_));
    PrintsIsLawful();
    OneJobRuns(w, record, PRINTS, now);
    OneJobLeavesOthers(w, record, PRINTS, now, old_);
    events := OneJob(record, PRINTS, now);
  }

  // A world the driver does reach: one job has printed and jammed the cutter.
  lemma AJammedWorld(first: JobRecord, now: uint64) returns (events: seq<Event>)
    requires first.key != []
    ensures Run(START_WORLD, events)
    ensures var w := End(START_WORLD, events);
            && w.index == map[first.key := first.id] && w.reprinted == {} && Ids(w) == {first.id}
            && CutterFailed(w, first.id) && Printed(w, first.key, first.id)
  {
    StartIsSound();
    JamsIsLawful();
    EmptyJournal();
    events := OneJob(first, JAMS, now);
    OneJobRuns(START_WORLD, first, JAMS, now);
    LiveIsJournaled(End(START_WORLD, events), first.id);
  }

  lemma EmptyJournal()
    ensures Rebuild(START_WORLD.journal) == EMPTY_STORE
  {
    assert Lines([]) == [];
  }

  lemma LiveIsJournaled(w: World, id: string)
    requires Inv(w) && id in w.live
    ensures var r := Rebuild(w.journal).byId[id]; r.state == w.live[id].view.state && r.reason == w.live[id].view.reason
  {
    assert Fits(Rebuild(w.journal).byId[id], w.live, id, Bytes(w, id));
  }

  // And so it does happen: from the empty journal, one job that prints and jams the
  // cutter, submitted again by the same key, is on paper twice without a reprint.
  lemma TwicePrintedFromTheStart(first: JobRecord, again: JobRecord, now: uint64) returns (jam: seq<Event>, twice: seq<Event>)
    requires first.key != [] && again.key == first.key && again.id != first.id
    ensures Run(START_WORLD, jam) && Run(End(START_WORLD, jam), twice)
    ensures var v := End(End(START_WORLD, jam), twice);
            first.key !in v.reprinted && Printed(v, first.key, first.id) && Printed(v, first.key, again.id) && first.id != again.id
  {
    jam := AJammedWorld(first, now);
    var w := End(START_WORLD, jam);
    assert Reachable(w);
    assert again.id !in Ids(w);
    twice := CutterFaultPrintsTwice(w, again, first.id, now);
  }

  // --- Admission ------------------------------------------------------------------

  // Without a reprint, a key already known gets a new attempt exactly when its newest
  // attempt is a known failure.
  lemma AdmissionIff(w: World, key: string)
    requires Reachable(w) && key in w.index
    ensures Admits(w, key, false) <==>
            exists i: nat :: NewestOf(Rebuild(w.journal), key, i) && Rebuild(w.journal).byId[Rebuild(w.journal).order[i]].state == FailedKnown
  {
    ReachableIsSound(w);
    var s := Rebuild(w.journal);
    KeysAreNotEmpty(s, key);
    KeyIndexFinds(s.order, s.byId, key);
    var k :| 0 <= k < |s.order| && s.order[k] == w.index[key] && LastOfKey(s.order, s.byId, key, k);
    assert s.order[k] in s.byId;
    HandlesReportTheJournal(s, w, s.order[k]);
    assert NewestOf(s, key, k);
    forall i: nat | NewestOf(s, key, i) ensures i == k { NewestIsUnique(s, key, i, k); }
  }

  lemma HandlesReportTheJournal(s: Store, w: World, id: string)
    requires s == Rebuild(w.journal) && Sound(s, w) && id in s.byId
    ensures StateOf(w, id) == Some(s.byId[id].state)
  {
    assert Fits(s.byId[id], w.live, id, Bytes(w, id));
  }

  lemma NewestIsUnique(s: Store, key: string, i: nat, k: nat)
    requires NewestOf(s, key, i) && NewestOf(s, key, k)
    ensures i == k
  {
  }

  predicate NewestOf(s: Store, key: string, i: nat) {
    i < |s.order| && (forall id :: id in s.order ==> id in s.byId) && LastOfKey(s.order, s.byId, key, i)
  }

  lemma {:induction false} KeyIndexHasNoEmptyKey(order: seq<string>, byId: map<string, JobRecord>)
    requires forall id :: id in order ==> id in byId
    ensures [] !in KeyIndex(order, byId)
  {
    if order != [] { KeyIndexHasNoEmptyKey(order[..|order| - 1], byId); }
  }

  lemma KeysAreNotEmpty(s: Store, key: string)
    requires WellFormed(s) && key in s.idByKey
    ensures key != []
  {
    KeyIndexHasNoEmptyKey(s.order, s.byId);
  }

  // --- Torn verdicts --------------------------------------------------------------

  lemma {:induction false} EventsHoldRecords(t: Trace, a: Action)
    requires a in t && a.Record?
    ensures a in Events(t)
    decreases |t|
  {
    if a != t[0] {
      assert a in t[1..];
      EventsHoldRecords(t[1..], a);
    }
  }

  // A record of a job run by one of the built-in fences, cut short anywhere, never reads
  // back with a stronger grade than was written.
  lemma TornVerdictNeverOverclaims(size: nat, p: Profile, o: Options, f: Facts, id: string, a: Action, now: uint64, n: nat)
    requires size > 0 && Consistent(size, f) && Custom(p).None?
    requires a in JobTrace(p, o, f) && a.Record? && n < |LineOf(EntryOf(id, a, now))|
    ensures !StrongerWhenCut(EntryOf(id, a, now), n)
  {
    var t := JobTrace(p, o, f);
    RunIsLawful(size, p, o, f);
    HistoryAscends(size, MaxConfidence(p), START, t);
    EventsHoldRecords(t, a);
    VerdictsClaimHonestly(p, o, f);
    assert ClaimsHonestly(p, a);
    var k :| 0 <= k < |Events(t)| && Events(t)[k] == a;
    assert Past(START.state, START.rank, MaxConfidence(p), Events(t)[k]);
    NeverPhysicallyVerified(size, MaxConfidence(p), START, t, a);
    if a.state == DoneSoftware && Rank(a.confidence) >= Rank(PrintAcknowledged) { BuiltInGradeIsEnough(p, a); }
    TornGradeOverclaimsIff(EntryOf(id, a, now));
  }

  lemma BuiltInGradeIsEnough(p: Profile, a: Action)
    requires Custom(p).None? && a.Record? && ClaimsHonestly(p, a) && Rank(a.confidence) <= Rank(MaxConfidence(p))
    requires a.state == DoneSoftware && Rank(a.confidence) >= Rank(PrintAcknowledged)
    ensures GradeStrength(a.evidence.grade) >= GradeStrength(BOrderedDeviceResponse)
  {
  }

  lemma {:induction false} NeverPhysicallyVerified(size: nat, ceiling: ConfidenceLevel, v: View, t: Trace, a: Action)
    requires Lawful(size, ceiling, v, t) && a in t && a.Record?
    ensures a.state != PhysicallyVerified
    decreases |t|
  {
    if a != t[0] {
      assert a in t[1..];
      NeverPhysicallyVerified(size, ceiling, JobTraces.Next(v, t[0]), t[1..], a);
    }
  }
}

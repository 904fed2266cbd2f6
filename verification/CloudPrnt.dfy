// The pull-mode print server (agent/src/cloudprnt.cpp): a printer polls, downloads and
// confirms; jobs are retained until confirmed, and their results for a while longer.

module CloudPrnt {
  import opened PrinterTypes
  import opened JournalText

  // --- Tokens ---------------------------------------------------------------------

  const HEX: string := "0123456789abcdef"

  function Power16(n: nat): (p: nat)
    ensures p > 0
  {
    if n == 0 then 1 else 16 * Power16(n - 1)
  }

  function HexDigits(bits: nat): (s: string)
    ensures |s| == 16
  {
    seq(16, i requires 0 <= i < 16 => HEX[bits / Power16(15 - i) % 16])
  }

  // Sixteen random hexadecimal digits, then a sequence number nobody else has.
  function TokenText(bits: nat, n: nat): string { "cp-" + HexDigits(bits) + "-" + Decimal(n) }

  lemma DecimalIsInjective(a: nat, b: nat)
    requires Decimal(a) == Decimal(b)
    ensures a == b
  {
    DecimalDigits(a);
    DecimalDigits(b);
  }

  // Whatever the random digits, two tokens are equal only for the same sequence number.
  lemma TokensNeverRepeat(bits: nat, n: nat, bits': nat, n': nat)
    requires TokenText(bits, n) == TokenText(bits', n')
    ensures n == n'
  {
    assert TokenText(bits, n)[20..] == Decimal(n);
    assert TokenText(bits', n')[20..] == Decimal(n');
    DecimalIsInjective(n, n');
  }

  // --- What a confirmation code means ---------------------------------------------

  datatype JobOutcome = OutcomeDone | OutcomeFailed | OutcomeUnknown

  datatype Disposition = Disposition(outcome: JobOutcome, reason: FailureReason)

  function DispositionOf(code: nat): Disposition {
    if code == 200 then Disposition(OutcomeDone, NoReason)
    else if code in {201, 211, 220, 221, 230, 231} then Disposition(OutcomeUnknown, UnknownReason)
    else if code == 410 then Disposition(OutcomeFailed, PreflightPaperOut)
    else if code == 411 || code == 412 then Disposition(OutcomeFailed, PreflightHardwareError)
    else if code == 420 then Disposition(OutcomeFailed, PreflightCoverOpen)
    else if code == 520 then Disposition(OutcomeFailed, TimeoutAwaitingCompletion)
    else if code in {510, 511, 512, 521, 1000, 1001} then Disposition(OutcomeFailed, Unsupported)
    else if 400 <= code <= 599 then Disposition(OutcomeFailed, UnknownReason)
    else Disposition(OutcomeUnknown, UnknownReason)
  }

  const METHOD: string := "CloudPRNT"

  // What the server keeps of the first confirmation; None is a missing or unreadable code.
  datatype Verdict = Verdict(code: nat, disposition: Disposition, evidence: JobEvidence)

  function VerdictOf(code: Option<nat>): Verdict {
    match code
    case Some(c) => Verdict(c, DispositionOf(c), JobEvidence(AJobLevelConfirmation, PhysicalPrinter, METHOD))
    case None => Verdict(0, Disposition(OutcomeUnknown, UnknownReason), JobEvidence(ETransportOnly, TransportOnly, METHOD))
  }

  // --- The repository of one printer ----------------------------------------------

  // `verdict` is None until the job is confirmed; its bytes go then.
  datatype Job = Job(token: string, mediaTypes: seq<string>, bytes: seq<byte>, deliveries: nat, verdict: Option<Verdict>)

  datatype Printer = Printer(mediaTypes: seq<string>, maxPending: nat, maxHistory: nat, mac: string, macPinned: bool,
                             refusals: nat, pending: seq<string>, history: seq<string>, jobs: map<string, Job>)

  datatype Response =
    | NotFound
    | Refused
    | Enlisted(token: string)
    | Offer(offered: Option<string>, mediaTypes: seq<string>)
    | Download(mediaType: string, body: seq<byte>)
    | BadMediaType
    | Confirmed(token: string, repeated: bool, verdict: Verdict)

  // Whether a request's MAC may speak for this route, and what the check leaves behind.
  predicate Admits(p: Printer, mac: string, adopt: bool) {
    if mac == [] then !(p.macPinned && adopt) else p.mac == [] || p.mac == mac
  }

  function AfterCheck(p: Printer, mac: string, adopt: bool): Printer {
    if !Admits(p, mac, adopt) then p.(refusals := p.refusals + 1)
    else if mac != [] && p.mac == [] && adopt then p.(mac := mac)
    else p
  }

  function Enqueued(p: Printer, token: string, types: seq<string>, bytes: seq<byte>): Printer {
    p.(pending := p.pending + [token], jobs := p.jobs[token := Job(token, types, bytes, 0, None)])
  }

  function Delivered(p: Printer, token: string): Printer {
    if token !in p.jobs then p
    else p.(jobs := p.jobs[token := p.jobs[token].(deliveries := p.jobs[token].deliveries + 1)])
  }

  // Removes the first occurrence.
  function Removed(s: seq<string>, t: string): seq<string> {
    if s == [] then [] else if s[0] == t then s[1..] else [s[0]] + Removed(s[1..], t)
  }

  // The last n, oldest dropped first.
  function LastN(s: seq<string>, n: nat): seq<string> { if |s| <= n then s else s[|s| - n..] }

  function Members(s: seq<string>): set<string> { set t | t in s }

  function Retired(p: Printer, token: string, v: Verdict): Printer {
    if token !in p.jobs then p else
    var jobs := p.jobs[token := p.jobs[token].(verdict := Some(v), bytes := [])];
    var history := p.history + [token];
    p.(pending := Removed(p.pending, token), history := LastN(history, p.maxHistory),
       jobs := jobs - Members(history[..|history| - |LastN(history, p.maxHistory)|]))
  }

  // --- What happened to a printer's queue, and what it should look like ------------

  datatype Entry = Accepted(token: string, bytes: seq<byte>) | Retirement(token: string, code: Option<nat>)

  function Submitted(log: seq<Entry>): seq<string> {
    if log == [] then []
    else Submitted(log[..|log| - 1]) + if log[|log| - 1].Accepted? then [log[|log| - 1].token] else []
  }

  function Confirmations(log: seq<Entry>): seq<string> {
    if log == [] then []
    else Confirmations(log[..|log| - 1]) + if log[|log| - 1].Retirement? then [log[|log| - 1].token] else []
  }

  // The bytes a token was submitted with.
  predicate SubmittedAs(log: seq<Entry>, t: string, bytes: seq<byte>) { Accepted(t, bytes) in log }

  predicate RetiredBy(log: seq<Entry>, t: string, v: Verdict) {
    exists e :: e in log && e.Retirement? && e.token == t && VerdictOf(e.code) == v
  }

  // s without the members of r, in order.
  function Without(s: seq<string>, r: seq<string>): seq<string> {
    if s == [] then []
    else Without(s[..|s| - 1], r) + if s[|s| - 1] in r then [] else [s[|s| - 1]]
  }

  predicate Distinct(s: seq<string>) { forall i, j :: 0 <= i < j < |s| ==> s[i] != s[j] }

  predicate Within(a: seq<string>, b: seq<string>) { forall t :: t in a ==> t in b }

  ghost predicate JobSound(p: Printer, log: seq<Entry>, t: string) {
    && t in p.jobs && p.jobs[t].token == t && p.jobs[t].mediaTypes != []
    && (t in p.pending ==> p.jobs[t].verdict == None && SubmittedAs(log, t, p.jobs[t].bytes))
    && (t in p.history ==> p.jobs[t].verdict.Some? && p.jobs[t].bytes == [] && RetiredBy(log, t, p.jobs[t].verdict.value))
  }

  ghost predicate Sound(p: Printer, log: seq<Entry>) {
    && Distinct(Submitted(log)) && Distinct(Confirmations(log)) && Within(Confirmations(log), Submitted(log))
    && p.pending == Without(Submitted(log), Confirmations(log)) && |p.pending| <= p.maxPending
    && p.history == LastN(Confirmations(log), p.maxHistory)
    && p.mediaTypes != []
    && (forall t :: t in p.jobs <==> t in p.pending || t in p.history)
    && (forall t :: t in p.jobs ==> JobSound(p, log, t))
  }

  // --- Facts about the queue functions --------------------------------------------

  lemma {:induction false} WithoutIff(s: seq<string>, r: seq<string>, t: string)
    ensures t in Without(s, r) <==> t in s && t !in r
  {
    if s != [] { WithoutIff(s[..|s| - 1], r, t); assert s == s[..|s| - 1] + [s[|s| - 1]]; }
  }

  lemma {:induction false} WithoutDistinct(s: seq<string>, r: seq<string>)
    requires Distinct(s)
    ensures Distinct(Without(s, r))
  {
    if s != [] {
      WithoutDistinct(s[..|s| - 1], r);
      WithoutIff(s[..|s| - 1], r, s[|s| - 1]);
    }
  }

  // Confirming one token takes exactly it out of the queue, wherever it stands.
  lemma {:induction false} WithoutOneMore(s: seq<string>, r: seq<string>, t: string)
    requires Distinct(s)
    ensures Without(s, r + [t]) == Removed(Without(s, r), t)
  {
    if s != [] {
      var n := |s| - 1;
      WithoutOneMore(s[..n], r, t);
      WithoutIff(s[..n], r, t);
      WithoutIff(s[..n], r, s[n]);
      assert s == s[..n] + [s[n]];
      RemovedAppend(Without(s[..n], r), s[n], t);
      assert (r + [t])[|r|] == t;
      assert s[n] in r + [t] <==> s[n] in r || s[n] == t;
      if t !in Without(s[..n], r) { RemovedAbsent(Without(s[..n], r), t); }
      if s[n] == t { assert t !in s[..n]; }
      assert Removed(Without(s[..n], r), t) + [] == Removed(Without(s[..n], r), t);
      assert Without(s[..n], r) + [] == Without(s[..n], r);
    }
  }

  lemma {:induction false} RemovedAppend(s: seq<string>, x: string, t: string)
    ensures Removed(s + [x], t) == if t in s then Removed(s, t) + [x] else if x == t then s else s + [x]
  {
    if s == [] {
      assert [] + [x] == [x] && [x][1..] == [];
      if x != t { assert Removed([x], t) == [x] + Removed([], t); }
    } else {
      assert (s + [x])[1..] == s[1..] + [x];
      assert s == [s[0]] + s[1..];
      RemovedAppend(s[1..], x, t);
    }
  }

  lemma {:induction false} RemovedAbsent(s: seq<string>, t: string)
    requires t !in s
    ensures Removed(s, t) == s
  {
    if s != [] { RemovedAbsent(s[1..], t); }
  }

  lemma LastNAppend(s: seq<string>, n: nat, t: string)
    ensures LastN(LastN(s, n) + [t], n) == LastN(s + [t], n)
  {
  }

  lemma LastNDistinct(s: seq<string>, n: nat)
    requires Distinct(s)
    ensures Distinct(LastN(s, n)) && Within(LastN(s, n), s)
  {
  }

  lemma LogAppend(log: seq<Entry>, e: Entry)
    ensures Submitted(log + [e]) == Submitted(log) + if e.Accepted? then [e.token] else []
    ensures Confirmations(log + [e]) == Confirmations(log) + if e.Retirement? then [e.token] else []
  {
    assert (log + [e])[..|log|] == log;
  }

  lemma DistinctAppend(s: seq<string>, t: string)
    requires Distinct(s) && t !in s
    ensures Distinct(s + [t])
  {
  }

  // --- Every request keeps the queue sound ----------------------------------------

  lemma LogKeepsJob(p: Printer, log: seq<Entry>, e: Entry, t: string)
    requires JobSound(p, log, t)
    ensures JobSound(p, log + [e], t)
  {
    assert forall x :: x in log ==> x in log + [e];
    if t in p.history {
      var v := p.jobs[t].verdict.value;
      var x :| x in log && x.Retirement? && x.token == t && VerdictOf(x.code) == v;
      assert x in log + [e];
    }
  }

  lemma CheckKeepsSound(p: Printer, log: seq<Entry>, mac: string, adopt: bool)
    requires Sound(p, log)
    ensures Sound(AfterCheck(p, mac, adopt), log)
  {
    var q := AfterCheck(p, mac, adopt);
    forall t | t in q.jobs ensures JobSound(q, log, t) { assert JobSound(p, log, t); }
  }

  lemma EnqueueKeepsSound(p: Printer, log: seq<Entry>, token: string, types: seq<string>, bytes: seq<byte>)
    requires Sound(p, log) && token !in Submitted(log) && types != [] && |p.pending| < p.maxPending
    ensures Sound(Enqueued(p, token, types, bytes), log + [Accepted(token, bytes)])
  {
    var e := Accepted(token, bytes);
    var q, log' := Enqueued(p, token, types, bytes), log + [e];
    LogAppend(log, e);
    DistinctAppend(Submitted(log), token);
    assert Submitted(log')[..|Submitted(log)|] == Submitted(log);
    assert Confirmations(log') == Confirmations(log);
    WithoutIff(Submitted(log), Confirmations(log), token);
    LastNDistinct(Confirmations(log), p.maxHistory);
    assert token !in p.history;
    forall t | t in q.jobs ensures JobSound(q, log', t) {
      if t == token { assert e in log'; } else { LogKeepsJob(p, log, e, t); assert JobSound(p, log', t); }
    }
    forall t ensures t in q.jobs <==> t in q.pending || t in q.history {
    }
  }

  lemma DeliverKeepsSound(p: Printer, log: seq<Entry>, token: string)
    requires Sound(p, log) && token in p.jobs
    ensures Sound(Delivered(p, token), log)
  {
    var q := Delivered(p, token);
    forall t | t in q.jobs ensures JobSound(q, log, t) { assert JobSound(p, log, t); }
  }

  // The queue without the confirmed job, the history with it at the end.
  lemma RetireQueues(p: Printer, log: seq<Entry>, token: string, code: Option<nat>)
    requires Sound(p, log) && token in p.pending
    ensures var log' := log + [Retirement(token, code)];
            var q := Retired(p, token, VerdictOf(code));
            && Distinct(Submitted(log')) && Distinct(Confirmations(log')) && Within(Confirmations(log'), Submitted(log'))
            && q.pending == Without(Submitted(log'), Confirmations(log')) && |q.pending| <= q.maxPending
            && q.history == LastN(Confirmations(log'), q.maxHistory)
  {
    var e := Retirement(token, code);
    LogAppend(log, e);
    WithoutIff(Submitted(log), Confirmations(log), token);
    DistinctAppend(Confirmations(log), token);
    WithoutOneMore(Submitted(log), Confirmations(log), token);
    LastNAppend(Confirmations(log), p.maxHistory, token);
    RemovedShrinks(p.pending, token);
    assert Submitted(log) + [] == Submitted(log);
  }

  lemma {:induction false} RemovedShrinks(s: seq<string>, t: string)
    ensures |Removed(s, t)| <= |s|
  {
    if s != [] && s[0] != t { RemovedShrinks(s[1..], t); }
  }

  lemma {:induction false} RemovedIff(s: seq<string>, t: string, x: string)
    requires Distinct(s)
    ensures x in Removed(s, t) <==> x in s && x != t
  {
    if s != [] {
      assert s == [s[0]] + s[1..];
      if s[0] != t { RemovedIff(s[1..], t, x); }
    }
  }

  // What eviction drops is exactly what falls off the front of the history.
  lemma EvictedIff(history: seq<string>, n: nat, t: string)
    requires Distinct(history)
    ensures t in LastN(history, n) <==> t in history && t !in history[..|history| - |LastN(history, n)|]
  {
    var k := |history| - |LastN(history, n)|;
    assert history == history[..k] + history[k..];
    assert LastN(history, n) == history[k..];
  }

  lemma RetireJobsAt(p: Printer, token: string, v: Verdict, t: string)
    requires Distinct(p.pending) && Distinct(p.history + [token]) && token in p.jobs
    requires t in p.jobs <==> t in p.pending || t in p.history
    requires !(t in p.pending && t in p.history)
    ensures var q := Retired(p, token, v); t in q.jobs <==> t in q.pending || t in q.history
  {
    RemovedIff(p.pending, token, t);
    EvictedIff(p.history + [token], p.maxHistory, t);
    var history := p.history + [token];
    assert t in history <==> t in p.history || t == token;
  }

  lemma RetireJobs(p: Printer, log: seq<Entry>, token: string, code: Option<nat>)
    requires Sound(p, log) && token in p.pending
    ensures var q := Retired(p, token, VerdictOf(code));
            && (forall t :: t in q.jobs <==> t in q.pending || t in q.history)
            && token !in q.pending
  {
    var q := Retired(p, token, VerdictOf(code));
    WithoutDistinct(Submitted(log), Confirmations(log));
    HistoryIsNotPending(p, log, token);
    LastNDistinct(Confirmations(log), p.maxHistory);
    DistinctAppend(p.history, token);
    forall t ensures t in q.jobs <==> t in q.pending || t in q.history {
      HistoryIsNotPending(p, log, t);
      RetireJobsAt(p, token, VerdictOf(code), t);
    }
    RemovedIff(p.pending, token, token);
  }

  lemma RetireKeepsJob(p: Printer, log: seq<Entry>, token: string, code: Option<nat>, t: string)
    requires Sound(p, log) && token in p.pending && t in Retired(p, token, VerdictOf(code)).jobs
    ensures JobSound(Retired(p, token, VerdictOf(code)), log + [Retirement(token, code)], t)
  {
    var e := Retirement(token, code);
    var q := Retired(p, token, VerdictOf(code));
    RetireJobs(p, log, token, code);
    assert JobSound(p, log, t);
    LogKeepsJob(p, log, e, t);
    WithoutDistinct(Submitted(log), Confirmations(log));
    RemovedIff(p.pending, token, t);
    EvictedIff(p.history + [token], p.maxHistory, t);
    if t == token { assert e in log + [e]; }
  }

  lemma RetireKeepsSound(p: Printer, log: seq<Entry>, token: string, code: Option<nat>)
    requires Sound(p, log) && token in p.pending
    ensures Sound(Retired(p, token, VerdictOf(code)), log + [Retirement(token, code)])
  {
    RetireQueues(p, log, token, code);
    RetireJobs(p, log, token, code);
    forall t | t in Retired(p, token, VerdictOf(code)).jobs
      ensures JobSound(Retired(p, token, VerdictOf(code)), log + [Retirement(token, code)], t)
    {
      RetireKeepsJob(p, log, token, code, t);
    }
  }

  predicate AllAdvertised(advertised: seq<string>, requested: seq<string>) {
    forall t :: t in requested && t != [] ==> t in advertised
  }

  predicate MayEnlist(p: Printer, requested: seq<string>, bytes: seq<byte>) {
    bytes != [] && |p.pending| < p.maxPending && AllAdvertised(p.mediaTypes, requested)
  }

  lemma EnqueueIsSound(p: Printer, log: seq<Entry>, issued: seq<string>, token: string, types: seq<string>, bytes: seq<byte>)
    requires QueueSound(p, log, issued) && token !in issued && types != [] && |p.pending| < p.maxPending
    ensures QueueSound(Enqueued(p, token, types, bytes), log + [Accepted(token, bytes)], issued + [token])
  {
    EnqueueKeepsSound(p, log, token, types, bytes);
    LogAppend(log, Accepted(token, bytes));
    assert (issued + [token])[|issued|] == token;
    WithinMore(Submitted(log), issued, issued + [token]);
  }

  lemma RetireIsSound(p: Printer, log: seq<Entry>, issued: seq<string>, token: string, code: Option<nat>)
    requires QueueSound(p, log, issued) && token in p.pending
    ensures QueueSound(Retired(p, token, VerdictOf(code)), log + [Retirement(token, code)], issued)
  {
    RetireKeepsSound(p, log, token, code);
    LogAppend(log, Retirement(token, code));
  }

  ghost predicate QueueSound(p: Printer, log: seq<Entry>, issued: seq<string>) {
    Sound(p, log) && Within(Submitted(log), issued)
  }

  ghost predicate AllSound(printers: map<string, Printer>, logs: map<string, seq<Entry>>, issued: seq<string>) {
    && logs.Keys == printers.Keys
    && forall id {:trigger QueueSound(printers[id], logs[id], issued)} :: id in printers ==> QueueSound(printers[id], logs[id], issued)
  }

  lemma MoveKeepsAllSound(printers: map<string, Printer>, logs: map<string, seq<Entry>>, issued: seq<string>, more: seq<string>,
                          id: string, p: Printer, log: seq<Entry>)
    requires AllSound(printers, logs, issued) && QueueSound(p, log, more) && issued <= more
    ensures AllSound(printers[id := p], logs[id := log], more)
  {
    forall x | x in printers && x != id ensures QueueSound(printers[x], logs[x], more) {
      assert QueueSound(printers[x], logs[x], issued);
      WithinMore(Submitted(logs[x]), issued, more);
    }
  }

  lemma WithinMore(s: seq<string>, issued: seq<string>, more: seq<string>)
    requires Within(s, issued) && issued <= more
    ensures Within(s, more)
  {
  }

  // --- One request on one printer's queue -----------------------------------------

  // The token a request names, or the head of the queue when it names none.
  function Wanted(p: Printer, token: string): Option<string> {
    if token != [] then Some(token) else if p.pending == [] then None else Some(p.pending[0])
  }

  // A download: an unconfirmed job answers with the bytes it was submitted with, as often
  // as it is asked for; the request is counted and consumes nothing.
  ghost predicate Fetched(p: Printer, log: seq<Entry>, token: string, mediaType: string, q: Printer, r: Response) {
    var t := Wanted(p, token);
    if t.None? || t.value !in p.pending || t.value !in p.jobs then r == NotFound && q == p
    else if mediaType == [] || mediaType == "*/*" || mediaType in p.jobs[t.value].mediaTypes then
      r.Download? && SubmittedAs(log, t.value, r.body) && q == Delivered(p, t.value)
    else r == BadMediaType && q == p
  }

  method FetchFrom(p: Printer, ghost log: seq<Entry>, token: string, mediaType: string) returns (q: Printer, r: Response)
    requires Sound(p, log)
    ensures Sound(q, log) && Fetched(p, log, token, mediaType, q, r)
  {
    var t := Wanted(p, token);
    if t.None? { return p, NotFound; }
    var wanted := t.value;
    RetainedOrOpen(p, log, wanted);
    if wanted !in p.jobs || p.jobs[wanted].verdict.Some? {
      HistoryIsNotPending(p, log, wanted);
      return p, NotFound;
    }
    var job := p.jobs[wanted];
    var negotiated := job.mediaTypes[0];
    if mediaType != [] && mediaType != "*/*" {
      if mediaType !in job.mediaTypes { return p, BadMediaType; }
      negotiated := mediaType;
    }
    DeliverKeepsSound(p, log, wanted);
    q := p.(jobs := p.jobs[wanted := job.(deliveries := job.deliveries + 1)]);
    return q, Download(negotiated, job.bytes);
  }

  // A confirmation: the first one retires the job and fixes its verdict, a repeated one
  // changes nothing and gets the same answer. With no history at all the source writes the
  // first answer from the job it has just erased, so nothing is said of that answer.
  predicate ConfirmedIn(p: Printer, token: string, code: Option<nat>, q: Printer, r: Response) {
    var t := Wanted(p, token);
    if t.None? || t.value !in p.jobs then r == NotFound && q == p
    else if t.value in p.history then
      r.Confirmed? && r.token == t.value && r.repeated && p.jobs[t.value].verdict == Some(r.verdict) && q == p
    else
      && (p.maxHistory > 0 ==> r == Confirmed(t.value, false, VerdictOf(code)))
      && t.value in p.pending && q == Retired(p, t.value, VerdictOf(code))
  }

  // What a confirmation adds to the log: its retirement, if it is the first.
  function LogAfterConfirm(p: Printer, log: seq<Entry>, token: string, code: Option<nat>): seq<Entry> {
    var t := Wanted(p, token);
    if t.Some? && t.value in p.jobs && t.value !in p.history then log + [Retirement(t.value, code)] else log
  }

  method ConfirmOn(p: Printer, ghost log: seq<Entry>, ghost issued: seq<string>, token: string, code: Option<nat>)
    returns (q: Printer, r: Response)
    requires QueueSound(p, log, issued)
    ensures QueueSound(q, LogAfterConfirm(p, log, token, code), issued)
    ensures ConfirmedIn(p, token, code, q, r)
  {
    q, r := p, NotFound;
    var t := Wanted(p, token);
    if t.None? || t.value !in p.jobs { return; }
    var wanted := t.value;
    RetainedOrOpen(p, log, wanted);
    HistoryIsNotPending(p, log, wanted);
    if p.jobs[wanted].verdict.Some? {
      r := Confirmed(wanted, true, p.jobs[wanted].verdict.value);
    } else {
      RetireIsSound(p, log, issued, wanted, code);
      q := RetireJob(p, wanted, VerdictOf(code));
      r := Confirmed(wanted, false, VerdictOf(code));
    }
  }

  // Drops the bytes, moves the token from the queue to the history, evicts the oldest.
  method RetireJob(p: Printer, token: string, v: Verdict) returns (q: Printer)
    requires token in p.jobs && |p.history| <= p.maxHistory
    ensures q == Retired(p, token, v)
  {
    var jobs := p.jobs[token := p.jobs[token].(verdict := Some(v), bytes := [])];
    var pending := Erase(p.pending, token);
    var history := p.history + [token];
    ghost var all, before := history, jobs;
    ghost var dropped := 0;
    while |history| > p.maxHistory
      invariant 0 <= dropped <= |all| && history == all[dropped..]
      invariant dropped == 0 || |history| >= p.maxHistory
      invariant jobs == before - Members(all[..dropped])
    {
      assert all[..dropped + 1] == all[..dropped] + [all[dropped]];
      assert Members(all[..dropped + 1]) == Members(all[..dropped]) + {history[0]};
      jobs := jobs - {history[0]};
      history := history[1..];
      dropped := dropped + 1;
    }
    assert history == LastN(all, p.maxHistory) && dropped == |all| - |history|;
    q := p.(pending := pending, history := history, jobs := jobs);
  }

  method Erase(s: seq<string>, t: string) returns (out: seq<string>)
    ensures out == Removed(s, t)
  {
    var i := 0;
    while i < |s| && s[i] != t
      invariant 0 <= i <= |s| && t !in s[..i]
    {
      i := i + 1;
    }
    RemovedBehind(s, t, i);
    if i == |s| { return s; }
    return s[..i] + s[i + 1..];
  }

  lemma {:induction false} RemovedBehind(s: seq<string>, t: string, i: nat)
    requires i <= |s| && t !in s[..i] && (i < |s| ==> s[i] == t)
    ensures Removed(s, t) == if i == |s| then s else s[..i] + s[i + 1..]
    decreases |s|
  {
    if i > 0 {
      assert s[0] == s[..i][0];
      assert s[1..][..i - 1] == s[..i][1..];
      RemovedBehind(s[1..], t, i - 1);
      assert s == [s[0]] + s[1..];
      assert i < |s| ==> s[..i] + s[i + 1..] == [s[0]] + (s[1..][..i - 1] + s[1..][i..]);
    }
  }

  lemma RetainedOrOpen(p: Printer, log: seq<Entry>, t: string)
    requires Sound(p, log)
    ensures t in p.jobs ==> (p.jobs[t].verdict.Some? <==> t in p.history) && (p.jobs[t].verdict.None? <==> t in p.pending)
    ensures t in p.jobs && t in p.pending ==> SubmittedAs(log, t, p.jobs[t].bytes) && p.jobs[t].mediaTypes != []
    ensures t !in p.jobs ==> t !in p.pending && t !in p.history
    ensures |p.history| <= p.maxHistory
  {
    if t in p.jobs { assert JobSound(p, log, t); }
  }

  lemma HistoryIsNotPending(p: Printer, log: seq<Entry>, t: string)
    requires Sound(p, log)
    ensures !(t in p.history && t in p.pending)
  {
    if t in p.history && t in p.pending {
      WithoutIff(Submitted(log), Confirmations(log), t);
      LastNDistinct(Confirmations(log), p.maxHistory);
    }
  }

  // The types asked for by name, in that order.
  function Named(requested: seq<string>): (named: seq<string>)
    ensures forall t :: t in named <==> t in requested && t != []
  {
    if requested == [] then []
    else
      assert requested == requested[..|requested| - 1] + [requested[|requested| - 1]];
      Named(requested[..|requested| - 1]) + if requested[|requested| - 1] != [] then [requested[|requested| - 1]] else []
  }

  // A job that names no type gets the first advertised one.
  function Negotiated(advertised: seq<string>, requested: seq<string>): seq<string>
    requires advertised != []
  {
    if Named(requested) == [] then [advertised[0]] else Named(requested)
  }

  // The types asked for, all of them advertised; None when one is not.
  method NegotiateTypes(advertised: seq<string>, requested: seq<string>) returns (types: Option<seq<string>>)
    requires advertised != []
    ensures types.Some? <==> AllAdvertised(advertised, requested)
    ensures types.Some? ==> types.value == Negotiated(advertised, requested)
  {
    var chosen := [];
    for i := 0 to |requested|
      invariant AllAdvertised(advertised, requested[..i]) && chosen == Named(requested[..i])
    {
      assert requested[..i + 1] == requested[..i] + [requested[i]];
      assert requested[..i + 1][..i] == requested[..i];
      if requested[i] != [] {
        if requested[i] !in advertised {
          assert requested[i] in requested;
          return None;
        }
        chosen := chosen + [requested[i]];
      }
    }
    assert requested[..|requested|] == requested;
    if |chosen| == 0 { chosen := [advertised[0]]; }
    return Some(chosen);
  }

  // A submission: accepted whole, at the end of the queue, under a token never issued
  // before -- or refused without a trace.
  predicate SubmittedTo(p: Printer, token: string, requested: seq<string>, bytes: seq<byte>, q: Printer, r: Response) {
    if MayEnlist(p, requested, bytes) && p.mediaTypes != [] then
      r == Enlisted(token) && q == Enqueued(p, token, Negotiated(p.mediaTypes, requested), bytes)
    else r == Refused && q == p
  }

  function LogAfterSubmit(p: Printer, log: seq<Entry>, token: string, requested: seq<string>, bytes: seq<byte>): seq<Entry> {
    if MayEnlist(p, requested, bytes) then log + [Accepted(token, bytes)] else log
  }

  method SubmitTo(p: Printer, ghost log: seq<Entry>, ghost issued: seq<string>, token: string, requested: seq<string>, bytes: seq<byte>)
    returns (q: Printer, r: Response)
    requires QueueSound(p, log, issued) && token !in issued
    ensures QueueSound(q, LogAfterSubmit(p, log, token, requested, bytes), issued + [token])
    ensures SubmittedTo(p, token, requested, bytes, q, r)
  {
    q, r := p, Refused;
    WithinMore(Submitted(log), issued, issued + [token]);
    if bytes == [] { return; }
    if |p.pending| >= p.maxPending { return; }
    var types := NegotiateTypes(p.mediaTypes, requested);
    if types.None? { return; }
    EnqueueIsSound(p, log, issued, token, types.value, bytes);
    q := p.(pending := p.pending + [token], jobs := p.jobs[token := Job(token, types.value, bytes, 0, None)]);
    r := Enlisted(token);
  }

  // What a poll is offered: the oldest unconfirmed submission.
  ghost predicate Offered(p: Printer, log: seq<Entry>, r: Response) {
    var queue := Without(Submitted(log), Confirmations(log));
    r.Offer? && r.offered == if queue == [] then None else Some(queue[0])
  }

  method CheckIdentity(p: Printer, ghost log: seq<Entry>, mac: string, adopt: bool) returns (q: Printer, ok: bool)
    requires Sound(p, log)
    ensures Sound(q, log) && q == AfterCheck(p, mac, adopt) && ok == Admits(p, mac, adopt)
  {
    CheckKeepsSound(p, log, mac, adopt);
    if mac == [] {
      if p.macPinned && adopt { return p.(refusals := p.refusals + 1), false; }
      return p, true;
    }
    if p.mac == [] {
      if !adopt { return p, true; }
      return p.(mac := mac), true;
    }
    if p.mac != mac { return p.(refusals := p.refusals + 1), false; }
    return p, true;
  }

  // --- The server -----------------------------------------------------------------

  // The i-th token carries the sequence number i.
  ghost predicate IssuedInOrder(issued: seq<string>, random: seq<nat>, sequence: nat) {
    && |issued| == |random| == sequence
    && forall i {:trigger issued[i]} :: 0 <= i < sequence ==> issued[i] == TokenText(random[i], i + 1)
  }

  lemma FreshToken(issued: seq<string>, random: seq<nat>, sequence: nat, bits: nat)
    requires IssuedInOrder(issued, random, sequence)
    ensures TokenText(bits, sequence + 1) !in issued
    ensures IssuedInOrder(issued + [TokenText(bits, sequence + 1)], random + [bits], sequence + 1)
  {
    if TokenText(bits, sequence + 1) in issued {
      var i :| 0 <= i < sequence && issued[i] == TokenText(bits, sequence + 1);
      TokensNeverRepeat(bits, sequence + 1, random[i], i + 1);
    }
  }

  // No token is ever issued twice.
  lemma IssuedAreDistinct(issued: seq<string>, random: seq<nat>, sequence: nat)
    requires IssuedInOrder(issued, random, sequence)
    ensures Distinct(issued)
  {
    forall i, j | 0 <= i < j < |issued| ensures issued[i] != issued[j] {
      if issued[i] == issued[j] { TokensNeverRepeat(random[i], i + 1, random[j], j + 1); }
    }
  }

  const DEFAULT_MEDIA_TYPE := "application/vnd.star.line"

  // A printer as it is registered: nothing queued, somewhere to queue it, a type to offer,
  // and its address pinned exactly when one was given.
  function Registered(mediaTypes: seq<string>, maxPending: nat, maxHistory: nat, mac: string): Printer {
    Printer(if mediaTypes == [] then [DEFAULT_MEDIA_TYPE] else mediaTypes, if maxPending == 0 then 1 else maxPending,
            maxHistory, mac, mac != [], 0, [], [], map[])
  }

  class CloudPrntServer {
    var printers: map<string, Printer>
    var sequence: nat
    ghost var logs: map<string, seq<Entry>>
    ghost var issued: seq<string>       // every token ever handed out, oldest first
    ghost var random: seq<nat>          // the random digits each was given

    // Every queue is sound, and every token is one of those issued, which are all distinct.
    ghost predicate Valid()
      reads this
    {
      && IssuedInOrder(issued, random, sequence)
      && AllSound(printers, logs, issued)
    }

    constructor ()
      ensures Valid() && printers == map[] && sequence == 0
    {
      printers, sequence, logs, issued, random := map[], 0, map[], [], [];
    }

    // An empty media list and a zero queue limit are filled in.
    method AddPrinter(id: string, mediaTypes: seq<string>, maxPending: nat, maxHistory: nat, mac: string) returns (ok: bool)
      requires Valid()
      modifies this
      ensures Valid() && issued == old(issued)
      ensures ok <==> id != [] && id !in old(printers)
      ensures !ok ==> printers == old(printers) && logs == old(logs)
      ensures ok ==> logs == old(logs)[id := []] && printers == old(printers)[id := Registered(mediaTypes, maxPending, maxHistory, mac)]
    {
      if id == [] || id in printers { return false; }
      var types := mediaTypes;
      if |types| == 0 { types := [DEFAULT_MEDIA_TYPE]; }
      var limit := maxPending;
      if limit == 0 { limit := 1; }
      var p := Printer(types, limit, maxHistory, mac, |mac| > 0, 0, [], [], map[]);
      EmptyIsSound(p, issued);
      MoveKeepsAllSound(printers, logs, issued, issued, id, p, []);
      printers, logs := printers[id := p], logs[id := []];
      return true;
    }

    method Commit(id: string, q: Printer, ghost log': seq<Entry>, ghost token: string, ghost bits: nat)
      requires Valid() && id in printers && token == TokenText(bits, sequence + 1)
      requires QueueSound(q, log', issued + [token])
      modifies this
      ensures Valid() && issued == old(issued) + [token] && sequence == old(sequence) + 1
      ensures printers == old(printers)[id := q] && logs == old(logs)[id := log']
    {
      FreshToken(issued, random, sequence, bits);
      MoveKeepsAllSound(printers, logs, issued, issued + [token], id, q, log');
      sequence, issued, random := sequence + 1, issued + [token], random + [bits];
      printers, logs := printers[id := q], logs[id := log'];
    }

    // `bits` is what the random engine produced.
    method Submit(id: string, requested: seq<string>, bytes: seq<byte>, bits: nat) returns (r: Response)
      requires Valid()
      modifies this
      ensures Valid()
      ensures id !in old(printers) ==> r == Refused && printers == old(printers) && logs == old(logs)
      ensures id in old(printers) ==>
                id in printers && id in logs && printers == old(printers)[id := printers[id]] && logs == old(logs)[id := logs[id]]
      ensures id in old(printers) ==>
                SubmittedTo(old(printers)[id], TokenText(bits, old(sequence) + 1), requested, bytes, printers[id], r)
      ensures id in old(printers) ==>
                logs[id] == LogAfterSubmit(old(printers)[id], old(logs)[id], TokenText(bits, old(sequence) + 1), requested, bytes)
      ensures r.Enlisted? ==> r.token !in old(issued) && issued == old(issued) + [r.token]
      ensures !r.Enlisted? ==> issued == old(issued)
    {
      if id !in printers { return Refused; }
      assert QueueSound(printers[id], logs[id], issued);
      var token := TokenText(bits, sequence + 1);
      FreshToken(issued, random, sequence, bits);
      var q, answer := SubmitTo(printers[id], logs[id], issued, token, requested, bytes);
      if answer.Enlisted? {
        Commit(id, q, LogAfterSubmit(printers[id], logs[id], token, requested, bytes), token, bits);
      } else {
        SameEntry(printers, id);
        SameEntry(logs, id);
      }
      return answer;
    }

    // Offers the head of the queue, the same one for as long as it is unconfirmed.
    method Poll(id: string, mac: string) returns (r: Response)
      requires Valid()
      modifies this
      ensures Valid() && logs == old(logs) && issued == old(issued)
      ensures id !in old(printers) ==> r == NotFound && printers == old(printers)
      ensures id in old(printers) ==> printers == old(printers)[id := AfterCheck(old(printers)[id], mac, true)]
      ensures id in old(printers) ==>
                if Admits(old(printers)[id], mac, true) then Offered(old(printers)[id], logs[id], r) else r == NotFound
    {
      if id !in printers { return NotFound; }
      assert QueueSound(printers[id], logs[id], issued);
      var p, ok := CheckIdentity(printers[id], logs[id], mac, true);
      MoveKeepsAllSound(printers, logs, issued, issued, id, p, logs[id]);
      SameEntry(logs, id);
      printers := printers[id := p];
      if !ok { return NotFound; }
      if |p.pending| == 0 { return Offer(None, p.mediaTypes); }
      RetainedOrOpen(p, logs[id], p.pending[0]);
      return Offer(Some(p.pending[0]), p.jobs[p.pending[0]].mediaTypes);
    }

    method FetchJob(id: string, token: string, mac: string, mediaType: string) returns (r: Response)
      requires Valid()
      modifies this
      ensures Valid() && logs == old(logs) && issued == old(issued)
      ensures id !in old(printers) ==> r == NotFound && printers == old(printers)
      ensures id in old(printers) ==> id in printers && printers == old(printers)[id := printers[id]]
      ensures id in old(printers) ==> var p := AfterCheck(old(printers)[id], mac, false);
                if Admits(old(printers)[id], mac, false) then Fetched(p, logs[id], token, mediaType, printers[id], r)
                else r == NotFound && printers[id] == p
    {
      if id !in printers { return NotFound; }
      assert QueueSound(printers[id], logs[id], issued);
      var p, ok := CheckIdentity(printers[id], logs[id], mac, false);
      r := NotFound;
      if ok { p, r := FetchFrom(p, logs[id], token, mediaType); }
      MoveKeepsAllSound(printers, logs, issued, issued, id, p, logs[id]);
      SameEntry(logs, id);
      printers := printers[id := p];
    }

    method Confirm(id: string, token: string, mac: string, code: Option<nat>) returns (r: Response)
      requires Valid()
      modifies this
      ensures Valid() && issued == old(issued)
      ensures id !in old(printers) ==> r == NotFound && printers == old(printers) && logs == old(logs)
      ensures id in old(printers) ==>
                id in printers && id in logs && printers == old(printers)[id := printers[id]] && logs == old(logs)[id := logs[id]]
      ensures id in old(printers) ==> var p := AfterCheck(old(printers)[id], mac, false);
                if Admits(old(printers)[id], mac, false) then
                  ConfirmedIn(p, token, code, printers[id], r) && logs[id] == LogAfterConfirm(p, old(logs)[id], token, code)
                else r == NotFound && printers[id] == p && logs[id] == old(logs)[id]
    {
      if id !in printers { return NotFound; }
      assert QueueSound(printers[id], logs[id], issued);
      var p, ok := CheckIdentity(printers[id], logs[id], mac, false);
      r := NotFound;
      ghost var log := logs[id];
      if ok {
        ghost var before := p;
        p, r := ConfirmOn(p, log, issued, token, code);
        log := LogAfterConfirm(before, log, token, code);
      }
      MoveKeepsAllSound(printers, logs, issued, issued, id, p, log);
      printers, logs := printers[id := p], logs[id := log];
    }
  }

  lemma EmptyIsSound(p: Printer, issued: seq<string>)
    requires p.mediaTypes != [] && p.pending == [] && p.history == [] && p.jobs == map[]
    ensures QueueSound(p, [], issued)
  {
    assert Submitted([]) == [] && Confirmations([]) == [];
  }

  lemma SameEntry<T>(m: map<string, T>, id: string)
    requires id in m
    ensures m[id := m[id]] == m
  {
  }

  // --- What a run of requests comes to --------------------------------------------

  // The queue is the submissions in order less the confirmed ones; it and the history are
  // disjoint and together are exactly what is retained.
  lemma QueueIsWhatIsOpen(p: Printer, log: seq<Entry>)
    requires Sound(p, log)
    ensures p.pending == Without(Submitted(log), Confirmations(log)) && |p.pending| <= p.maxPending
    ensures Members(p.pending) !! Members(p.history) && Members(p.pending) + Members(p.history) == p.jobs.Keys
    ensures forall t :: t in p.pending <==> t in Submitted(log) && t !in Confirmations(log)
  {
    forall t ensures !(t in p.history && t in p.pending) { HistoryIsNotPending(p, log, t); }
    forall t ensures t in p.pending <==> t in Submitted(log) && t !in Confirmations(log) {
      WithoutIff(Submitted(log), Confirmations(log), t);
    }
  }

  // The code a token was first -- and only -- confirmed with.
  lemma {:induction false} OneRetirementEach(log: seq<Entry>, a: Entry, b: Entry)
    requires Distinct(Confirmations(log)) && a in log && b in log && a.Retirement? && b.Retirement? && a.token == b.token
    ensures a == b
  {
    var n := |log| - 1;
    var prior := Confirmations(log[..n]);
    assert log == log[..n] + [log[n]];
    LogAppend(log[..n], log[n]);
    assert forall i :: 0 <= i < |prior| ==> Confirmations(log)[i] == prior[i];
    RetirementIsListed(log[..n], a);
    RetirementIsListed(log[..n], b);
    if log[n].Retirement? { assert Confirmations(log)[|prior|] == log[n].token; }
    if a in log[..n] && b in log[..n] { OneRetirementEach(log[..n], a, b); }
  }

  lemma {:induction false} RetirementIsListed(log: seq<Entry>, e: Entry)
    ensures e in log && e.Retirement? ==> e.token in Confirmations(log)
  {
    if log != [] {
      RetirementIsListed(log[..|log| - 1], e);
      assert log == log[..|log| - 1] + [log[|log| - 1]];
    }
  }

  // Only 200 is Done.
  lemma DoneIsTwoHundred(code: Option<nat>)
    ensures VerdictOf(code).disposition.outcome == OutcomeDone <==> code == Some(200)
  {
  }

  // A retained job is reported Done exactly when its one confirmation carried 200.
  lemma DoneIffConfirmedWith200(p: Printer, log: seq<Entry>, t: string)
    requires Sound(p, log) && t in p.jobs
    ensures (p.jobs[t].verdict.Some? && p.jobs[t].verdict.value.disposition.outcome == OutcomeDone)
            <==> t in p.history && Retirement(t, Some(200)) in log
  {
    assert JobSound(p, log, t);
    RetainedOrOpen(p, log, t);
    if t in p.history {
      var v := p.jobs[t].verdict.value;
      var e :| e in log && e.Retirement? && e.token == t && VerdictOf(e.code) == v;
      DoneIsTwoHundred(e.code);
      if Retirement(t, Some(200)) in log { OneRetirementEach(log, e, Retirement(t, Some(200))); }
    }
  }

  // The offer does not move while its job is unconfirmed: later submissions and the
  // confirmation of any other job leave the head of the queue where it is.
  lemma OfferIsStable(log: seq<Entry>, e: Entry)
    requires Without(Submitted(log), Confirmations(log)) != []
    requires Distinct(Submitted(log)) && Within(Confirmations(log), Submitted(log))
    requires if e.Accepted? then e.token !in Submitted(log) else e.token != Without(Submitted(log), Confirmations(log))[0]
    ensures var queue, next := Without(Submitted(log), Confirmations(log)), Without(Submitted(log + [e]), Confirmations(log + [e]));
            next != [] && next[0] == queue[0]
  {
    LogAppend(log, e);
    if e.Accepted? {
      var s := Submitted(log);
      assert Submitted(log + [e])[..|s|] == s;
      assert Confirmations(log + [e]) == Confirmations(log);
    } else {
      assert Submitted(log + [e]) == Submitted(log);
      WithoutOneMore(Submitted(log), Confirmations(log), e.token);
    }
  }

  // A confirmation repeated by its token changes nothing, and is answered with the verdict
  // of the first if and only if fewer than `maxHistory` others were confirmed since.
  lemma RepeatIsAnsweredIff(p: Printer, log: seq<Entry>, token: string, code: Option<nat>, q: Printer, r: Response)
    requires Sound(p, log) && token != [] && token in Confirmations(log) && ConfirmedIn(p, token, code, q, r)
    ensures q == p
    ensures if token in LastN(Confirmations(log), p.maxHistory)
            then r.Confirmed? && r.token == token && r.repeated && RetiredBy(log, token, r.verdict)
            else r == NotFound
  {
    WithoutIff(Submitted(log), Confirmations(log), token);
    if token in p.jobs { assert JobSound(p, log, token); }
  }

  // A confirmation without a token retires the head of the queue, whichever that is: it
  // changes nothing if and only if nothing is waiting.
  lemma TokenlessConfirmationChangesNothingIff(p: Printer, log: seq<Entry>, code: Option<nat>, q: Printer, r: Response)
    requires Sound(p, log) && ConfirmedIn(p, [], code, q, r)
    ensures q == p <==> p.pending == []
    ensures p.pending != [] ==> q == Retired(p, p.pending[0], VerdictOf(code)) && q.pending == p.pending[1..]
  {
    if p.pending != [] {
      var t := p.pending[0];
      assert t in p.pending;
      HistoryIsNotPending(p, log, t);
      assert |q.pending| == |p.pending| - 1;
    }
  }

  // Sent twice, it is idempotent if and only if at most one job was waiting; otherwise the
  // repeat retires the next one, though nobody confirmed it.
  lemma TokenlessConfirmationIsIdempotentIff(p: Printer, log: seq<Entry>, first: Option<nat>, q: Printer, r1: Response,
                                             second: Option<nat>, q2: Printer, r2: Response)
    requires Sound(p, log) && ConfirmedIn(p, [], first, q, r1) && ConfirmedIn(q, [], second, q2, r2)
    ensures q2 == q <==> |p.pending| <= 1
    ensures |p.pending| > 1 ==> q2.pending == p.pending[2..]
    ensures |p.pending| > 1 && p.maxHistory > 0 ==> r2 == Confirmed(p.pending[1], false, VerdictOf(second))
  {
    TokenlessConfirmationChangesNothingIff(p, log, first, q, r1);
    var after := log;
    if p.pending != [] {
      after := log + [Retirement(p.pending[0], first)];
      assert p.pending[0] in p.pending;
      RetireKeepsSound(p, log, p.pending[0], first);
    }
    TokenlessConfirmationChangesNothingIff(q, after, second, q2, r2);
    if |p.pending| > 1 {
      assert q.pending[0] in q.pending;
      HistoryIsNotPending(q, after, q.pending[0]);
      assert p.pending[1..][1..] == p.pending[2..];
    }
  }
}

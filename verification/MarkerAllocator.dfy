// Verification identifiers (core/src/driver.cpp, MarkerAllocator): four printable bytes,
// a two-byte instance nonce and a two-byte base-94 job sequence. A job holds an even
// sequence value for its print fence and the odd successor for its cut fence.

module Markers {
  import opened PrinterTypes

  const ALPHABET_FIRST := 0x21
  const ALPHABET_SIZE := 94
  const SEQUENCE_SPACE := 8836
  const PAIRS := 4418
  const UINT32 := 0x1_0000_0000
  const HALF := 0x8000_0000

  type Token = seq<byte>

  predicate InAlphabet(v: byte) { ALPHABET_FIRST <= v < ALPHABET_FIRST + ALPHABET_SIZE }

  type Nonce = n: seq<byte> | |n| == 2 && InAlphabet(n[0]) && InAlphabet(n[1]) witness [0x21, 0x21]

  function EncodeBase94(value: nat): (out: seq<byte>) {
    var wrapped := value % SEQUENCE_SPACE;
    [ALPHABET_FIRST + wrapped / ALPHABET_SIZE, ALPHABET_FIRST + wrapped % ALPHABET_SIZE]
  }

  predicate IsProcessId(t: Token) { |t| == 4 && forall i :: 0 <= i < 4 ==> 0x20 <= t[i] <= 0x7E }

  predicate IsOurs(nonce: Nonce, t: Token) { |t| == 4 && t[..2] == nonce }

  datatype Pair = Pair(printToken: Token, cutToken: Token)

  type uint32 = x: int | 0 <= x < UINT32

  // The pair a 32-bit slot counter names; both products wrap at 32 bits.
  function PairAt(nonce: Nonce, slot: uint32): Pair {
    Pair(nonce + EncodeBase94((slot * 2) % UINT32), nonce + EncodeBase94((slot * 2 + 1) % UINT32))
  }

  // The slot the i-th attempt of an acquire tries.
  function SlotAfter(next: uint32, i: nat): uint32 { (next + i) % UINT32 }

  lemma SlotAfterStep(next: uint32, i: nat)
    ensures SlotAfter(next, i + 1) == (SlotAfter(next, i) + 1) % UINT32
    ensures SlotAfter(next, 0) == next
  {
  }

  predicate Free(nonce: Nonce, inUse: set<Token>, slot: uint32) {
    PairAt(nonce, slot).printToken !in inUse && PairAt(nonce, slot).cutToken !in inUse
  }

  // The slot an acquire settles on: its i-th attempt, the first one free.
  predicate FirstFree(nonce: Nonce, inUse: set<Token>, next: uint32, i: nat) {
    && i < PAIRS
    && Free(nonce, inUse, SlotAfter(next, i))
    && (forall j :: 0 <= j < i ==> !Free(nonce, inUse, SlotAfter(next, j)))
  }

  predicate AllTaken(nonce: Nonce, inUse: set<Token>, next: uint32) {
    forall i :: 0 <= i < PAIRS ==> !Free(nonce, inUse, SlotAfter(next, i))
  }

  class MarkerAllocator {
    const nonce: Nonce
    var next: uint32
    var inUse: set<Token>

    constructor (nonce: Nonce)
      ensures this.nonce == nonce && next == 0 && inUse == {}
    {
      this.nonce := nonce;
      next, inUse := 0, {};
    }

    // None stands for the exception; `tries` counts the slots consumed.
    method Acquire() returns (pair: Option<Pair>, ghost tries: nat)
      modifies this
      ensures pair.None? <==> AllTaken(nonce, old(inUse), old(next))
      ensures pair.None? ==> tries == PAIRS && inUse == old(inUse)
      ensures pair.Some? ==> tries > 0 && FirstFree(nonce, old(inUse), old(next), tries - 1)
                             && pair.value == PairAt(nonce, SlotAfter(old(next), tries - 1))
                             && inUse == old(inUse) + {pair.value.printToken, pair.value.cutToken}
      ensures next == SlotAfter(old(next), tries)
    {
      var i := 0;
      tries := 0;
      SlotAfterStep(next, 0);
      while i < PAIRS
        invariant 0 <= i <= PAIRS && tries == i
        invariant next == SlotAfter(old(next), i) && inUse == old(inUse)
        invariant forall j :: 0 <= j < i ==> !Free(nonce, old(inUse), SlotAfter(old(next), j))
      {
        var slot := next;
        SlotAfterStep(old(next), i);
        next := (next + 1) % UINT32;
        tries := tries + 1;
        var candidate := PairAt(nonce, slot);
        if candidate.printToken !in inUse && candidate.cutToken !in inUse {
          inUse := inUse + {candidate.printToken, candidate.cutToken};
          assert Free(nonce, old(inUse), SlotAfter(old(next), i));
          return Some(candidate), tries;
        }
        i := i + 1;
      }
      return None, tries;
    }

    method Release(pair: Pair)
      modifies this
      ensures inUse == old(inUse) - {pair.printToken, pair.cutToken} && next == old(next)
    {
      inUse := inUse - {pair.printToken, pair.cutToken};
    }
  }

  // --- What a slot names ----------------------------------------------------------

  // The position of a slot's pair among the 4418 distinct ones.
  function Index(slot: nat): nat { slot % HALF % PAIRS }

  function TokenAt(nonce: Nonce, code: nat): Token { nonce + EncodeBase94(code) }

  function PairOf(nonce: Nonce, p: nat): Pair { Pair(TokenAt(nonce, 2 * p), TokenAt(nonce, 2 * p + 1)) }

  lemma ModuloIs(x: int, q: int, m: int, r: int)
    requires m > 0 && x == m * q + r && 0 <= r < m
    ensures x % m == r
  {
    if x / m < q { MulMonotone(m, x / m + 1, q); }
    if x / m > q { MulMonotone(m, q + 1, x / m); }
  }

  lemma MulMonotone(m: int, a: int, b: int)
    requires m > 0 && a <= b
    ensures m * a <= m * b
  {
    assert m * (b - a) >= 0;
  }

  lemma IndexIsHalfTheCode(slot: uint32)
    ensures (slot * 2) % UINT32 % SEQUENCE_SPACE == 2 * Index(slot)
    ensures (slot * 2 + 1) % UINT32 % SEQUENCE_SPACE == 2 * Index(slot) + 1
  {
    var h := slot % HALF;
    var q := slot / HALF;
    ModuloIs(slot * 2, q, UINT32, 2 * h);
    ModuloIs(slot * 2 + 1, q, UINT32, 2 * h + 1);
    ModuloIs(2 * h, h / PAIRS, SEQUENCE_SPACE, 2 * (h % PAIRS));
    ModuloIs(2 * h + 1, h / PAIRS, SEQUENCE_SPACE, 2 * (h % PAIRS) + 1);
  }

  // Base-94 codes below 8836 are told apart by their two bytes.
  lemma TokenAtIsInjective(nonce: Nonce, a: nat, b: nat)
    requires a < SEQUENCE_SPACE && b < SEQUENCE_SPACE
    ensures TokenAt(nonce, a) == TokenAt(nonce, b) <==> a == b
  {
    var s, t := TokenAt(nonce, a), TokenAt(nonce, b);
    assert s[2] == ALPHABET_FIRST + a / 94 && s[3] == ALPHABET_FIRST + a % 94;
    assert t[2] == ALPHABET_FIRST + b / 94 && t[3] == ALPHABET_FIRST + b % 94;
  }

  lemma TokenIsWellFormed(nonce: Nonce, code: nat)
    ensures IsProcessId(TokenAt(nonce, code)) && IsOurs(nonce, TokenAt(nonce, code))
  {
  }

  lemma EncodeSame(a: nat, b: nat)
    requires a % SEQUENCE_SPACE == b
    ensures EncodeBase94(a) == EncodeBase94(b)
  {
  }

  // Even code for the print fence, its odd successor for the cut fence, both valid
  // process identifiers carrying the nonce -- for every slot, the 32-bit wrap included.
  lemma PairIsWellFormed(nonce: Nonce, slot: uint32)
    ensures PairAt(nonce, slot) == PairOf(nonce, Index(slot))
    ensures var p := PairAt(nonce, slot);
            && IsProcessId(p.printToken) && IsProcessId(p.cutToken)
            && IsOurs(nonce, p.printToken) && IsOurs(nonce, p.cutToken)
  {
    var code := 2 * Index(slot);
    IndexIsHalfTheCode(slot);
    EncodeSame((slot * 2) % UINT32, code);
    EncodeSame((slot * 2 + 1) % UINT32, code + 1);
    assert PairAt(nonce, slot) == PairOf(nonce, Index(slot));
    TokenIsWellFormed(nonce, code);
    TokenIsWellFormed(nonce, code + 1);
  }

  // Two positions share a token exactly when they are the same position.
  lemma PairsShareNoToken(nonce: Nonce, p: nat, q: nat)
    requires p < PAIRS && q < PAIRS && p != q
    ensures {PairOf(nonce, p).printToken, PairOf(nonce, p).cutToken} !! {PairOf(nonce, q).printToken, PairOf(nonce, q).cutToken}
  {
    TokenAtIsInjective(nonce, 2 * p, 2 * q);
    TokenAtIsInjective(nonce, 2 * p, 2 * q + 1);
    TokenAtIsInjective(nonce, 2 * p + 1, 2 * q);
    TokenAtIsInjective(nonce, 2 * p + 1, 2 * q + 1);
  }

  // --- Completeness of acquire ----------------------------------------------------

  // The 4418 slots an acquire may try do not cross a multiple of 2^31, where 2*slot wraps.
  predicate NoWrap(next: uint32) { next % HALF + PAIRS <= HALF }

  lemma SlotIndex(next: uint32, i: nat)
    requires i < PAIRS
    ensures Index(SlotAfter(next, i))
            == (if next % HALF + i < HALF then (next % HALF + i) % PAIRS else next % HALF + i - HALF)
  {
    var h, q := next % HALF, next / HALF;
    var s := SlotAfter(next, i);
    var k := (next + i) / UINT32;
    if h + i < HALF {
      ModuloIs(s, q - 2 * k, HALF, h + i);
    } else {
      ModuloIs(s, q + 1 - 2 * k, HALF, h + i - HALF);
    }
  }

  // Away from the wrap every one of the 4418 pairs is tried.
  lemma WindowReachesEveryPair(next: uint32, p: nat) returns (i: nat)
    requires NoWrap(next) && p < PAIRS
    ensures i < PAIRS && Index(SlotAfter(next, i)) == p
  {
    var h := next % HALF;
    var r := h % PAIRS;
    i := if r <= p then p - r else p - r + PAIRS;
    SlotIndex(next, i);
    ModuloIs(h + i, if r <= p then h / PAIRS else h / PAIRS + 1, PAIRS, p);
  }

  // Across the wrap some pair is never tried; 2^31 == 4418 * 486075 + 4298.
  lemma WindowMissesAPair(next: uint32) returns (p: nat)
    requires !NoWrap(next)
    ensures p < PAIRS && forall i :: 0 <= i < PAIRS ==> Index(SlotAfter(next, i)) != p
  {
    var h := next % HALF;
    var before := HALF - h;
    p := if before <= 4298 then 4417 else 4298;
    forall i | 0 <= i < PAIRS ensures Index(SlotAfter(next, i)) != p {
      SlotIndex(next, i);
      if i < before {
        var d := 4298 - before + i;
        if d >= 0 { ModuloIs(h + i, 486075, PAIRS, d); }
        else { ModuloIs(h + i, 486074, PAIRS, d + PAIRS); }
      }
    }
  }

  predicate Below(p: nat, n: nat) { p < n }

  function Positions(n: nat): (s: set<nat>)
    ensures forall p :: p in s <==> Below(p, n)
    ensures |s| == n
  {
    if n == 0 then {} else Positions(n - 1) + {n - 1}
  }

  // Some pair not held is tried whatever the holdings -- exactly when the window does not wrap.
  lemma AcquireIsCompleteIff(next: uint32)
    ensures NoWrap(next) <==>
            forall held: set<nat> :: held < Positions(PAIRS) ==> exists i :: 0 <= i < PAIRS && Index(SlotAfter(next, i)) !in held
  {
    if NoWrap(next) {
      forall held: set<nat> | held < Positions(PAIRS)
        ensures exists i :: 0 <= i < PAIRS && Index(SlotAfter(next, i)) !in held
      {
        var p :| p in Positions(PAIRS) && p !in held;
        assert Below(p, PAIRS);
        var i := WindowReachesEveryPair(next, p);
      }
    } else {
      var p := WindowMissesAPair(next);
      var held := Positions(PAIRS) - {p};
      assert Below(p, PAIRS);
      assert held < Positions(PAIRS);
      forall i | 0 <= i < PAIRS ensures Index(SlotAfter(next, i)) in held {
        assert Below(Index(SlotAfter(next, i)), PAIRS);
      }
    }
  }

  const LAST := 4417

  // 2000 slots before the wrap everything but pair 4417 is tried.
  lemma RefusesBeforeTheWrap(nonce: Nonce, inUse: set<Token>)
    requires forall p :: 0 <= p < LAST ==> Holds(inUse, PairOf(nonce, p))
    ensures AllTaken(nonce, inUse, HALF - 2000)
  {
    var next: uint32 := HALF - 2000;
    forall i | 0 <= i < PAIRS ensures !Free(nonce, inUse, SlotAfter(next, i)) {
      SlotIndex(next, i);
      if i < 2000 { ModuloIs(next + i, 486075, PAIRS, 2298 + i); }
      PairIsWellFormed(nonce, SlotAfter(next, i));
    }
  }

  // The positions of which some token is outstanding.
  function Taken(nonce: Nonce, inUse: set<Token>): set<nat> {
    set p | p in Positions(PAIRS) && Holds(inUse, PairOf(nonce, p))
  }

  // Away from the wrap acquire throws if and only if all 4418 pairs are outstanding.
  lemma AcquireThrowsIffExhausted(nonce: Nonce, inUse: set<Token>, next: uint32)
    requires NoWrap(next)
    ensures AllTaken(nonce, inUse, next) <==> |Taken(nonce, inUse)| == PAIRS
  {
    var held := Taken(nonce, inUse);
    forall i | 0 <= i < PAIRS
      ensures Free(nonce, inUse, SlotAfter(next, i)) <==> Index(SlotAfter(next, i)) !in held
    {
      PairIsWellFormed(nonce, SlotAfter(next, i));
      assert Below(Index(SlotAfter(next, i)), PAIRS);
    }
    assert held <= Positions(PAIRS);
    if held != Positions(PAIRS) {
      ProperSubsetIsSmaller(held, Positions(PAIRS));
      AcquireIsCompleteIff(next);
    } else {
      forall i | 0 <= i < PAIRS ensures !Free(nonce, inUse, SlotAfter(next, i)) {
        assert Below(Index(SlotAfter(next, i)), PAIRS);
      }
    }
  }

  lemma ProperSubsetIsSmaller(a: set<nat>, b: set<nat>)
    requires a < b
    ensures |a| < |b|
  {
    assert |b| == |b - a| + |a| by { assert b == (b - a) + a; }
    var x :| x in b && x !in a;
    assert x in b - a;
  }

  // --- Outstanding pairs are disjoint; late echoes name nobody else ---------------

  function TokensOf(pair: Pair): set<Token> { {pair.printToken, pair.cutToken} }

  predicate Holds(inUse: set<Token>, pair: Pair) { pair.printToken in inUse || pair.cutToken in inUse }

  function Granted(inUse: set<Token>, pair: Pair): set<Token> { inUse + {pair.printToken, pair.cutToken} }

  lemma GrantHolds(inUse: set<Token>, a: Pair, b: Pair)
    requires {a.printToken, a.cutToken} !! {b.printToken, b.cutToken}
    ensures Holds(Granted(inUse, a), b) <==> Holds(inUse, b)
  {
  }

  lemma GrantTakesOnePosition(nonce: Nonce, inUse: set<Token>, p: nat)
    requires p < PAIRS
    ensures Taken(nonce, Granted(inUse, PairOf(nonce, p))) == Taken(nonce, inUse) + {p}
  {
    var grown := Granted(inUse, PairOf(nonce, p));
    forall q | q in Positions(PAIRS)
      ensures Holds(grown, PairOf(nonce, q)) <==> Holds(inUse, PairOf(nonce, q)) || q == p
    {
      assert Below(q, PAIRS);
      if q != p {
        PairsShareNoToken(nonce, p, q);
        GrantHolds(inUse, PairOf(nonce, p), PairOf(nonce, q));
      }
    }
    assert Below(p, PAIRS);
  }

  lemma ReleaseUndoesGrant(inUse: set<Token>, pair: Pair)
    requires !Holds(inUse, pair)
    ensures Granted(inUse, pair) - {pair.printToken, pair.cutToken} == inUse
  {
  }

  // A grant takes a position nobody holds and disturbs no other holder.
  lemma LeasesStayDisjoint(nonce: Nonce, inUse: set<Token>, slot: uint32)
    requires Free(nonce, inUse, slot)
    ensures Index(slot) !in Taken(nonce, inUse)
    ensures Taken(nonce, Granted(inUse, PairAt(nonce, slot))) == Taken(nonce, inUse) + {Index(slot)}
  {
    PairIsWellFormed(nonce, slot);
    var p := Index(slot);
    assert PairAt(nonce, slot) == PairOf(nonce, p);
    assert !Holds(inUse, PairOf(nonce, p));
    GrantTakesOnePosition(nonce, inUse, p);
  }

  // Counted without end, as the 32-bit counter cannot, and named as it names them.
  function PairNamed(nonce: Nonce, slot: nat): Pair { PairAt(nonce, slot % UINT32) }

  // 2^31 == 4418 * 486075 + 4298: from one side of a multiple of 2^31 to the other a position
  // comes round after 4298 slots.
  const SHORT_ROUND := 4298

  predicate RoundIsShort(slot: int, later: int) { slot / HALF != later / HALF && later - slot == SHORT_ROUND }

  // Inside 4418 slots a late echo names no later job -- except across a multiple of 2^31,
  // at exactly 4298 slots.
  lemma NoReissueInWindowIff(nonce: Nonce, slot: nat, later: nat)
    requires slot < later < slot + PAIRS
    ensures TokensOf(PairNamed(nonce, slot)) !! TokensOf(PairNamed(nonce, later)) <==> !RoundIsShort(slot, later)
    ensures RoundIsShort(slot, later) ==> PairNamed(nonce, slot) == PairNamed(nonce, later)
  {
    PairIsWellFormed(nonce, slot % UINT32);
    PairIsWellFormed(nonce, later % UINT32);
    IndexOfNamed(slot);
    IndexOfNamed(later);
    SamePositionIff(slot, later);
    if Index(slot) != Index(later) { PairsShareNoToken(nonce, Index(slot), Index(later)); }
    if Index(slot) == Index(later) { assert PairNamed(nonce, slot).printToken in TokensOf(PairNamed(nonce, later)); }
  }

  // So it happens: every slot of the 4298 before 2^31 is reissued 4298 slots on.
  lemma ShortRoundReissues(nonce: Nonce, slot: nat)
    requires HALF - SHORT_ROUND <= slot < HALF
    ensures PairNamed(nonce, slot) == PairNamed(nonce, slot + SHORT_ROUND)
  {
    NoReissueInWindowIff(nonce, slot, slot + SHORT_ROUND);
  }

  lemma IndexOfNamed(slot: nat)
    ensures Index(slot % UINT32) == Index(slot)
  {
    var q, h := slot / HALF, slot % HALF;
    ModuloIs(slot % UINT32, q - 2 * (slot / UINT32), HALF, h);
  }

  lemma SamePositionIff(slot: nat, later: nat)
    requires slot < later < slot + PAIRS
    ensures Index(slot) == Index(later) <==> RoundIsShort(slot, later)
  {
    var q, h, d := slot / HALF, slot % HALF, later - slot;
    if h + d < HALF {
      ModuloIs(later, q, HALF, h + d);
    } else {
      ModuloIs(later, q + 1, HALF, h + d - HALF);
      var x := HALF - h;
      if x <= SHORT_ROUND { ModuloIs(h, 486075, PAIRS, SHORT_ROUND - x); }
      else { ModuloIs(h, 486074, PAIRS, SHORT_ROUND + PAIRS - x); }
    }
  }

  // --- Leases across all printers of one driver -----------------------------------

  datatype LeaseOp = Grant(job: nat) | Refuse | GiveBack(job: nat)

  // The allocator and the pairs its jobs hold, whatever printer they run on.
  datatype Leases = Leases(next: uint32, inUse: set<Token>, held: map<nat, Pair>)

  // One acquire or release, as MarkerAllocator's contracts describe them.
  ghost predicate LeaseStep(nonce: Nonce, s: Leases, op: LeaseOp, t: Leases) {
    match op
    case Grant(job) =>
      job !in s.held && exists i: nat :: FirstFree(nonce, s.inUse, s.next, i) && t == GrantedAt(nonce, s, job, i)
    case Refuse => AllTaken(nonce, s.inUse, s.next) && t == s.(next := SlotAfter(s.next, PAIRS))
    case GiveBack(job) =>
      job in s.held && t == s.(inUse := s.inUse - TokensOf(s.held[job]), held := s.held - {job})
  }

  function GrantedAt(nonce: Nonce, s: Leases, job: nat, i: nat): Leases {
    var pair := PairAt(nonce, SlotAfter(s.next, i));
    Leases(SlotAfter(s.next, i + 1), Granted(s.inUse, pair), s.held[job := pair])
  }

  ghost predicate LeaseRun(nonce: Nonce, states: seq<Leases>, ops: seq<LeaseOp>) {
    && |states| == |ops| + 1 && states[0].held == map[] && states[0].inUse == {}
    && forall k :: 0 <= k < |ops| ==> LeaseStep(nonce, states[k], ops[k], states[k + 1])
  }

  ghost predicate LeasesDisjoint(s: Leases) {
    && (forall a :: a in s.held ==> TokensOf(s.held[a]) <= s.inUse)
    && (forall a, b :: a in s.held && b in s.held && a != b ==> TokensOf(s.held[a]) !! TokensOf(s.held[b]))
  }

  lemma LeaseStepKeepsDisjoint(nonce: Nonce, s: Leases, op: LeaseOp, t: Leases)
    requires LeasesDisjoint(s) && LeaseStep(nonce, s, op, t)
    ensures LeasesDisjoint(t)
  {
    if op.Grant? {
      var i: nat :| FirstFree(nonce, s.inUse, s.next, i) && t == GrantedAt(nonce, s, op.job, i);
      var pair := PairAt(nonce, SlotAfter(s.next, i));
      assert TokensOf(pair) !! s.inUse;
    }
  }

  // In every run of leases over any number of printers, no two outstanding jobs share a
  // token: an echo names at most one of them.
  lemma {:induction false} EchoNamesOneJob(nonce: Nonce, states: seq<Leases>, ops: seq<LeaseOp>, k: nat, token: Token, a: nat, b: nat)
    requires LeaseRun(nonce, states, ops) && k <= |ops|
    requires a in states[k].held && b in states[k].held
    requires token in TokensOf(states[k].held[a]) && token in TokensOf(states[k].held[b])
    ensures a == b
  {
    LeaseRunIsDisjoint(nonce, states, ops, k);
  }

  lemma {:induction false} LeaseRunIsDisjoint(nonce: Nonce, states: seq<Leases>, ops: seq<LeaseOp>, k: nat)
    requires LeaseRun(nonce, states, ops) && k <= |ops|
    ensures LeasesDisjoint(states[k])
  {
    if k > 0 {
      LeaseRunIsDisjoint(nonce, states, ops, k - 1);
      LeaseStepKeepsDisjoint(nonce, states[k - 1], ops[k - 1], states[k]);
    }
  }

  // The counter, counted without end.
  function Clock(states: seq<Leases>, k: nat): nat
    requires k < |states|
  {
    if k == 0 then states[0].next else Clock(states, k - 1) + (states[k].next - states[k - 1].next) % UINT32
  }

  function PairGranted(states: seq<Leases>, ops: seq<LeaseOp>, k: nat): Pair
    requires k < |ops| && |states| == |ops| + 1 && ops[k].Grant?
  {
    if ops[k].job in states[k + 1].held then states[k + 1].held[ops[k].job] else Pair([], [])
  }

  // The slot a grant settled on: the last one the counter passed.
  function SlotGranted(states: seq<Leases>, k: nat): int
    requires k + 1 < |states|
  {
    Clock(states, k + 1) - 1
  }

  lemma {:induction false} ClockIsTheCounter(states: seq<Leases>, k: nat)
    requires k < |states|
    ensures Clock(states, k) % UINT32 == states[k].next
  {
    if k > 0 {
      ClockIsTheCounter(states, k - 1);
      SumModulo(Clock(states, k - 1), states[k - 1].next, states[k].next);
    }
  }

  lemma SumModulo(clock: nat, a: uint32, b: uint32)
    requires clock % UINT32 == a
    ensures (clock + (b - a) % UINT32) % UINT32 == b
  {
    var q := clock / UINT32;
    if b >= a { ModuloIs(b - a, 0, UINT32, b - a); ModuloIs(clock + (b - a), q, UINT32, b); }
    else { ModuloIs(b - a, -1, UINT32, b - a + UINT32); ModuloIs(clock + (b - a + UINT32), q + 1, UINT32, b); }
  }

  lemma {:induction false} ClockRuns(states: seq<Leases>, k: nat, m: nat)
    requires k <= m < |states|
    ensures Clock(states, k) <= Clock(states, m)
    decreases m - k
  {
    if k < m { ClockRuns(states, k, m - 1); }
  }

  lemma GrantedTry(nonce: Nonce, s: Leases, op: LeaseOp, t: Leases) returns (i: nat)
    requires LeaseStep(nonce, s, op, t) && op.Grant?
    ensures i < PAIRS && t == GrantedAt(nonce, s, op.job, i)
  {
    i :| FirstFree(nonce, s.inUse, s.next, i) && t == GrantedAt(nonce, s, op.job, i);
  }

  // i + 1 slots on, the i-th try was the last.
  lemma ClockAfterTries(clock: nat, next: uint32, i: nat)
    requires clock % UINT32 == next && i < PAIRS
    ensures (SlotAfter(next, i + 1) - next) % UINT32 == i + 1 && SlotAfter(next, i) == (clock + i) % UINT32
  {
    var q := clock / UINT32;
    if next + i + 1 < UINT32 {
      ModuloIs(next + i + 1, 0, UINT32, next + i + 1);
    } else {
      ModuloIs(next + i + 1, 1, UINT32, next + i + 1 - UINT32);
      ModuloIs(i + 1 - UINT32, -1, UINT32, i + 1);
    }
    if next + i < UINT32 {
      ModuloIs(next + i, 0, UINT32, next + i);
      ModuloIs(clock + i, q, UINT32, next + i);
    } else {
      ModuloIs(next + i, 1, UINT32, next + i - UINT32);
      ModuloIs(clock + i, q + 1, UINT32, next + i - UINT32);
    }
  }

  lemma GrantNamesItsSlot(nonce: Nonce, states: seq<Leases>, ops: seq<LeaseOp>, k: nat)
    requires LeaseRun(nonce, states, ops) && k < |ops| && ops[k].Grant?
    ensures Clock(states, k) <= SlotGranted(states, k)
    ensures PairGranted(states, ops, k) == PairNamed(nonce, SlotGranted(states, k))
  {
    var i := GrantedTry(nonce, states[k], ops[k], states[k + 1]);
    ClockIsTheCounter(states, k);
    ClockAfterTries(Clock(states, k), states[k].next, i);
  }

  // In any run of leases: two pairs granted fewer than 4418 slots apart, however many held
  // slots either grant skipped and however often the counter wrapped, share no token --
  // unless 2^31 lies between them and they are exactly 4298 slots apart.
  lemma GrantsInWindowAreDisjointIff(nonce: Nonce, states: seq<Leases>, ops: seq<LeaseOp>, k: nat, m: nat)
    requires LeaseRun(nonce, states, ops) && k < m < |ops| && ops[k].Grant? && ops[m].Grant?
    requires SlotGranted(states, m) - SlotGranted(states, k) < PAIRS
    ensures 0 <= SlotGranted(states, k) < SlotGranted(states, m)
    ensures TokensOf(PairGranted(states, ops, k)) !! TokensOf(PairGranted(states, ops, m))
            <==> !RoundIsShort(SlotGranted(states, k), SlotGranted(states, m))
  {
    GrantNamesItsSlot(nonce, states, ops, k);
    GrantNamesItsSlot(nonce, states, ops, m);
    ClockRuns(states, k + 1, m);
    NoReissueInWindowIff(nonce, SlotGranted(states, k), SlotGranted(states, m));
  }

  lemma GrantedPairIsOurs(nonce: Nonce, states: seq<Leases>, ops: seq<LeaseOp>, k: nat)
    requires LeaseRun(nonce, states, ops) && k < |ops| && ops[k].Grant?
    ensures IsOurs(nonce, PairGranted(states, ops, k).printToken) && IsOurs(nonce, PairGranted(states, ops, k).cutToken)
  {
    GrantNamesItsSlot(nonce, states, ops, k);
    PairIsWellFormed(nonce, SlotGranted(states, k) % UINT32);
  }

  // --- A run into the refusal -----------------------------------------------------

  const UNUSED := Leases(0, {}, map[])

  lemma SlotBelowTheWrap(next: uint32, i: nat)
    requires next <= HALF && i <= PAIRS
    ensures SlotAfter(next, i) == next + i
  {
  }

  // What an allocator that started unused can come to.
  ghost predicate Reached(nonce: Nonce, s: Leases) {
    exists states, ops :: LeaseRun(nonce, states, ops) && states[0] == UNUSED && states[|ops|] == s
  }

  lemma ReachesOneMore(nonce: Nonce, s: Leases, op: LeaseOp, t: Leases)
    requires Reached(nonce, s) && LeaseStep(nonce, s, op, t)
    ensures Reached(nonce, t)
  {
    var states, ops :| LeaseRun(nonce, states, ops) && states[0] == UNUSED && states[|ops|] == s;
    var more, all := states + [t], ops + [op];
    forall k | 0 <= k < |all| ensures LeaseStep(nonce, more[k], all[k], more[k + 1]) {
      if k < |ops| { assert LeaseStep(nonce, states[k], ops[k], states[k + 1]); }
    }
    assert LeaseRun(nonce, more, all) && more[|all|] == t;
  }

  function GivenBack(s: Leases, job: nat): Leases
    requires job in s.held
  {
    s.(inUse := s.inUse - TokensOf(s.held[job]), held := s.held - {job})
  }

  // Jobs that come and go one at a time move the counter anywhere.
  lemma {:induction false} CounterReaches(nonce: Nonce, v: nat)
    requires v <= HALF
    ensures Reached(nonce, Leases(v, {}, map[]))
  {
    if v == 0 {
      assert LeaseRun(nonce, [UNUSED], []);
    } else {
      CounterReaches(nonce, v - 1);
      var s := Leases(v - 1, {}, map[]);
      var t := GrantedAt(nonce, s, 0, 0);
      SlotBelowTheWrap(v - 1, 1);
      assert FirstFree(nonce, s.inUse, s.next, 0);
      ReachesOneMore(nonce, s, Grant(0), t);
      assert GivenBack(t, 0) == Leases(v, {}, map[]);
      ReachesOneMore(nonce, t, GiveBack(0), GivenBack(t, 0));
    }
  }

  // 4418 slots further on the counter stands 2000 slots before the wrap.
  const BEFORE := HALF - 2000 - PAIRS

  function PositionAt(i: nat): nat { if i < 2120 then i + 2298 else i - 2120 }

  lemma PositionFollows(nonce: Nonce, i: nat)
    requires i < PAIRS
    ensures PairAt(nonce, BEFORE + i) == PairOf(nonce, PositionAt(i))
  {
    IndexBefore(i);
    PairIsWellFormed(nonce, BEFORE + i);
  }

  lemma IndexBefore(i: nat)
    requires i < PAIRS
    ensures Index(BEFORE + i) == PositionAt(i)
  {
    if i < 2120 { ModuloIs(BEFORE + i, 486074, PAIRS, i + 2298); } else { ModuloIs(BEFORE + i, 486075, PAIRS, i - 2120); }
  }

  predicate HoldsFirst(nonce: Nonce, inUse: set<Token>, n: nat) {
    forall i :: 0 <= i < PAIRS ==> (Holds(inUse, PairOf(nonce, PositionAt(i))) <==> i < n)
  }

  lemma OneHeldMore(nonce: Nonce, inUse: set<Token>, n: nat)
    requires HoldsFirst(nonce, inUse, n) && n < PAIRS
    ensures HoldsFirst(nonce, Granted(inUse, PairOf(nonce, PositionAt(n))), n + 1)
  {
    var pair := PairOf(nonce, PositionAt(n));
    forall i | 0 <= i < PAIRS ensures Holds(Granted(inUse, pair), PairOf(nonce, PositionAt(i))) <==> i < n + 1 {
      if i != n {
        PairsShareNoToken(nonce, PositionAt(n), PositionAt(i));
        GrantHolds(inUse, pair, PairOf(nonce, PositionAt(i)));
      }
    }
  }

  // From there, n jobs that come and stay, numbered from 0.
  ghost predicate IsFilled(nonce: Nonce, s: Leases, n: nat) {
    && Reached(nonce, s) && s.next == BEFORE + n && HoldsFirst(nonce, s.inUse, n)
    && (forall i :: i in s.held ==> i < n && s.held[i] == PairOf(nonce, PositionAt(i)))
    && (forall i :: 0 <= i < n ==> i in s.held)
  }

  lemma GrantedNext(nonce: Nonce, s: Leases, n: nat)
    requires s.next == BEFORE + n && n < PAIRS
    ensures GrantedAt(nonce, s, n, 0)
            == Leases(BEFORE + n + 1, Granted(s.inUse, PairOf(nonce, PositionAt(n))), s.held[n := PairOf(nonce, PositionAt(n))])
    ensures FirstFree(nonce, s.inUse, s.next, 0) <==> !Holds(s.inUse, PairOf(nonce, PositionAt(n)))
  {
    SlotBelowTheWrap(s.next, 0);
    SlotBelowTheWrap(s.next, 1);
    PositionFollows(nonce, n);
  }

  lemma {:induction false} FilledUp(nonce: Nonce, n: nat) returns (s: Leases)
    requires n <= PAIRS
    ensures IsFilled(nonce, s, n)
  {
    if n == 0 {
      CounterReaches(nonce, BEFORE);
      s := Leases(BEFORE, {}, map[]);
    } else {
      var t := FilledUp(nonce, n - 1);
      s := OneJobMore(nonce, t, n - 1);
    }
  }

  lemma OneJobMore(nonce: Nonce, s: Leases, n: nat) returns (t: Leases)
    requires IsFilled(nonce, s, n) && n < PAIRS
    ensures IsFilled(nonce, t, n + 1)
  {
    t := GrantedAt(nonce, s, n, 0);
    GrantedNext(nonce, s, n);
    OneHeldMore(nonce, s.inUse, n);
    ReachesOneMore(nonce, s, Grant(n), t);
  }

  lemma GiveBackHolds(inUse: set<Token>, a: Pair, b: Pair)
    requires TokensOf(a) !! TokensOf(b)
    ensures Holds(inUse - TokensOf(a), b) <==> Holds(inUse, b)
  {
  }

  lemma GivenBackIsFree(inUse: set<Token>, a: Pair)
    ensures !Holds(inUse - TokensOf(a), a)
  {
  }

  // From an unused allocator: acquire throws while the pair at position 4417 -- and no
  // other -- is free, because the counter stands 2000 slots before the wrap.
  lemma AcquireCanRefuseAFreePair(nonce: Nonce) returns (s: Leases)
    ensures Reached(nonce, s) && AllTaken(nonce, s.inUse, s.next)
    ensures forall p :: 0 <= p < PAIRS ==> (Holds(s.inUse, PairOf(nonce, p)) <==> p != LAST)
  {
    var full := FilledUp(nonce, PAIRS);
    s := GivenBack(full, 2119);
    ReachesOneMore(nonce, full, GiveBack(2119), s);
    forall p | 0 <= p < PAIRS ensures Holds(s.inUse, PairOf(nonce, p)) <==> p != LAST {
      assert PositionAt(if p < 2298 then p + 2120 else p - 2298) == p;
      if p != LAST {
        PairsShareNoToken(nonce, p, LAST);
        GiveBackHolds(full.inUse, PairOf(nonce, LAST), PairOf(nonce, p));
      } else {
        GivenBackIsFree(full.inUse, PairOf(nonce, LAST));
      }
    }
    RefusesBeforeTheWrap(nonce, s.inUse);
  }
}

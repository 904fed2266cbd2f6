// Text for the wire (core/src/code_page.cpp): UTF-8 decoding that resynchronises, the
// code-page lookup, and transliteration to one byte per character.

module CodePages {
  import opened PrinterTypes

  // --- RFC 3629 -------------------------------------------------------------------

  predicate IsScalar(c: nat) { c <= 0x10FFFF && !(0xD800 <= c <= 0xDFFF) }

  // The encoding of section 3 of RFC 3629.
  function Utf8Of(c: nat): (e: seq<byte>)
    requires IsScalar(c)
  {
    if c < 0x80 then [c]
    else if c < 0x800 then [0xC0 + c / 64, 0x80 + c % 64]
    else if c < 0x10000 then [0xE0 + c / 64 / 64, 0x80 + c / 64 % 64, 0x80 + c % 64]
    else [0xF0 + c / 64 / 64 / 64, 0x80 + c / 64 / 64 % 64, 0x80 + c / 64 % 64, 0x80 + c % 64]
  }

  // --- Decoding -------------------------------------------------------------------

  datatype Decoded = Decoded(scalar: Option<nat>, taken: nat)

  const MALFORMED := Decoded(None, 1)

  // How many continuation bytes a lead byte announces, and the bits it carries.
  function Extra(lead: byte): nat {
    if 0xC0 <= lead < 0xE0 then 1 else if 0xE0 <= lead < 0xF0 then 2 else if 0xF0 <= lead < 0xF8 then 3 else 0
  }

  function LeadBits(lead: byte): nat {
    if 0xC0 <= lead < 0xE0 then lead - 0xC0 else if 0xE0 <= lead < 0xF0 then lead - 0xE0
    else if 0xF0 <= lead < 0xF8 then lead - 0xF0 else 0
  }

  predicate IsContinuation(b: byte) { 0x80 <= b < 0xC0 }

  // The value after n continuation bytes.
  function Value(s: seq<byte>, n: nat): nat
    requires n < |s|
  {
    if n == 0 then LeadBits(s[0]) else Value(s, n - 1) * 64 + s[n] % 64
  }

  predicate Overlong(extra: nat, c: nat) {
    (extra == 1 && c < 0x80) || (extra == 2 && c < 0x800) || (extra == 3 && c < 0x10000)
  }

  function Decode(s: seq<byte>): (d: Decoded)
    requires s != []
    ensures 1 <= d.taken <= |s|
  {
    var extra := Extra(s[0]);
    if s[0] < 0x80 then Decoded(Some(s[0]), 1)
    else if extra == 0 || extra >= |s| then MALFORMED
    else if exists k :: 1 <= k <= extra && !IsContinuation(s[k]) then MALFORMED
    else if Overlong(extra, Value(s, extra)) || !IsScalar(Value(s, extra)) then MALFORMED
    else Decoded(Some(Value(s, extra)), extra + 1)
  }

  method DecodeUtf8(input: seq<byte>, index: nat) returns (scalar: Option<nat>, next: nat)
    requires index < |input|
    ensures index < next <= |input| && Decode(input[index..]) == Decoded(scalar, next - index)
  {
    ghost var s := input[index..];
    var lead := input[index];
    assert s[0] == lead;
    var extra: nat, codepoint: nat := 0, 0;
    if lead < 0x80 {
      return Some(lead), index + 1;
    } else if 0xC0 <= lead < 0xE0 {
      extra, codepoint := 1, lead - 0xC0;
    } else if 0xE0 <= lead < 0xF0 {
      extra, codepoint := 2, lead - 0xE0;
    } else if 0xF0 <= lead < 0xF8 {
      extra, codepoint := 3, lead - 0xF0;
    } else {
      return None, index + 1;
    }
    if index + extra >= |input| { return None, index + 1; }
    var i := 1;
    while i <= extra
      invariant 1 <= i <= extra + 1
      invariant forall k :: 1 <= k < i ==> IsContinuation(s[k])
      invariant codepoint == Value(s, i - 1)
    {
      var continuation := input[index + i];
      assert s[i] == continuation;
      if !IsContinuation(continuation) { return None, index + 1; }
      codepoint := codepoint * 64 + continuation % 64;
      i := i + 1;
    }
    if Overlong(extra, codepoint) || !IsScalar(codepoint) { return None, index + 1; }
    return Some(codepoint), index + extra + 1;
  }

  lemma ValueUnfolds(s: seq<byte>, n: nat)
    requires n < |s|
    ensures n == 1 ==> Value(s, n) == LeadBits(s[0]) * 64 + s[1] % 64
    ensures n == 2 ==> Value(s, n) == (LeadBits(s[0]) * 64 + s[1] % 64) * 64 + s[2] % 64
    ensures n == 3 ==> Value(s, n) == ((LeadBits(s[0]) * 64 + s[1] % 64) * 64 + s[2] % 64) * 64 + s[3] % 64
  {
    if n == 1 { assert Value(s, 0) == LeadBits(s[0]); }
    if n >= 2 { ValueUnfolds(s, n - 1); }
  }

  // Six bits appended and taken off again.
  lemma SixBits(v: nat, r: nat)
    requires r < 64
    ensures (v * 64 + r) / 64 == v && (v * 64 + r) % 64 == r
  {
  }

  lemma ContinuationBits(b: byte)
    requires IsContinuation(b)
    ensures 0x80 + b % 64 == b
  {
  }

  // What the lead and continuation bytes say is the encoding of the value they add up to.
  lemma TwoByteForm(s: seq<byte>)
    requires |s| >= 2 && Extra(s[0]) == 1 && IsContinuation(s[1]) && 0x80 <= Value(s, 1)
    ensures IsScalar(Value(s, 1)) && Utf8Of(Value(s, 1)) == s[..2]
  {
    ValueUnfolds(s, 1);
    SixBits(LeadBits(s[0]), s[1] % 64);
    assert s[..2] == [s[0], s[1]];
  }

  lemma ThreeByteForm(s: seq<byte>)
    requires |s| >= 3 && Extra(s[0]) == 2 && IsContinuation(s[1]) && IsContinuation(s[2])
    requires 0x800 <= Value(s, 2) && IsScalar(Value(s, 2))
    ensures Utf8Of(Value(s, 2)) == s[..3]
  {
    ValueUnfolds(s, 2);
    ContinuationBits(s[1]);
    ContinuationBits(s[2]);
    ThreeByteEncoding(LeadBits(s[0]), s[1] % 64, s[2] % 64);
    assert s[..3] == [s[0], s[1], s[2]];
  }

  lemma ThreeByteEncoding(lead: nat, a: nat, b: nat)
    requires lead < 16 && a < 64 && b < 64
    requires 0x800 <= (lead * 64 + a) * 64 + b && IsScalar((lead * 64 + a) * 64 + b)
    ensures Utf8Of((lead * 64 + a) * 64 + b) == [0xE0 + lead, 0x80 + a, 0x80 + b]
  {
    var u := lead * 64 + a;
    SixBits(lead, a);
    SixBits(u, b);
    var v := u * 64 + b;
    assert v / 64 == u && u / 64 == lead && v % 64 == b && u % 64 == a;
  }

  lemma FourByteForm(s: seq<byte>)
    requires |s| >= 4 && Extra(s[0]) == 3 && IsContinuation(s[1]) && IsContinuation(s[2]) && IsContinuation(s[3])
    requires 0x10000 <= Value(s, 3) && IsScalar(Value(s, 3))
    ensures Utf8Of(Value(s, 3)) == s[..4]
  {
    ValueUnfolds(s, 3);
    ContinuationBits(s[1]);
    ContinuationBits(s[2]);
    ContinuationBits(s[3]);
    FourByteEncoding(LeadBits(s[0]), s[1] % 64, s[2] % 64, s[3] % 64);
    assert s[..4] == [s[0], s[1], s[2], s[3]];
  }

  lemma FourByteEncoding(lead: nat, a: nat, b: nat, c: nat)
    requires lead < 8 && a < 64 && b < 64 && c < 64
    requires 0x10000 <= ((lead * 64 + a) * 64 + b) * 64 + c && IsScalar(((lead * 64 + a) * 64 + b) * 64 + c)
    ensures Utf8Of(((lead * 64 + a) * 64 + b) * 64 + c) == [0xF0 + lead, 0x80 + a, 0x80 + b, 0x80 + c]
  {
    var u := lead * 64 + a;
    var v := u * 64 + b;
    SixBits(lead, a);
    SixBits(u, b);
    SixBits(v, c);
    var w := v * 64 + c;
    assert w / 64 == v && v / 64 == u && u / 64 == lead;
    assert w % 64 == c && v % 64 == b && u % 64 == a;
  }

  // What decodes is the encoding of what it decodes to.
  lemma DecodedIsEncoded(s: seq<byte>)
    requires s != [] && Decode(s).scalar.Some?
    ensures IsScalar(Decode(s).scalar.value)
    ensures Utf8Of(Decode(s).scalar.value) == s[..Decode(s).taken]
  {
    var extra := Extra(s[0]);
    if s[0] < 0x80 {
    } else {
      assert forall k :: 1 <= k <= extra ==> IsContinuation(s[k]);
      if extra == 1 { TwoByteForm(s); }
      else if extra == 2 { ThreeByteForm(s); }
      else { FourByteForm(s); }
    }
  }

  lemma EncodedValue2(c: nat, s: seq<byte>)
    requires 0x80 <= c < 0x800 && Utf8Of(c) <= s
    ensures Extra(s[0]) == 1 && IsContinuation(s[1]) && Value(s, 1) == c
  {
    assert s[0] == Utf8Of(c)[0] && s[1] == Utf8Of(c)[1];
    ValueUnfolds(s, 1);
  }

  lemma EncodedValue3(c: nat, s: seq<byte>)
    requires 0x800 <= c < 0x10000 && IsScalar(c) && Utf8Of(c) <= s
    ensures Extra(s[0]) == 2 && IsContinuation(s[1]) && IsContinuation(s[2]) && Value(s, 2) == c
  {
    var e := Utf8Of(c);
    assert s[0] == e[0] && s[1] == e[1] && s[2] == e[2];
    ValueUnfolds(s, 2);
    assert s[1] % 64 == c / 64 % 64 && s[2] % 64 == c % 64;
    assert LeadBits(s[0]) * 64 + s[1] % 64 == c / 64;
  }

  lemma EncodedValue4(c: nat, s: seq<byte>)
    requires 0x10000 <= c && IsScalar(c) && Utf8Of(c) <= s
    ensures Extra(s[0]) == 3 && IsContinuation(s[1]) && IsContinuation(s[2]) && IsContinuation(s[3]) && Value(s, 3) == c
  {
    var e := Utf8Of(c);
    assert s[0] == e[0] && s[1] == e[1] && s[2] == e[2] && s[3] == e[3];
    ValueUnfolds(s, 3);
    Residue(c);
    Residue(c / 64);
    Residue(c / 64 / 64);
    var u := c / 64;
    var v := u / 64;
    assert LeadBits(s[0]) == v / 64;
    assert LeadBits(s[0]) * 64 + s[1] % 64 == v;
    assert v * 64 + s[2] % 64 == u;
  }

  lemma Residue(c: nat)
    ensures (0x80 + c % 64) % 64 == c % 64 && c / 64 * 64 + c % 64 == c
  {
  }

  // Every encoding decodes, whatever follows it.
  lemma EncodedDecodes(c: nat, s: seq<byte>)
    requires IsScalar(c) && Utf8Of(c) <= s
    ensures Decode(s) == Decoded(Some(c), |Utf8Of(c)|)
  {
    if c < 0x80 { assert s[0] == Utf8Of(c)[0]; }
    else if c < 0x800 { EncodedValue2(c, s); }
    else if c < 0x10000 { EncodedValue3(c, s); }
    else { EncodedValue4(c, s); }
  }

  // A scalar is returned, and its bytes consumed, exactly when those bytes are its
  // encoding; anything else costs one byte.
  lemma DecodeIff(s: seq<byte>, c: nat, n: nat)
    requires s != []
    ensures Decode(s) == Decoded(Some(c), n) <==> IsScalar(c) && Utf8Of(c) <= s && n == |Utf8Of(c)|
    ensures Decode(s).scalar.None? ==> Decode(s).taken == 1
  {
    if Decode(s) == Decoded(Some(c), n) { DecodedIsEncoded(s); }
    if IsScalar(c) && Utf8Of(c) <= s { EncodedDecodes(c, s); }
  }

  // --- The code page --------------------------------------------------------------

  // The high half of code page 852 as (codepoint, byte) pairs; any sorted table of
  // non-ASCII pairs will do.
  type Table = seq<(nat, byte)>

  predicate IsTable(t: Table) {
    && (forall i, j :: 0 <= i < j < |t| ==> t[i].0 < t[j].0)
    && (forall i :: 0 <= i < |t| ==> t[i].0 >= 0x80 && t[i].1 >= 0x80)
  }

  const FALLBACK: byte := 0x3F

  datatype CodePage = PC437 | PC850 | WPC1252 | PC852 | PC858

  predicate Maps(t: Table, c: nat, b: byte) { exists i :: 0 <= i < |t| && t[i] == (c, b) }

  // lower_bound, then a comparison.
  method LookupCp852(t: Table, c: nat) returns (found: Option<byte>)
    requires IsTable(t)
    ensures found.Some? ==> Maps(t, c, found.value)
    ensures found.None? ==> forall b: byte :: !Maps(t, c, b)
  {
    var low, high := 0, |t|;
    while low < high
      invariant 0 <= low <= high <= |t|
      invariant forall i :: 0 <= i < low ==> t[i].0 < c
      invariant forall i :: high <= i < |t| ==> t[i].0 >= c
    {
      var mid := (low + high) / 2;
      if t[mid].0 < c { low := mid + 1; } else { high := mid; }
    }
    if low == |t| || t[low].0 != c { return None; }
    assert t[low] == (c, t[low].1);
    return Some(t[low].1);
  }

  // The byte a codepoint has in the table, if any.
  function ByteIn(t: Table, c: nat): (b: Option<byte>)
    ensures b.Some? ==> Maps(t, c, b.value)
    ensures b.None? ==> forall v: byte :: !Maps(t, c, v)
  {
    if t == [] then None
    else if t[|t| - 1].0 == c then
      assert t[|t| - 1] == (c, t[|t| - 1].1);
      Some(t[|t| - 1].1)
    else
      MapsShorter(t, c);
      ByteIn(t[..|t| - 1], c)
  }

  lemma MapsShorter(t: Table, c: nat)
    requires t != [] && t[|t| - 1].0 != c
    ensures forall v: byte :: Maps(t, c, v) <==> Maps(t[..|t| - 1], c, v)
  {
    forall v: byte | Maps(t, c, v) ensures Maps(t[..|t| - 1], c, v) {
      var i :| 0 <= i < |t| && t[i] == (c, v);
      assert t[..|t| - 1][i] == (c, v);
    }
    forall v: byte | Maps(t[..|t| - 1], c, v) ensures Maps(t, c, v) {
      var i :| 0 <= i < |t| - 1 && t[..|t| - 1][i] == (c, v);
      assert t[i] == (c, v);
    }
  }

  lemma TableIsAFunction(t: Table, c: nat, a: byte, b: byte)
    requires IsTable(t) && Maps(t, c, a) && Maps(t, c, b)
    ensures a == b
  {
    var i :| 0 <= i < |t| && t[i] == (c, a);
    var j :| 0 <= j < |t| && t[j] == (c, b);
  }

  function ByteFor(t: Table, page: CodePage, scalar: Option<nat>): byte {
    if scalar.None? then FALLBACK
    else if scalar.value < 0x80 then scalar.value
    else if page == PC852 && ByteIn(t, scalar.value).Some? then ByteIn(t, scalar.value).value
    else FALLBACK
  }

  function Transliterate(t: Table, page: CodePage, s: seq<byte>): seq<byte> {
    if s == [] then []
    else [ByteFor(t, page, Decode(s).scalar)] + Transliterate(t, page, s[Decode(s).taken..])
  }

  method MapScalar(t: Table, page: CodePage, scalar: Option<nat>) returns (b: byte)
    requires IsTable(t)
    ensures b == ByteFor(t, page, scalar)
  {
    b := FALLBACK;
    if scalar.Some? {
      if scalar.value < 0x80 {
        b := scalar.value;
      } else if page == PC852 {
        var mapped := LookupCp852(t, scalar.value);
        if mapped.Some? {
          TableIsAFunction(t, scalar.value, mapped.value, ByteIn(t, scalar.value).value);
          b := mapped.value;
        }
      }
    }
  }

  method TransliterateText(t: Table, page: CodePage, utf8: seq<byte>) returns (out: seq<byte>)
    requires IsTable(t)
    ensures out == Transliterate(t, page, utf8)
  {
    out := [];
    var index := 0;
    while index < |utf8|
      invariant 0 <= index <= |utf8|
      invariant out + Transliterate(t, page, utf8[index..]) == Transliterate(t, page, utf8)
      decreases |utf8| - index
    {
      var scalar, next := DecodeUtf8(utf8, index);
      assert utf8[index..][next - index..] == utf8[next..];
      var b := MapScalar(t, page, scalar);
      AppendOne(out, b, Transliterate(t, page, utf8[next..]));
      out := out + [b];
      index := next;
    }
    assert utf8[|utf8|..] == [];
  }

  lemma AppendOne(out: seq<byte>, b: byte, rest: seq<byte>)
    ensures out + ([b] + rest) == (out + [b]) + rest
  {
  }

  // --- What transliteration keeps -------------------------------------------------

  // The text is a sequence of encodings, nothing malformed.
  predicate WellFormedText(s: seq<byte>) {
    s == [] || (Decode(s).scalar.Some? && WellFormedText(s[Decode(s).taken..]))
  }

  function EncodeAll(scalars: seq<nat>): seq<byte>
    requires forall c :: c in scalars ==> IsScalar(c)
  {
    if scalars == [] then [] else Utf8Of(scalars[0]) + EncodeAll(scalars[1..])
  }

  lemma {:induction false} NeverLengthens(t: Table, page: CodePage, s: seq<byte>)
    ensures |Transliterate(t, page, s)| <= |s|
    ensures s != [] ==> Transliterate(t, page, s) != []
  {
    if s != [] { NeverLengthens(t, page, s[Decode(s).taken..]); }
  }

  // More input behind a well-formed scalar does not change how it decodes.
  lemma DecodeIgnoresTheRest(a: seq<byte>, b: seq<byte>)
    requires a != [] && Decode(a).scalar.Some?
    ensures Decode(a + b) == Decode(a)
  {
    DecodedIsEncoded(a);
    var c := Decode(a).scalar.value;
    DecodeIff(a, c, Decode(a).taken);
    assert (a + b)[..Decode(a).taken] == a[..Decode(a).taken];
    EncodedDecodes(c, a + b);
  }

  // --- Exactly when transliteration distributes over concatenation ----------------

  // A character begun and not finished: the second byte of E0, ED, F0 and F4 is narrower
  // than a continuation byte, the others are free.
  predicate SecondByteFits(lead: byte, second: byte) {
    if lead == 0xE0 then 0xA0 <= second < 0xC0
    else if lead == 0xED then 0x80 <= second < 0xA0
    else if lead == 0xF0 then 0x90 <= second < 0xC0
    else if lead == 0xF4 then 0x80 <= second < 0x90
    else IsContinuation(second)
  }

  predicate Unfinished(s: seq<byte>) {
    && s != [] && 0xC2 <= s[0] <= 0xF4 && |s| <= Extra(s[0])
    && (|s| >= 2 ==> SecondByteFits(s[0], s[1]))
    && (|s| >= 3 ==> IsContinuation(s[2]))
  }

  // Some encoding continues these bytes.
  ghost predicate Begins(s: seq<byte>, c: nat) { IsScalar(c) && 0 < |s| < |Utf8Of(c)| && s == Utf8Of(c)[..|s|] }

  // The least scalar that finishes an unfinished character.
  function Finish(s: seq<byte>): int
    requires Unfinished(s)
  {
    var lead: int, n := s[0], |s|;
    if Extra(lead) == 1 then (lead - 0xC0) * 64
    else if Extra(lead) == 2 then ((lead - 0xE0) * 64 + SecondBits(s)) * 64
    else (((lead - 0xF0) * 64 + SecondBits(s)) * 64 + if n == 3 then s[2] - 0x80 else 0) * 64
  }

  // The bits of the second byte, or the least it may carry.
  function SecondBits(s: seq<byte>): (bits: nat)
    requires Unfinished(s) && Extra(s[0]) >= 2
    ensures bits < 64
  {
    if |s| >= 2 then s[1] - 0x80 else if s[0] == 0xE0 then 0x20 else if s[0] == 0xF0 then 0x10 else 0
  }

  lemma FinishTwo(lead: nat)
    requires 2 <= lead < 32
    ensures Utf8Of(lead * 64) == [0xC0 + lead, 0x80]
  {
  }

  lemma UnfinishedBegins(s: seq<byte>)
    requires Unfinished(s)
    ensures Finish(s) >= 0 && Begins(s, Finish(s))
  {
    var lead, n := s[0], |s|;
    if Extra(lead) == 1 {
      FinishTwo(lead - 0xC0);
    } else if Extra(lead) == 2 {
      ThreeByteEncoding(lead - 0xE0, SecondBits(s), 0);
    } else {
      FourByteEncoding(lead - 0xF0, SecondBits(s), if n == 3 then s[2] - 0x80 else 0, 0);
    }
  }

  lemma BeginsUnfinished(s: seq<byte>, c: nat)
    requires Begins(s, c)
    ensures Unfinished(s)
  {
    var e := Utf8Of(c);
    assert forall i :: 0 <= i < |s| ==> s[i] == e[i];
    if c >= 0x10000 { FourByteRange(c); } else if c >= 0x800 { ThreeByteRange(c); }
  }

  lemma ThreeByteRange(c: nat)
    requires 0x800 <= c < 0x10000 && IsScalar(c)
    ensures var e := Utf8Of(c); 0xE0 <= e[0] <= 0xEF && SecondByteFits(e[0], e[1]) && IsContinuation(e[2])
  {
    var u := c / 64;
    assert u == u / 64 * 64 + u % 64 && c == u * 64 + c % 64;
  }

  lemma FourByteRange(c: nat)
    requires 0x10000 <= c && IsScalar(c)
    ensures var e := Utf8Of(c); 0xF0 <= e[0] <= 0xF4 && SecondByteFits(e[0], e[1]) && IsContinuation(e[2]) && IsContinuation(e[3])
  {
    var u := c / 64;
    var v := u / 64;
    assert v == v / 64 * 64 + v % 64 && u == v * 64 + u % 64 && c == u * 64 + c % 64;
  }

  // Some position the decoder stops at begins a character the text does not finish.
  predicate EndsMidCharacter(a: seq<byte>) {
    a != [] && (Unfinished(a) || EndsMidCharacter(a[Decode(a).taken..]))
  }

  // What more bytes make into a character was the beginning of one.
  lemma CompletedWasUnfinished(a: seq<byte>, b: seq<byte>)
    requires a != [] && Decode(a).scalar.None? && Decode(a + b).scalar.Some?
    ensures Unfinished(a)
  {
    var c, n := Decode(a + b).scalar.value, Decode(a + b).taken;
    DecodeIff(a + b, c, n);
    if n <= |a| {
      assert (a + b)[..n] == a[..n];
      EncodedDecodes(c, a);
    } else {
      assert (a + b)[..n][..|a|] == a;
      BeginsUnfinished(a, c);
    }
  }

  // Where no character is left unfinished, what follows changes nothing.
  lemma DecodesAlone(a: seq<byte>, b: seq<byte>)
    requires a != [] && !Unfinished(a)
    ensures Decode(a + b) == Decode(a)
  {
    if Decode(a).scalar.Some? {
      DecodeIgnoresTheRest(a, b);
    } else if Decode(a + b).scalar.Some? {
      CompletedWasUnfinished(a, b);
    } else {
      DecodeIff(a, 0, 0);
      DecodeIff(a + b, 0, 0);
    }
  }

  lemma Associates(a: seq<byte>, b: seq<byte>, c: seq<byte>)
    ensures a + (b + c) == (a + b) + c
  {
  }

  lemma {:induction false} FinishedTextDistributes(t: Table, page: CodePage, a: seq<byte>, b: seq<byte>)
    requires !EndsMidCharacter(a)
    ensures Transliterate(t, page, a + b) == Transliterate(t, page, a) + Transliterate(t, page, b)
    decreases |a|
  {
    if a == [] {
      assert a + b == b;
    } else {
      var rest := a[Decode(a).taken..];
      FinishedTextDistributes(t, page, rest, b);
      TransliteratesOne(t, page, a, b);
      var one := [ByteFor(t, page, Decode(a).scalar)];
      Associates(one, Transliterate(t, page, rest), Transliterate(t, page, b));
    }
  }

  // The continuation of an unfinished character turns several bytes of output into one.
  lemma UnfinishedJoins(t: Table, page: CodePage, s: seq<byte>) returns (b: seq<byte>)
    requires Unfinished(s)
    ensures |Transliterate(t, page, s + b)| < |Transliterate(t, page, s)| + |Transliterate(t, page, b)|
  {
    UnfinishedBegins(s);
    var e := Utf8Of(Finish(s));
    b := e[|s|..];
    assert s + b == e;
    EncodedDecodes(Finish(s), e);
    assert e[|e|..] == [];
    NeverLengthens(t, page, s);
    NeverLengthens(t, page, b);
  }

  lemma {:induction false} MidCharacterJoins(t: Table, page: CodePage, a: seq<byte>) returns (b: seq<byte>)
    requires EndsMidCharacter(a)
    ensures |Transliterate(t, page, a + b)| < |Transliterate(t, page, a)| + |Transliterate(t, page, b)|
    decreases |a|
  {
    if Unfinished(a) {
      b := UnfinishedJoins(t, page, a);
    } else {
      b := MidCharacterJoins(t, page, a[Decode(a).taken..]);
      TransliteratesOne(t, page, a, b);
    }
  }

  // A first character that is not left unfinished is one byte, whatever follows.
  lemma TransliteratesOne(t: Table, page: CodePage, a: seq<byte>, b: seq<byte>)
    requires a != [] && !Unfinished(a)
    ensures var one, rest := [ByteFor(t, page, Decode(a).scalar)], a[Decode(a).taken..];
            Transliterate(t, page, a + b) == one + Transliterate(t, page, rest + b)
            && Transliterate(t, page, a) == one + Transliterate(t, page, rest)
  {
    var n := Decode(a).taken;
    DecodesAlone(a, b);
    assert (a + b)[n..] == a[n..] + b;
  }

  // Transliterating in two pieces is transliterating the whole, whatever the second piece,
  // if and only if the first does not end in the middle of a character.
  lemma DistributesIff(t: Table, page: CodePage, a: seq<byte>)
    ensures (forall b :: Transliterate(t, page, a + b) == Transliterate(t, page, a) + Transliterate(t, page, b))
            <==> !EndsMidCharacter(a)
  {
    if EndsMidCharacter(a) {
      var b := MidCharacterJoins(t, page, a);
    } else {
      forall b ensures Transliterate(t, page, a + b) == Transliterate(t, page, a) + Transliterate(t, page, b) {
        FinishedTextDistributes(t, page, a, b);
      }
    }
  }

  // Well-formed text never ends so.
  lemma {:induction false} WellFormedIsFinished(a: seq<byte>)
    requires WellFormedText(a)
    ensures !EndsMidCharacter(a)
    decreases |a|
  {
    if a != [] {
      DecodedIsEncoded(a);
      WellFormedIsFinished(a[Decode(a).taken..]);
    }
  }

  lemma DistributesAfterWellFormed(t: Table, page: CodePage, a: seq<byte>, b: seq<byte>)
    requires WellFormedText(a)
    ensures Transliterate(t, page, a + b) == Transliterate(t, page, a) + Transliterate(t, page, b)
  {
    WellFormedIsFinished(a);
    FinishedTextDistributes(t, page, a, b);
  }

  // A character cut in two becomes two question marks instead of one byte.
  lemma SplitCharacterIsLost(t: Table)
    requires ByteIn(t, 0xE1) == Some(0xA0)
    ensures EndsMidCharacter([0xC3])
    ensures Transliterate(t, PC852, [0xC3] + [0xA1]) == [0xA0]
    ensures Transliterate(t, PC852, [0xC3]) + Transliterate(t, PC852, [0xA1]) == [FALLBACK, FALLBACK]
  {
    var s: seq<byte> := [0xC3, 0xA1];
    assert [0xC3] + [0xA1] == s && Utf8Of(0xE1) == s;
    EncodedDecodes(0xE1, s);
    assert s[2..] == [];
    var l: seq<byte> := [0xC3];
    var r: seq<byte> := [0xA1];
    assert Decode(l) == MALFORMED && Decode(r) == MALFORMED;
    assert l[1..] == [] && r[1..] == [];
  }

  // Well-formed text becomes one byte a character.
  lemma {:induction false} OneByteACharacter(t: Table, page: CodePage, scalars: seq<nat>)
    requires forall c :: c in scalars ==> IsScalar(c)
    ensures WellFormedText(EncodeAll(scalars))
    ensures |Transliterate(t, page, EncodeAll(scalars))| == |scalars|
    ensures forall i :: 0 <= i < |scalars| ==> Transliterate(t, page, EncodeAll(scalars))[i] == ByteFor(t, page, Some(scalars[i]))
  {
    if scalars != [] {
      var s := EncodeAll(scalars);
      EncodedDecodes(scalars[0], s);
      assert s[Decode(s).taken..] == EncodeAll(scalars[1..]);
      OneByteACharacter(t, page, scalars[1..]);
    }
  }

  // An ASCII byte other than '?' is in the output exactly when it is in the input: no
  // control byte is ever made out of, or hidden in, a multi-byte character.
  lemma {:induction false} AsciiIsKept(t: Table, page: CodePage, s: seq<byte>, v: byte)
    requires IsTable(t) && v < 0x80 && v != FALLBACK
    ensures v in Transliterate(t, page, s) <==> v in s
  {
    if s != [] {
      var d := Decode(s);
      AsciiIsKept(t, page, s[d.taken..], v);
      assert s == s[..d.taken] + s[d.taken..];
      if d.scalar.Some? { DecodedIsEncoded(s); }
      else { assert s[..1] == [s[0]]; }
      FirstByte(t, page, s, v);
    }
  }

  lemma FirstByte(t: Table, page: CodePage, s: seq<byte>, v: byte)
    requires IsTable(t) && v < 0x80 && v != FALLBACK && s != []
    ensures ByteFor(t, page, Decode(s).scalar) == v <==> v in s[..Decode(s).taken]
  {
    var d := Decode(s);
    if d.scalar.Some? {
      DecodedIsEncoded(s);
      if d.scalar.value >= 0x80 {
        assert forall b :: b in Utf8Of(d.scalar.value) ==> b >= 0x80;
        if ByteIn(t, d.scalar.value).Some? {
          var i :| 0 <= i < |t| && t[i] == (d.scalar.value, ByteIn(t, d.scalar.value).value);
        }
      }
    } else {
      assert s[..1] == [s[0]];
    }
  }
}

// The text layer of the job journal (core/src/job_store.cpp): escaping, tab-separated
// fields, unsigned decimals and newline-separated records.

module JournalText {
  import opened PrinterTypes

  // --- Escaping -------------------------------------------------------------------

  function EscapeChar(c: char): string {
    if c == '\\' then ['\\', '\\']
    else if c == '\t' then ['\\', 't']
    else if c == '\n' then ['\\', 'n']
    else if c == '\r' then ['\\', 'r']
    else [c]
  }

  function Escaped(s: string): string {
    if s == [] then [] else EscapeChar(s[0]) + Escaped(s[1..])
  }

  function UnescapeChar(c: char): char {
    if c == 't' then '\t' else if c == 'n' then '\n' else if c == 'r' then '\r' else c
  }

  function Unescaped(s: string): string {
    if s == [] then []
    else if s[0] != '\\' || |s| == 1 then [s[0]] + Unescaped(s[1..])
    else [UnescapeChar(s[1])] + Unescaped(s[2..])
  }

  lemma ConcatAssociates(a: string, b: string, c: string)
    ensures a + (b + c) == (a + b) + c
  {
  }

  lemma {:induction false} EscapedConcat(a: string, b: string)
    ensures Escaped(a + b) == Escaped(a) + Escaped(b)
  {
    if a == [] {
      assert a + b == b;
    } else {
      EscapedConcat(a[1..], b);
      assert (a + b)[0] == a[0] && (a + b)[1..] == a[1..] + b;
      ConcatAssociates(EscapeChar(a[0]), Escaped(a[1..]), Escaped(b));
    }
  }

  method EscapeField(value: string) returns (out: string)
    ensures out == Escaped(value)
  {
    out := "";
    for i := 0 to |value|
      invariant out == Escaped(value[..i])
    {
      assert value[..i + 1] == value[..i] + [value[i]];
      EscapedConcat(value[..i], [value[i]]);
      assert Escaped([value[i]]) == EscapeChar(value[i]);
      out := out + EscapeChar(value[i]);
    }
    assert value[..|value|] == value;
  }

  method UnescapeField(value: string) returns (out: string)
    ensures out == Unescaped(value)
  {
    out := "";
    var i := 0;
    while i < |value|
      invariant 0 <= i <= |value|
      invariant out + Unescaped(value[i..]) == Unescaped(value)
    {
      UnescapedFrom(value, i);
      if value[i] != '\\' || i + 1 >= |value| {
        ConcatAssociates(out, [value[i]], Unescaped(value[i + 1..]));
        out := out + [value[i]];
        i := i + 1;
      } else {
        var c := UnescapeChar(value[i + 1]);
        ConcatAssociates(out, [c], Unescaped(value[i + 2..]));
        out := out + [c];
        i := i + 2;
      }
    }
    assert value[i..] == [] && out + [] == out;
  }

  // One character, or one escape, from position i on.
  lemma UnescapedFrom(s: string, i: nat)
    requires i < |s|
    ensures Unescaped(s[i..]) == if s[i] != '\\' || i + 1 >= |s| then [s[i]] + Unescaped(s[i + 1..])
                                 else [UnescapeChar(s[i + 1])] + Unescaped(s[i + 2..])
  {
    var rest := s[i..];
    assert rest[0] == s[i] && rest[1..] == s[i + 1..];
    if i + 1 < |s| { assert rest[1] == s[i + 1] && rest[2..] == s[i + 2..]; }
  }

  // Escaping loses nothing, for every string: tabs, newlines and backslashes included.
  lemma {:induction false} UnescapeEscape(s: string)
    ensures Unescaped(Escaped(s)) == s
  {
    if s != [] {
      UnescapeEscape(s[1..]);
      UnescapesOne(s[0], Escaped(s[1..]));
    }
  }

  lemma UnescapesOne(c: char, rest: string)
    ensures Unescaped(EscapeChar(c) + rest) == [c] + Unescaped(rest)
  {
    var e := EscapeChar(c);
    assert (e + rest)[|e|..] == rest;
  }

  // A field that can neither end a record nor start another field.
  predicate Plain(s: string) { forall i :: 0 <= i < |s| ==> s[i] != '\t' && s[i] != '\n' && s[i] != '\r' }

  // Text that stays within one line.
  predicate OneLine(s: string) { forall i :: 0 <= i < |s| ==> s[i] != '\n' && s[i] != '\r' }

  lemma {:induction false} EscapedIsPlain(s: string)
    ensures Plain(Escaped(s))
  {
    if s != [] { EscapedIsPlain(s[1..]); }
  }

  // --- Fields ---------------------------------------------------------------------

  function Split(s: string): (fields: seq<string>)
    ensures |fields| >= 1
  {
    if s == [] then [[]]
    else
      var rest := Split(s[1..]);
      if s[0] == '\t' then [[]] + rest else [[s[0]] + rest[0]] + rest[1..]
  }

  function Join(fields: seq<string>): string
    requires fields != []
  {
    if |fields| == 1 then fields[0] else fields[0] + ['\t'] + Join(fields[1..])
  }

  // What a split that has already cut `fields` and holds `current` will produce.
  function SplitFrom(fields: seq<string>, current: string, s: string): seq<string> {
    fields + [current + Split(s)[0]] + Split(s)[1..]
  }

  lemma SplitFromStart(s: string)
    ensures SplitFrom([], "", s) == Split(s)
  {
    assert "" + Split(s)[0] == Split(s)[0];
  }

  lemma SplitFromTab(fields: seq<string>, current: string, s: string)
    requires s != [] && s[0] == '\t'
    ensures SplitFrom(fields, current, s) == SplitFrom(fields + [current], "", s[1..])
  {
    assert current + [] == current;
    assert "" + Split(s[1..])[0] == Split(s[1..])[0];
    assert Split(s)[1..] == Split(s[1..]);
  }

  method SplitTabs(line: string) returns (fields: seq<string>)
    ensures fields == Split(line)
  {
    fields := [];
    var current := "";
    SplitFromStart(line);
    assert line[0..] == line;
    for i := 0 to |line|
      invariant SplitFrom(fields, current, line[i..]) == Split(line)
    {
      ghost var rest := line[i..];
      assert rest[1..] == line[i + 1..] && rest[0] == line[i];
      if line[i] == '\t' {
        SplitFromTab(fields, current, rest);
        fields := fields + [current];
        current := "";
      } else {
        assert current + ([line[i]] + Split(rest[1..])[0]) == (current + [line[i]]) + Split(rest[1..])[0];
        assert SplitFrom(fields, current, rest) == SplitFrom(fields, current + [line[i]], rest[1..]);
        current := current + [line[i]];
      }
    }
    assert line[|line|..] == [] && Split([]) == [[]];
    assert current + [] == current;
    fields := fields + [current];
  }

  lemma {:induction false} SplitField(f: string, rest: string)
    requires Plain(f)
    ensures Split(f + rest) == [f + Split(rest)[0]] + Split(rest)[1..]
  {
    if f == [] {
      assert f + rest == rest && f + Split(rest)[0] == Split(rest)[0];
    } else {
      SplitField(f[1..], rest);
      assert (f + rest)[1..] == f[1..] + rest;
      assert [f[0]] + (f[1..] + Split(rest)[0]) == f + Split(rest)[0];
    }
  }

  // Splitting undoes joining.
  lemma {:induction false} SplitJoin(fields: seq<string>)
    requires fields != [] && forall f :: f in fields ==> Plain(f)
    ensures Split(Join(fields)) == fields
  {
    if |fields| == 1 {
      SplitField(fields[0], []);
      assert fields[0] + [] == fields[0];
      assert Split([]) == [[]];
    } else {
      var rest := ['\t'] + Join(fields[1..]);
      SplitJoin(fields[1..]);
      assert rest[1..] == Join(fields[1..]);
      assert Split(rest) == [[]] + fields[1..];
      SplitField(fields[0], rest);
      assert fields[0] + rest == Join(fields);
      assert fields[0] + [] == fields[0];
    }
  }

  lemma {:induction false} JoinIsOneLine(fields: seq<string>)
    requires fields != [] && forall f :: f in fields ==> Plain(f)
    ensures OneLine(Join(fields))
  {
    assert fields[0] in fields;
    if |fields| > 1 { JoinIsOneLine(fields[1..]); }
  }

  // A record cut short keeps its leading fields whole and truncates at most the last one.
  lemma {:induction false} SplitTorn(fields: seq<string>, n: nat) returns (k: nat, m: nat)
    requires fields != [] && forall f :: f in fields ==> Plain(f)
    requires n <= |Join(fields)|
    ensures k < |fields| && m <= |fields[k]|
    ensures Split(Join(fields)[..n]) == fields[..k] + [fields[k][..m]]
    ensures n < |Join(fields)| ==> k < |fields| - 1 || m < |fields[k]|
  {
    var f := fields[0];
    if n <= |f| {
      k, m := 0, n;
      assert f in fields;
      assert Join(fields)[..n] == f[..n];
      SplitField(f[..n], []);
      assert f[..n] + [] == f[..n];
      assert Split([]) == [[]];
    } else {
      assert |fields| > 1;
      var tail := Join(fields[1..]);
      var cut := n - |f| - 1;
      k, m := SplitTorn(fields[1..], cut);
      k := k + 1;
      var rest := ['\t'] + tail[..cut];
      assert rest[1..] == tail[..cut];
      assert Join(fields)[..n] == f + rest;
      SplitField(f, rest);
      assert Split(rest) == [[]] + Split(tail[..cut]);
      assert f + [] == f;
    }
  }

  // --- Unsigned decimals ----------------------------------------------------------

  const UINT64 := 0x1_0000_0000_0000_0000
  type uint64 = x: int | 0 <= x < UINT64

  predicate IsDigit(c: char) { '0' <= c <= '9' }

  function DigitChar(d: nat): char
    requires d < 10
  {
    '0' + d as char
  }

  function DigitValue(c: char): nat
    requires IsDigit(c)
  {
    c as nat - '0' as nat
  }

  function Decimal(n: nat): string {
    if n < 10 then [DigitChar(n)] else Decimal(n / 10) + [DigitChar(n % 10)]
  }

  predicate AllDigits(s: string) { forall i :: 0 <= i < |s| ==> IsDigit(s[i]) }

  function Value(s: string): nat
    requires AllDigits(s)
  {
    if s == [] then 0 else 10 * Value(s[..|s| - 1]) + DigitValue(s[|s| - 1])
  }

  function ParsedUint(s: string): Option<uint64> {
    if s == [] || !AllDigits(s) then None else Some(Value(s) % UINT64)
  }

  lemma WrapStep(v: nat, d: nat)
    ensures ((v % UINT64) * 10 + d) % UINT64 == (10 * v + d) % UINT64
  {
    var q := v / UINT64;
    var x := (v % UINT64) * 10 + d;
    assert 10 * v + d == x + UINT64 * (10 * q);
    ModuloShift(x, 10 * q);
  }

  lemma ModuloShift(x: nat, q: nat)
    ensures (x + UINT64 * q) % UINT64 == x % UINT64
  {
    var r := x % UINT64;
    var k := x / UINT64;
    assert x + UINT64 * q == UINT64 * (k + q) + r;
  }

  // 64-bit accumulation; an overlong number wraps instead of being refused.
  method ParseUint(text: string) returns (out: Option<uint64>)
    ensures out == ParsedUint(text)
  {
    if text == "" { return None; }
    var value: uint64 := 0;
    for i := 0 to |text|
      invariant AllDigits(text[..i]) && value == Value(text[..i]) % UINT64
    {
      if !IsDigit(text[i]) { return None; }
      var d := DigitValue(text[i]);
      assert text[..i + 1][..i] == text[..i];
      WrapStep(Value(text[..i]), d);
      value := (value * 10 + d) % UINT64;
    }
    assert text[..|text|] == text;
    return Some(value);
  }

  lemma {:induction false} DecimalDigits(n: nat)
    ensures Decimal(n) != [] && AllDigits(Decimal(n)) && Plain(Decimal(n)) && Value(Decimal(n)) == n
  {
    if n < 10 {
      assert [DigitChar(n)][..0] == [];
    } else {
      DecimalDigits(n / 10);
      var d := Decimal(n);
      assert d[..|d| - 1] == Decimal(n / 10);
      assert DigitValue(DigitChar(n % 10)) == n % 10;
    }
  }

  lemma ParseDecimal(n: uint64)
    ensures ParsedUint(Decimal(n)) == Some(n)
  {
    DecimalDigits(n);
  }

  // --- Records --------------------------------------------------------------------

  function LineEnd(s: string): (e: nat)
    ensures e <= |s|
    ensures forall i :: 0 <= i < e ==> s[i] != '\n'
    ensures e < |s| ==> s[e] == '\n'
  {
    if s == [] || s[0] == '\n' then 0 else 1 + LineEnd(s[1..])
  }

  function Chomp(line: string): string {
    if line != [] && line[|line| - 1] == '\r' then line[..|line| - 1] else line
  }

  function FirstLine(s: string): string { Chomp(s[..LineEnd(s)]) }

  function BehindLine(s: string): (rest: string)
    ensures s != [] ==> |rest| < |s|
  {
    var e := LineEnd(s);
    if e < |s| then s[e + 1..] else []
  }

  // The lines of a file, a final one without its newline included.
  function Lines(s: string): seq<string>
    decreases |s|
  {
    if s == [] then [] else [FirstLine(s)] + Lines(BehindLine(s))
  }

  lemma {:induction false} LineEndOf(line: string, rest: string)
    requires OneLine(line)
    ensures LineEnd(line + ['\n'] + rest) == |line|
  {
    var s := line + ['\n'] + rest;
    if line != [] {
      LineEndOf(line[1..], rest);
      assert s[1..] == line[1..] + ['\n'] + rest;
    }
  }

  lemma LinesCons(line: string, rest: string)
    requires OneLine(line)
    ensures Lines(line + ['\n'] + rest) == [line] + Lines(rest)
  {
    var s := line + ['\n'] + rest;
    LineEndOf(line, rest);
    assert s[..|line|] == line && s[|line| + 1..] == rest;
  }

  lemma LinesTail(line: string)
    requires OneLine(line)
    ensures Lines(line) == if line == [] then [] else [line]
  {
    if line != [] {
      assert LineEnd(line) == |line|;
      assert line[..|line|] == line;
    }
  }

  // Text made of whole records only.
  predicate Complete(s: string) { s == [] || s[|s| - 1] == '\n' }

  lemma {:induction false} LinesConcat(a: string, b: string)
    requires Complete(a)
    ensures Lines(a + b) == Lines(a) + Lines(b)
    decreases |a|
  {
    if a == [] {
      assert a + b == b;
    } else {
      FirstLineStays(a, b);
      LinesConcat(BehindLine(a), b);
      OneLineFirst(FirstLine(a), Lines(BehindLine(a)), Lines(b));
    }
  }

  lemma OneLineFirst(line: string, a: seq<string>, b: seq<string>)
    ensures [line] + (a + b) == ([line] + a) + b
  {
  }

  // The first line of whole lines stays the first whatever follows.
  lemma FirstLineStays(a: string, b: string)
    requires a != [] && Complete(a)
    ensures FirstLine(a + b) == FirstLine(a) && BehindLine(a + b) == BehindLine(a) + b && Complete(BehindLine(a))
  {
    LineEndPrefix(a, b);
    CutInFirst(a, b, LineEnd(a));
    CutInFirst(a, b, LineEnd(a) + 1);
  }

  lemma CutInFirst(a: string, b: string, k: nat)
    requires k <= |a|
    ensures (a + b)[..k] == a[..k] && (a + b)[k..] == a[k..] + b
  {
  }

  lemma {:induction false} LineEndPrefix(a: string, b: string)
    requires a != [] && Complete(a)
    ensures LineEnd(a) < |a| && LineEnd(a + b) == LineEnd(a)
    decreases |a|
  {
    if a[0] != '\n' {
      LineEndPrefix(a[1..], b);
      assert (a + b)[1..] == a[1..] + b;
    }
  }
}

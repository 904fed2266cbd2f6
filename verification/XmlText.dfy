// Text inside the ePOS documents (core/src/epos.cpp, escapeXml and decodeEntities).

module XmlText {

  function Entity(c: char): string {
    if c == '&' then "&amp;"
    else if c == '<' then "&lt;"
    else if c == '>' then "&gt;"
    else if c == '"' then "&quot;"
    else if c == '\'' then "&apos;"
    else if c == '\n' then "&#10;"
    else [c]
  }

  function Escape(text: string): string {
    if text == [] then [] else Entity(text[0]) + Escape(text[1..])
  }

  method EscapeXml(text: string) returns (out: string)
    ensures out == Escape(text)
  {
    out := [];
    for i := 0 to |text|
      invariant out + Escape(text[i..]) == Escape(text)
    {
      assert text[i..][1..] == text[i + 1..];
      Associate(out, Entity(text[i]), Escape(text[i + 1..]));
      out := out + Entity(text[i]);
    }
    assert text[|text|..] == [];
  }

  lemma Associate(a: string, b: string, c: string)
    ensures a + (b + c) == (a + b) + c
  {
  }

  // Position of the next semicolon, or the length.
  function SemicolonAt(s: string): (n: nat)
    ensures n <= |s|
    ensures n < |s| ==> s[n] == ';'
    ensures forall i :: 0 <= i < n ==> s[i] != ';'
  {
    if s == [] || s[0] == ';' then 0 else 1 + SemicolonAt(s[1..])
  }

  // The C library's strtoul on the digits of a character reference, by base.
  type Strtoul = (string, bool) -> nat

  predicate ReadsTen(strtoul: Strtoul) { strtoul("10", false) == 10 }

  // What the name between & and ; stands for; `whole` is the reference as written.
  function Named(name: string, whole: string, strtoul: Strtoul): string {
    if name == "amp" then "&"
    else if name == "lt" then "<"
    else if name == "gt" then ">"
    else if name == "quot" then "\""
    else if name == "apos" then "'"
    else if name != [] && name[0] == '#' then
      var hex := |name| > 1 && (name[1] == 'x' || name[1] == 'X');
      var value := strtoul(name[if hex then 2 else 1..], hex);
      if 0 < value < 0x80 then [value as char] else "?"
    else whole
  }

  // The first character or reference, decoded, and how much of the text it took.
  function First(s: string, strtoul: Strtoul): (r: (string, nat))
    requires s != []
    ensures 1 <= r.1 <= |s|
  {
    var end := SemicolonAt(s);
    if s[0] != '&' || end == |s| then ([s[0]], 1)
    else
      assert end >= 1;
      (Named(s[1..end], s[..end + 1], strtoul), end + 1)
  }

  function Decode(text: string, strtoul: Strtoul): string {
    if text == [] then []
    else First(text, strtoul).0 + Decode(text[First(text, strtoul).1..], strtoul)
  }

  method DecodeOne(s: string, strtoul: Strtoul) returns (piece: string, taken: nat)
    requires s != []
    ensures (piece, taken) == First(s, strtoul)
  {
    if s[0] != '&' { return [s[0]], 1; }
    var end := SemicolonAt(s);
    if end == |s| { return [s[0]], 1; }
    return Named(s[1..end], s[..end + 1], strtoul), end + 1;
  }

  method DecodeEntities(text: string, strtoul: Strtoul) returns (out: string)
    ensures out == Decode(text, strtoul)
  {
    out := [];
    var i := 0;
    while i < |text|
      invariant 0 <= i <= |text|
      invariant out + Decode(text[i..], strtoul) == Decode(text, strtoul)
      decreases |text| - i
    {
      var piece, taken := DecodeOne(text[i..], strtoul);
      Follows(text, i, taken, out, piece, strtoul);
      out, i := out + piece, i + taken;
    }
    assert text[|text|..] == [];
  }

  lemma Follows(text: string, i: nat, taken: nat, out: string, piece: string, strtoul: Strtoul)
    requires i < |text| && (piece, taken) == First(text[i..], strtoul)
    ensures i + taken <= |text|
    ensures out + Decode(text[i..], strtoul) == out + piece + Decode(text[i + taken..], strtoul)
  {
    assert text[i..][taken..] == text[i + taken..];
    Associate(out, piece, Decode(text[i + taken..], strtoul));
  }

  // --- Round trip -----------------------------------------------------------------

  predicate IsSpecial(c: char) { c == '&' || c == '<' || c == '>' || c == '"' || c == '\'' || c == '\n' }

  // Every entity is an ampersand, a name, and the first semicolon.
  lemma EntityShape(c: char)
    requires IsSpecial(c)
    ensures var e := Entity(c);
            && |e| >= 4 && e[0] == '&' && e[|e| - 1] == ';' && forall i :: 0 <= i < |e| - 1 ==> e[i] != ';'
  {
  }

  lemma EntityMeans(c: char, whole: string, strtoul: Strtoul)
    requires IsSpecial(c) && ReadsTen(strtoul)
    ensures Named(Entity(c)[1..|Entity(c)| - 1], whole, strtoul) == [c]
  {
    var name := Entity(c)[1..|Entity(c)| - 1];
    if c == '&' { assert name == "amp"; }
    else if c == '<' { assert name == "lt"; }
    else if c == '>' { assert name == "gt"; }
    else if c == '"' { assert name == "quot"; }
    else if c == '\'' { assert name == "apos"; }
    else {
      assert name == "#10";
      assert name[1..] == "10";
    }
  }

  lemma {:induction false} SemicolonIn(e: string, rest: string)
    requires e != [] && e[|e| - 1] == ';' && forall i :: 0 <= i < |e| - 1 ==> e[i] != ';'
    ensures SemicolonAt(e + rest) == |e| - 1
  {
    assert forall i :: 0 <= i < |e| ==> (e + rest)[i] == e[i];
  }

  lemma DecodesEntity(c: char, rest: string, strtoul: Strtoul)
    requires IsSpecial(c) && ReadsTen(strtoul)
    ensures Decode(Entity(c) + rest, strtoul) == [c] + Decode(rest, strtoul)
  {
    var e := Entity(c);
    var s := e + rest;
    EntityShape(c);
    SemicolonIn(e, rest);
    assert s[0] == '&' && s[1..|e| - 1] == e[1..|e| - 1] && s[|e|..] == rest;
    EntityMeans(c, s[..|e|], strtoul);
  }

  // Whatever the text, escaping it and decoding the entities gives it back, and the
  // escaped text holds no markup character of its own.
  lemma {:induction false} EscapeRoundTrips(text: string, strtoul: Strtoul)
    requires ReadsTen(strtoul)
    ensures Decode(Escape(text), strtoul) == text
  {
    if text != [] {
      var rest := Escape(text[1..]);
      EscapeRoundTrips(text[1..], strtoul);
      if IsSpecial(text[0]) {
        DecodesEntity(text[0], rest, strtoul);
      } else {
        assert ([text[0]] + rest)[1..] == rest;
      }
      assert text == [text[0]] + text[1..];
    }
  }

  lemma {:induction false} EscapedHasNoMarkup(text: string, c: char)
    requires IsSpecial(c) && c != '&'
    ensures c !in Escape(text)
  {
    if text != [] {
      EscapedHasNoMarkup(text[1..], c);
      EntityHasNone(text[0], c);
    }
  }

  lemma EntityHasNone(d: char, c: char)
    requires IsSpecial(c) && c != '&'
    ensures c !in Entity(d)
  {
  }
}

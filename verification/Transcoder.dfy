// Translating an ESC/POS document for a Star printer (core/src/star.cpp,
// transcodeFromEscPos): two dialects in which the same bytes mean different things, with
// binary payloads embedded by length.

module Transcoding {
  import opened PrinterTypes
  import opened CodePages
  import opened EscPosEncoding
  import opened StarEncoding

  // --- One command ----------------------------------------------------------------

  // What is taken off the front of the input; Stop is the truncated command that ends the
  // translation and passes the rest through.
  datatype Piece = Stop | Piece(taken: nat, out: seq<byte>, note: Option<Note>, unknown: nat)

  // A byte that starts no command.
  function One(b: byte): Piece {
    if b < 0x80 then Piece(1, [b], None, 0) else Piece(1, [FALLBACK], Some(NonAsciiNote), 1)
  }

  function Dropped(n: nat, note: Note): Piece { Piece(n, [], Some(note), 0) }
  function Written(n: nat, out: seq<byte>): Piece { Piece(n, out, None, 0) }

  predicate Fits(p: Piece, s: seq<byte>) { p.Piece? ==> 1 <= p.taken <= |s| }

  function EscPiece(s: seq<byte>): (p: Piece)
    requires |s| >= 2
    ensures Fits(p, s)
  {
    if s[1] == 0x40 then Written(2, s[..2])
    else if |s| < 3 then One(s[0])
    else match s[1]
      case 0x74 => Dropped(3, CodePageNote)
      case 0x61 => Written(3, [0x1B, 0x1D, 0x61, s[2]])
      case 0x45 => Written(3, [0x1B, if s[2] != 0 then 0x45 else 0x46])
      case 0x2D => Written(3, [0x1B, 0x2D, if s[2] != 0 then 1 else 0])
      case 0x64 => Written(3, [0x1B, 0x61, s[2]])
      case 0x4A => Written(3, s[..3])
      case 0x70 => if |s| >= 5 then Dropped(5, DrawerNote) else One(s[0])
      case _ => One(s[0])
  }

  function Le16(low: byte, high: byte): uint16 { low + 256 * high }

  predicate IsFullCut(mode: byte) { mode == 0 || mode == 48 || mode == 65 }

  function RasterPiece(s: seq<byte>, raster: bool): (p: Piece)
    ensures Fits(p, s)
  {
    if |s| < 8 then Stop
    else
      var bpr, rows := Le16(s[4], s[5]), Le16(s[6], s[7]);
      Product(bpr, rows);
      if |s| < 8 + bpr * rows then Stop
      else if raster && bpr > 0 && rows > 0 then Written(8 + bpr * rows, RasterBytes(bpr, rows, s[8..8 + bpr * rows]))
      else Dropped(8 + bpr * rows, RasterNote)
  }

  lemma Product(a: nat, b: nat)
    ensures a * b >= 0
    ensures a > 0 ==> a * b >= b
  {
    if a > 0 { assert (a - 1) * b >= 0; }
  }

  function SymbolPiece(s: seq<byte>): (p: Piece)
    requires |s| >= 5
    ensures Fits(p, s)
  {
    var total := 5 + Le16(s[3], s[4]);
    if |s| < total then Stop
    else Dropped(total, if s[2] == 0x6B then SymbolNote else if s[2] == 0x48 then FenceNote else UnsupportedNote)
  }

  function CutPiece(s: seq<byte>): (p: Piece)
    requires |s| >= 3
    ensures Fits(p, s)
  {
    var length := if s[2] == 65 || s[2] == 66 then 4 else 3;
    if |s| < length then Stop else Written(length, CutBytes(IsFullCut(s[2])))
  }

  function GsPiece(s: seq<byte>, raster: bool): (p: Piece)
    requires |s| >= 2
    ensures Fits(p, s)
  {
    if |s| < 3 then One(s[0])
    else match s[1]
      case 0x21 => Written(3, [0x1B, 0x69, s[2] % 8, s[2] / 16 % 8])
      case 0x56 => CutPiece(s)
      case 0x76 => if s[2] == 0x30 then RasterPiece(s, raster) else One(s[0])
      case 0x28 => if |s| >= 5 then SymbolPiece(s) else One(s[0])
      case 0x72 => Dropped(3, QueuedNote)
      case 0x61 => Dropped(3, AsbNote)
      case _ => One(s[0])
  }

  function Next(s: seq<byte>, raster: bool): (p: Piece)
    requires s != []
    ensures Fits(p, s)
  {
    if s[0] == 0x1B && |s| >= 2 then EscPiece(s)
    else if s[0] == 0x1D && |s| >= 2 then GsPiece(s, raster)
    else if s[0] == 0x10 && |s| >= 3 && s[1] == 0x04 then Dropped(3, RealtimeNote)
    else One(s[0])
  }

  // --- The whole document ---------------------------------------------------------

  // `notes` has one entry per dropped command; the list reported has each once.
  datatype Result = Result(bytes: seq<byte>, notes: seq<Note>, unknown: nat)

  const NOTHING := Result([], [], 0)

  function Join(a: Result, b: Result): Result { Result(a.bytes + b.bytes, a.notes + b.notes, a.unknown + b.unknown) }

  function ResultOf(p: Piece): Result
    requires p.Piece?
  {
    Result(p.out, if p.note.Some? then [p.note.value] else [], p.unknown)
  }

  function Transcode(s: seq<byte>, raster: bool): Result {
    if s == [] then NOTHING
    else
      var p := Next(s, raster);
      if p.Stop? then Result(s, [], |s|) else Join(ResultOf(p), Transcode(s[p.taken..], raster))
  }

  function Noted(dropped: seq<Note>, note: Note): seq<Note> { if note in dropped then dropped else dropped + [note] }

  function NotedOf(dropped: seq<Note>, note: Option<Note>): seq<Note> {
    if note.Some? then Noted(dropped, note.value) else dropped
  }

  function Deduplicated(dropped: seq<Note>, notes: seq<Note>): seq<Note>
    decreases |notes|
  {
    if notes == [] then dropped else Deduplicated(Noted(dropped, notes[0]), notes[1..])
  }

  lemma JoinAssociates(a: Result, b: Result, c: Result)
    ensures Join(a, Join(b, c)) == Join(Join(a, b), c)
  {
    Associate(a.bytes, b.bytes, c.bytes);
    assert a.notes + (b.notes + c.notes) == a.notes + b.notes + c.notes;
  }

  lemma JoinNothing(r: Result)
    ensures Join(NOTHING, r) == r && Join(r, NOTHING) == r
  {
  }

  // --- The translating loop -------------------------------------------------------

  method EscCommand(data: seq<byte>, i: nat) returns (p: Piece)
    requires i + 2 <= |data|
    ensures p == EscPiece(data[i..])
  {
    ghost var s := data[i..];
    assert forall k :: 0 <= k < |s| ==> s[k] == data[i + k];
    var second := data[i + 1];
    if second == 0x40 {
      assert s[..2] == data[i..i + 2];
      return Written(2, data[i..i + 2]);
    }
    if i + 3 > |data| { return One(data[i]); }
    var n := data[i + 2];
    if second == 0x74 { return Dropped(3, CodePageNote); }
    if second == 0x61 { return Written(3, [0x1B, 0x1D, 0x61, n]); }
    if second == 0x45 { return Written(3, [0x1B, if n != 0 then 0x45 else 0x46]); }
    if second == 0x2D { return Written(3, [0x1B, 0x2D, if n != 0 then 1 else 0]); }
    if second == 0x64 { return Written(3, [0x1B, 0x61, n]); }
    if second == 0x4A {
      assert s[..3] == data[i..i + 3];
      return Written(3, data[i..i + 3]);
    }
    if second == 0x70 && i + 5 <= |data| { return Dropped(5, DrawerNote); }
    return One(data[i]);
  }

  method RasterImage(data: seq<byte>, i: nat, raster: bool) returns (p: Piece)
    requires i + 3 <= |data|
    ensures p == RasterPiece(data[i..], raster)
  {
    ghost var s := data[i..];
    assert forall k :: 0 <= k < |s| ==> s[k] == data[i + k];
    if i + 8 > |data| { return Stop; }
    var bpr: nat, rows: nat := Le16(data[i + 4], data[i + 5]), Le16(data[i + 6], data[i + 7]);
    Product(bpr, rows);
    var total := 8 + bpr * rows;
    if i + total > |data| { return Stop; }
    if raster && bpr > 0 && rows > 0 {
      assert s[8..total] == data[i + 8..i + total];
      var out := new StarEncoding.Encoder();
      assert (bpr * 8 + 7) / 8 == bpr;
      out.RasterPacked(data[i + 8..i + total], bpr * 8, rows);
      assert [] + RasterBytes(bpr, rows, s[8..total]) == RasterBytes(bpr, rows, s[8..total]);
      return Written(total, out.buffer);
    }
    return Dropped(total, RasterNote);
  }

  method GsCommand(data: seq<byte>, i: nat, raster: bool) returns (p: Piece)
    requires i + 2 <= |data|
    ensures p == GsPiece(data[i..], raster)
  {
    ghost var s := data[i..];
    assert forall k :: 0 <= k < |s| ==> s[k] == data[i + k];
    if i + 3 > |data| { return One(data[i]); }
    var second, n := data[i + 1], data[i + 2];
    if second == 0x21 { return Written(3, [0x1B, 0x69, n % 8, n / 16 % 8]); }
    if second == 0x56 {
      var length := if n == 65 || n == 66 then 4 else 3;
      if i + length > |data| { return Stop; }
      return Written(length, CutBytes(n == 0 || n == 48 || n == 65));
    }
    if second == 0x76 && n == 0x30 {
      p := RasterImage(data, i, raster);
      return;
    }
    if second == 0x28 && i + 5 <= |data| {
      var total := 5 + Le16(data[i + 3], data[i + 4]);
      if i + total > |data| { return Stop; }
      return Dropped(total, if n == 0x6B then SymbolNote else if n == 0x48 then FenceNote else UnsupportedNote);
    }
    if second == 0x72 { return Dropped(3, QueuedNote); }
    if second == 0x61 { return Dropped(3, AsbNote); }
    return One(data[i]);
  }

  // The command at position i.
  method Command(data: seq<byte>, i: nat, raster: bool) returns (p: Piece)
    requires i < |data|
    ensures p.Stop? ==> Transcode(data[i..], raster) == Result(data[i..], [], |data| - i)
    ensures p.Piece? ==> 1 <= p.taken <= |data| - i
                         && Transcode(data[i..], raster) == Join(ResultOf(p), Transcode(data[i + p.taken..], raster))
  {
    p := CommandAt(data, i, raster);
    if p.Piece? { assert data[i..][p.taken..] == data[i + p.taken..]; }
  }

  method CommandAt(data: seq<byte>, i: nat, raster: bool) returns (p: Piece)
    requires i < |data|
    ensures p == Next(data[i..], raster)
  {
    assert forall k :: 0 <= k < |data| - i ==> data[i..][k] == data[i + k];
    var first := data[i];
    if first == 0x1B && i + 2 <= |data| {
      p := EscCommand(data, i);
    } else if first == 0x1D && i + 2 <= |data| {
      p := GsCommand(data, i, raster);
    } else if first == 0x10 && i + 3 <= |data| && data[i + 1] == 0x04 {
      p := Dropped(3, RealtimeNote);
    } else {
      p := One(first);
    }
  }

  // What has been written so far, completed by the rest of the input, is the whole result.
  ghost predicate Sofar(bytes: seq<byte>, dropped: seq<Note>, unknown: nat, rest: Result, whole: Result) {
    && bytes + rest.bytes == whole.bytes
    && unknown + rest.unknown == whole.unknown
    && Deduplicated(dropped, rest.notes) == Deduplicated([], whole.notes)
  }

  lemma SofarStep(bytes: seq<byte>, dropped: seq<Note>, unknown: nat, p: Piece, rest: Result, whole: Result)
    requires p.Piece? && Sofar(bytes, dropped, unknown, Join(ResultOf(p), rest), whole)
    ensures Sofar(bytes + p.out, NotedOf(dropped, p.note), unknown + p.unknown, rest, whole)
  {
    Associate(bytes, p.out, rest.bytes);
    NoteFirst(dropped, p, rest.notes);
  }

  // The state of the loop at position i; once stopped, a truncated command is at i.
  ghost predicate At(data: seq<byte>, raster: bool, i: nat, stopped: bool, bytes: seq<byte>, dropped: seq<Note>, unknown: nat) {
    && i <= |data|
    && Sofar(bytes, dropped, unknown, Transcode(data[i..], raster), Transcode(data, raster))
    && (stopped ==> Transcode(data[i..], raster) == Result(data[i..], [], |data| - i))
  }

  method TranslateOne(data: seq<byte>, raster: bool, i: nat, bytes: seq<byte>, dropped: seq<Note>, unknown: nat)
    returns (next: nat, stopped: bool, bytes': seq<byte>, dropped': seq<Note>, unknown': nat)
    requires At(data, raster, i, false, bytes, dropped, unknown) && i < |data|
    ensures At(data, raster, next, stopped, bytes', dropped', unknown')
    ensures if stopped then next == i else i < next <= |data|
  {
    var p := Command(data, i, raster);
    if p.Stop? { return i, true, bytes, dropped, unknown; }
    AtNext(data, raster, i, p, bytes, dropped, unknown);
    return i + p.taken, false, bytes + p.out, NotedOf(dropped, p.note), unknown + p.unknown;
  }

  lemma AtNext(data: seq<byte>, raster: bool, i: nat, p: Piece, bytes: seq<byte>, dropped: seq<Note>, unknown: nat)
    requires At(data, raster, i, false, bytes, dropped, unknown) && p.Piece? && i + p.taken <= |data|
    requires Transcode(data[i..], raster) == Join(ResultOf(p), Transcode(data[i + p.taken..], raster))
    ensures At(data, raster, i + p.taken, false, bytes + p.out, NotedOf(dropped, p.note), unknown + p.unknown)
  {
    SofarStep(bytes, dropped, unknown, p, Transcode(data[i + p.taken..], raster), Transcode(data, raster));
  }

  lemma AtStart(data: seq<byte>, raster: bool)
    ensures At(data, raster, 0, false, [], [], 0)
  {
    assert data[0..] == data;
    assert [] + Transcode(data, raster).bytes == Transcode(data, raster).bytes;
  }

  lemma AtEnd(data: seq<byte>, raster: bool, i: nat, stopped: bool, bytes: seq<byte>, dropped: seq<Note>, unknown: nat)
    requires At(data, raster, i, stopped, bytes, dropped, unknown) && (stopped || i == |data|)
    ensures Transcode(data, raster).bytes == bytes + data[i..] && Transcode(data, raster).unknown == unknown + (|data| - i)
    ensures Deduplicated([], Transcode(data, raster).notes) == dropped
  {
    if i == |data| { assert data[i..] == []; }
    assert Transcode(data[i..], raster).notes == [];
  }

  method TranscodeFromEscPos(data: seq<byte>, raster: bool) returns (bytes: seq<byte>, dropped: seq<Note>, unknown: nat)
    ensures bytes == Transcode(data, raster).bytes && unknown == Transcode(data, raster).unknown
    ensures dropped == Deduplicated([], Transcode(data, raster).notes)
  {
    bytes, dropped, unknown := [], [], 0;
    var i, stopped := 0, false;
    AtStart(data, raster);
    while i < |data| && !stopped
      invariant At(data, raster, i, stopped, bytes, dropped, unknown)
      decreases |data| - i, if stopped then 0 else 1
    {
      i, stopped, bytes, dropped, unknown := TranslateOne(data, raster, i, bytes, dropped, unknown);
    }
    AtEnd(data, raster, i, stopped, bytes, dropped, unknown);
    bytes, unknown := PassThrough(data, i, bytes, unknown);
  }

  // Whatever is left is a truncated command; it is passed through and counted.
  method PassThrough(data: seq<byte>, start: nat, sofar: seq<byte>, count: nat) returns (bytes: seq<byte>, unknown: nat)
    requires start <= |data|
    ensures bytes == sofar + data[start..] && unknown == count + (|data| - start)
  {
    bytes, unknown := sofar, count;
    var i := start;
    while i < |data|
      invariant start <= i <= |data|
      invariant bytes == sofar + data[start..i] && unknown == count + (i - start)
    {
      assert data[start..i + 1] == data[start..i] + [data[i]];
      Associate(sofar, data[start..i], [data[i]]);
      bytes, unknown := bytes + [data[i]], unknown + 1;
      i := i + 1;
    }
    assert data[start..|data|] == data[start..];
  }

  lemma NoteFirst(dropped: seq<Note>, p: Piece, rest: seq<Note>)
    requires p.Piece?
    ensures Deduplicated(dropped, ResultOf(p).notes + rest)
            == Deduplicated(NotedOf(dropped, p.note), rest)
  {
    if p.note.Some? {
      assert ([p.note.value] + rest)[1..] == rest;
    } else {
      assert [] + rest == rest;
    }
  }
}

// Translation preserves meaning: a document written by the ESC/POS encoder and translated
// is the document the Star encoder would have written -- exactly when three things hold.

module TranscodeLaws {
  import opened PrinterTypes
  import opened CodePages
  import opened EscPosEncoding
  import opened StarEncoding
  import opened Transcoding

  // --- What one call becomes ------------------------------------------------------

  function PenOf(st: Style): Pen { Pen(st.page, st.align, st.bold, st.underline != 0, st.width, st.height) }

  lemma PenFollowsStyle(st: Style, op: Op)
    ensures PenOf(After(st, op)) == PenAfter(PenOf(st), op)
  {
  }

  // Feeding zero lines is nothing on Star but a command in ESC/POS, and a change of
  // underline thickness is a command in ESC/POS but no change on Star.
  predicate Faithful(st: Style, op: Op) {
    match op
    case FeedLines(lines) => lines != 0
    case Underline(dots) => dots == 0 || st.underline == 0 || dots == st.underline
    case _ => true
  }

  // A text byte that could start a command, in the output of transliteration.
  predicate Unsafe(b: byte) { b == 0x10 || b == 0x1B || b == 0x1D }

  predicate TextIsSafe(op: Op) { op.Text? ==> forall b :: b in op.utf8 ==> !Unsafe(b) }

  function TextNotes(s: seq<byte>): seq<Note> {
    if s == [] then [] else (if s[0] < 0x80 then [] else [NonAsciiNote]) + TextNotes(s[1..])
  }

  function BandNotes(rows: nat, band: nat): seq<Note>
    requires band > 0
    decreases rows
  {
    if rows == 0 then [] else [RasterNote] + BandNotes(rows - Min(band, rows), band)
  }

  function SymbolNotes(n: nat): seq<Note> { if n == 0 then [] else SymbolNotes(n - 1) + [SymbolNote] }

  function NotesOf(t: Table, st: Style, op: Op, raster: bool): seq<Note>
    requires Accepts(op)
  {
    match op
    case SelectCodePage(page) => if st.page == page then [] else [CodePageNote]
    case Text(utf8) => TextNotes(Transliterate(t, st.page, utf8))
    case KickCashDrawer(_, _, _) => [DrawerNote]
    case Asb(_, _) => [AsbNote]
    case ProcessId(_) => [FenceNote]
    case RealtimeStatus(_) => [RealtimeNote]
    case QueuedPaperStatus => [QueuedNote]
    case Raster(_, _, rows, _, band) => if raster then [] else BandNotes(rows, BandOf(band, rows))
    case Qr(_, _, _, _) => SymbolNotes(5)
    case _ => []
  }

  // The translation of one call: Star's own spelling, except for the two unfaithful cases.
  function Translated(t: Table, st: Style, op: Op, raster: bool): Result
    requires Accepts(op)
  {
    Result(if Faithful(st, op) then StarBytes(t, PenOf(st), op, raster)
           else if op.FeedLines? then [0x1B, 0x61, 0] else [0x1B, 0x2D, 1],
           NotesOf(t, st, op, raster),
           if op.Text? then |TextNotes(Transliterate(t, st.page, op.utf8))| else 0)
  }

  // --- One command in front of anything -------------------------------------------

  lemma InFront(cmd: seq<byte>, rest: seq<byte>)
    ensures forall k :: 0 <= k < |cmd| ==> (cmd + rest)[k] == cmd[k]
    ensures (cmd + rest)[|cmd|..] == rest && (cmd + rest)[..|cmd|] == cmd
  {
  }

  lemma CommandTranscodes(cmd: seq<byte>, rest: seq<byte>, raster: bool, p: Piece)
    requires cmd != [] && Next(cmd + rest, raster) == p && p.Piece? && p.taken == |cmd|
    ensures Transcode(cmd + rest, raster) == Join(ResultOf(p), Transcode(rest, raster))
  {
    InFront(cmd, rest);
  }

  lemma EscTranscodes(cmd: seq<byte>, rest: seq<byte>, raster: bool)
    requires (|cmd| == 2 && cmd[..2] == [0x1B, 0x40])
             || (|cmd| == 3 && cmd[0] == 0x1B && (cmd[1] == 0x74 || cmd[1] == 0x61 || cmd[1] == 0x45 || cmd[1] == 0x2D || cmd[1] == 0x64 || cmd[1] == 0x4A))
             || (|cmd| == 5 && cmd[0] == 0x1B && cmd[1] == 0x70)
    ensures EscPiece(cmd).Piece?
    ensures Transcode(cmd + rest, raster) == Join(ResultOf(EscPiece(cmd)), Transcode(rest, raster))
  {
    InFront(cmd, rest);
    var s := cmd + rest;
    assert |cmd| >= 3 ==> s[..3] == cmd[..3];
    assert s[..2] == cmd[..2];
    assert cmd[0] == cmd[..2][0] && cmd[1] == cmd[..2][1];
    CommandTranscodes(cmd, rest, raster, EscPiece(cmd));
  }

  lemma GsTranscodes(cmd: seq<byte>, rest: seq<byte>, raster: bool)
    requires |cmd| >= 3 && cmd[0] == 0x1D
    requires (|cmd| == 3 && (cmd[1] == 0x21 || cmd[1] == 0x72 || cmd[1] == 0x61))
             || (cmd[1] == 0x56 && |cmd| == if cmd[2] == 65 || cmd[2] == 66 then 4 else 3)
    ensures GsPiece(cmd, raster).Piece?
    ensures Transcode(cmd + rest, raster) == Join(ResultOf(GsPiece(cmd, raster)), Transcode(rest, raster))
  {
    InFront(cmd, rest);
    CommandTranscodes(cmd, rest, raster, GsPiece(cmd, raster));
  }

  // The operands of a GS ( command are skipped by their length, whatever they are.
  lemma SymbolTranscodes(kind: byte, operands: seq<byte>, rest: seq<byte>, raster: bool)
    requires |operands| < 0x1_0000 && (kind == 0x6B || kind == 0x48)
    ensures Transcode([0x1D, 0x28, kind, Low(|operands|), High(|operands|)] + operands + rest, raster)
            == Join(Result([], [if kind == 0x6B then SymbolNote else FenceNote], 0), Transcode(rest, raster))
  {
    var head: seq<byte> := [0x1D, 0x28, kind, Low(|operands|), High(|operands|)];
    var cmd := head + operands;
    InFront(cmd, rest);
    assert cmd[0] == 0x1D && cmd[1] == 0x28 && cmd[2] == kind && cmd[3] == Low(|operands|) && cmd[4] == High(|operands|);
    assert Le16(Low(|operands|), High(|operands|)) == |operands|;
    CommandTranscodes(cmd, rest, raster, Dropped(|cmd|, if kind == 0x6B then SymbolNote else FenceNote));
  }

  // The pixels of a raster are copied by their dimensions, whatever they are.
  lemma RasterTranscodes(scale: byte, bpr: uint16, rows: uint16, data: seq<byte>, rest: seq<byte>, raster: bool)
    requires bpr > 0 && rows > 0 && |data| == bpr * rows
    ensures Transcode(RasterCommand(scale, bpr, rows, data) + rest, raster)
            == Join(if raster then Result(RasterBytes(bpr, rows, data), [], 0) else Result([], [RasterNote], 0), Transcode(rest, raster))
  {
    var cmd := RasterCommand(scale, bpr, rows, data);
    var s := cmd + rest;
    InFront(cmd, rest);
    RasterHeader(scale, bpr, rows, data);
    assert s[8..|cmd|] == data;
    CommandTranscodes(cmd, rest, raster,
                      if raster then Written(|cmd|, RasterBytes(bpr, rows, data)) else Dropped(|cmd|, RasterNote));
  }

  lemma RasterHeader(scale: byte, bpr: uint16, rows: uint16, data: seq<byte>)
    ensures var c := RasterCommand(scale, bpr, rows, data);
            && |c| == 8 + |data| && c[0] == 0x1D && c[1] == 0x76 && c[2] == 0x30
            && Le16(c[4], c[5]) == bpr && Le16(c[6], c[7]) == rows
  {
  }

  // --- Calls that are more than one command ---------------------------------------

  // A prefix translates on its own: whatever comes behind it.
  ghost predicate TranslatesTo(s: seq<byte>, raster: bool, r: Result) {
    forall rest :: Before(s, rest, raster, r)
  }

  predicate Before(s: seq<byte>, rest: seq<byte>, raster: bool, r: Result) {
    Transcode(s + rest, raster) == Join(r, Transcode(rest, raster))
  }

  lemma NothingTranslates(raster: bool)
    ensures TranslatesTo([], raster, NOTHING)
  {
    forall rest ensures Before([], rest, raster, NOTHING) {
      assert [] + rest == rest;
      JoinNothing(Transcode(rest, raster));
    }
  }

  lemma ConcatTranslates(a: seq<byte>, b: seq<byte>, raster: bool, x: Result, y: Result)
    requires TranslatesTo(a, raster, x) && TranslatesTo(b, raster, y)
    ensures TranslatesTo(a + b, raster, Join(x, y))
  {
    forall rest ensures Before((a + b), rest, raster, Join(x, y)) {
      Associate(a, b, rest);
      JoinAssociates(x, y, Transcode(rest, raster));
      assert Before(a, b + rest, raster, x) && Before(b, rest, raster, y);
    }
  }

  lemma Chain(a: seq<byte>, b: seq<byte>, whole: seq<byte>, raster: bool, x: Result, y: Result, r: Result)
    requires TranslatesTo(a, raster, x) && TranslatesTo(b, raster, y) && whole == a + b && r == Join(x, y)
    ensures TranslatesTo(whole, raster, r)
  {
    ConcatTranslates(a, b, raster, x, y);
  }

  lemma DotTranslates(step: byte, raster: bool)
    ensures TranslatesTo([0x1B, 0x4A, step], raster, Result([0x1B, 0x4A, step], [], 0))
  {
    var cmd: seq<byte> := [0x1B, 0x4A, step];
    forall rest ensures Before(cmd, rest, raster, Result(cmd, [], 0)) {
      EscTranscodes(cmd, rest, raster);
      assert cmd[..3] == cmd;
    }
  }

  lemma {:induction false} DotsTranslate(n: nat, raster: bool)
    ensures TranslatesTo(Dots(n), raster, Result(Dots(n), [], 0))
    decreases n
  {
    if n == 0 {
      NothingTranslates(raster);
    } else {
      var step := if n > 255 then 255 else n;
      DotTranslates(step, raster);
      DotsTranslate(n - step, raster);
      Chain([0x1B, 0x4A, step], Dots(n - step), Dots(n), raster,
            Result([0x1B, 0x4A, step], [], 0), Result(Dots(n - step), [], 0), Result(Dots(n), [], 0));
    }
  }

  // Each text byte is itself or a question mark.
  lemma TextByteTranslates(b: byte, raster: bool)
    requires !Unsafe(b)
    ensures TranslatesTo([b], raster, ResultOf(One(b)))
  {
    forall rest ensures Before([b], rest, raster, ResultOf(One(b))) {
      InFront([b], rest);
      CommandTranscodes([b], rest, raster, One(b));
    }
  }

  function TextResult(s: seq<byte>): Result { Result(Ascii(s), TextNotes(s), |TextNotes(s)|) }

  lemma TextResultSplits(s: seq<byte>)
    requires s != []
    ensures TextResult(s) == Join(ResultOf(One(s[0])), TextResult(s[1..]))
  {
    assert Ascii(s) == [if s[0] < 0x80 then s[0] else FALLBACK] + Ascii(s[1..]);
  }

  lemma {:induction false} TextTranslates(s: seq<byte>, raster: bool)
    requires forall b :: b in s ==> !Unsafe(b)
    ensures TranslatesTo(s, raster, TextResult(s))
  {
    if s == [] {
      NothingTranslates(raster);
      assert Ascii(s) == [];
    } else {
      assert s[0] in s;
      TextByteTranslates(s[0], raster);
      TextTranslates(s[1..], raster);
      TextResultSplits(s);
      assert [s[0]] + s[1..] == s;
      Chain([s[0]], s[1..], s, raster, ResultOf(One(s[0])), TextResult(s[1..]), TextResult(s));
    }
  }

  function BandResult(bpr: uint16, rows: uint16, data: seq<byte>, band: nat, raster: bool): Result
    requires band > 0 && |data| == bpr * rows
  {
    if raster then Result(StarBands(bpr, rows, data, band), [], 0) else Result([], BandNotes(rows, band), 0)
  }

  lemma {:induction false} BandsTranslate(scale: byte, bpr: uint16, rows: uint16, data: seq<byte>, band: nat, raster: bool)
    requires bpr > 0 && band > 0 && |data| == bpr * rows
    ensures TranslatesTo(Bands(scale, bpr, rows, data, band), raster, BandResult(bpr, rows, data, band, raster))
    decreases rows
  {
    if rows == 0 {
      NothingTranslates(raster);
    } else {
      var r := Min(band, rows);
      BandFits(bpr, rows, r);
      var head, tail := data[..bpr * r], data[bpr * r..];
      OneBandTranslates(scale, bpr, r, head, raster);
      BandsTranslate(scale, bpr, rows - r, tail, band, raster);
      ConcatTranslates(RasterCommand(scale, bpr, r, head), Bands(scale, bpr, rows - r, tail, band), raster,
                       OneBand(bpr, r, head, raster), BandResult(bpr, rows - r, tail, band, raster));
      BandJoins(bpr, rows, data, band, raster);
    }
  }

  function OneBand(bpr: nat, rows: nat, data: seq<byte>, raster: bool): Result
    requires |data| == bpr * rows
  {
    if raster then Result(RasterBytes(bpr, rows, data), [], 0) else Result([], [RasterNote], 0)
  }

  lemma OneBandTranslates(scale: byte, bpr: uint16, rows: uint16, data: seq<byte>, raster: bool)
    requires bpr > 0 && rows > 0 && |data| == bpr * rows
    ensures TranslatesTo(RasterCommand(scale, bpr, rows, data), raster, OneBand(bpr, rows, data, raster))
  {
    forall rest
      ensures Before(RasterCommand(scale, bpr, rows, data), rest, raster, OneBand(bpr, rows, data, raster))
    {
      RasterTranscodes(scale, bpr, rows, data, rest, raster);
    }
  }

  lemma BandJoins(bpr: uint16, rows: uint16, data: seq<byte>, band: nat, raster: bool)
    requires band > 0 && rows > 0 && |data| == bpr * rows
    ensures var r := Min(band, rows);
            && 0 <= bpr * r <= |data| && |data[bpr * r..]| == bpr * (rows - r) && |data[..bpr * r]| == bpr * r
            && Join(OneBand(bpr, r, data[..bpr * r], raster), BandResult(bpr, rows - r, data[bpr * r..], band, raster))
               == BandResult(bpr, rows, data, band, raster)
  {
    BandFits(bpr, rows, Min(band, rows));
  }

  lemma SymbolTranslates(operands: seq<byte>, raster: bool)
    requires |operands| < 0x1_0000
    ensures TranslatesTo(Symbol(operands), raster, Result([], [SymbolNote], 0))
  {
    forall rest ensures Before(Symbol(operands), rest, raster, Result([], [SymbolNote], 0)) {
      SymbolTranscodes(0x6B, operands, rest, raster);
    }
  }

  function Symbols(n: nat): Result { Result([], SymbolNotes(n), 0) }

  lemma AnotherSymbol(before: seq<byte>, n: nat, operands: seq<byte>, raster: bool)
    requires TranslatesTo(before, raster, Symbols(n)) && |operands| < 0x1_0000
    ensures TranslatesTo(before + Symbol(operands), raster, Symbols(n + 1))
  {
    SymbolTranslates(operands, raster);
    assert SymbolNotes(n + 1) == SymbolNotes(n) + [SymbolNote];
    Chain(before, Symbol(operands), before + Symbol(operands), raster, Symbols(n), Result([], [SymbolNote], 0), Symbols(n + 1));
  }

  lemma QrTranslates(model: byte, size: byte, level: byte, data: seq<byte>, raster: bool)
    requires |data| <= 0xFFFF - 3
    ensures TranslatesTo(QrBytes(model, size, level, data), raster, Symbols(5))
  {
    NothingTranslates(raster);
    var a := [] + Symbol([0x31, 0x41, model, 0x00]);
    AnotherSymbol([], 0, [0x31, 0x41, model, 0x00], raster);
    var b := a + Symbol([0x31, 0x43, size]);
    AnotherSymbol(a, 1, [0x31, 0x43, size], raster);
    var c := b + Symbol([0x31, 0x45, level]);
    AnotherSymbol(b, 2, [0x31, 0x45, level], raster);
    var d := c + Symbol([0x31, 0x50, 0x30] + data);
    AnotherSymbol(c, 3, [0x31, 0x50, 0x30] + data, raster);
    AnotherSymbol(d, 4, [0x31, 0x51, 0x30], raster);
    assert a == Symbol([0x31, 0x41, model, 0x00]);
  }

  // --- One call -------------------------------------------------------------------

  lemma ShortEscTranslates(second: byte, n: byte, raster: bool)
    requires second == 0x74 || second == 0x61 || second == 0x45 || second == 0x2D || second == 0x64 || second == 0x4A
    ensures EscPiece([0x1B, second, n]).Piece?
    ensures TranslatesTo([0x1B, second, n], raster, ResultOf(EscPiece([0x1B, second, n])))
  {
    var cmd := [0x1B, second, n];
    EscTranscodes(cmd, [], raster);
    forall rest ensures Before(cmd, rest, raster, ResultOf(EscPiece(cmd))) {
      EscTranscodes(cmd, rest, raster);
    }
  }

  lemma InitializeTranslates(raster: bool)
    ensures TranslatesTo([0x1B, 0x40], raster, Result([0x1B, 0x40], [], 0))
  {
    var cmd: seq<byte> := [0x1B, 0x40];
    InitializePiece(cmd);
    forall rest ensures Before(cmd, rest, raster, Result(cmd, [], 0)) {
      EscTranscodes(cmd, rest, raster);
    }
  }

  lemma InitializePiece(cmd: seq<byte>)
    requires cmd == [0x1B, 0x40]
    ensures |cmd| == 2 && cmd[..2] == [0x1B, 0x40]
    ensures EscPiece(cmd).Piece? && ResultOf(EscPiece(cmd)) == Result(cmd, [], 0)
  {
    assert cmd[..2] == cmd;
  }

  lemma StyleTranslates(t: Table, st: Style, op: Op, raster: bool)
    requires op.SelectCodePage? || op.Align? || op.Bold? || op.Underline?
    requires Accepts(op)
    ensures TranslatesTo(BytesOf(t, st, op), raster, Translated(t, st, op, raster))
  {
    var cmd := BytesOf(t, st, op);
    if cmd == [] {
      NothingTranslates(raster);
      assert Translated(t, st, op, raster) == NOTHING;
    } else {
      ShortEscTranslates(cmd[1], cmd[2], raster);
      assert cmd == [0x1B, cmd[1], cmd[2]];
      StylePiece(t, st, op, raster);
    }
  }

  lemma StylePiece(t: Table, st: Style, op: Op, raster: bool)
    requires op.SelectCodePage? || op.Align? || op.Bold? || op.Underline?
    requires Accepts(op) && BytesOf(t, st, op) != []
    ensures EscPiece(BytesOf(t, st, op)).Piece?
    ensures Translated(t, st, op, raster) == ResultOf(EscPiece(BytesOf(t, st, op)))
  {
  }

  lemma Nibbles(w: nat, h: nat)
    requires w < 8 && h < 8
    ensures (w * 16 + h) % 8 == h && (w * 16 + h) / 16 % 8 == w
  {
  }

  lemma SizeCommandTranslates(n: byte, raster: bool)
    ensures TranslatesTo([0x1D, 0x21, n], raster, Result([0x1B, 0x69, n % 8, n / 16 % 8], [], 0))
  {
    var cmd: seq<byte> := [0x1D, 0x21, n];
    forall rest ensures Before(cmd, rest, raster, Result([0x1B, 0x69, n % 8, n / 16 % 8], [], 0)) {
      GsTranscodes(cmd, rest, raster);
    }
  }

  lemma SizeResult(t: Table, st: Style, op: Op, raster: bool)
    requires Accepts(op) && op.TextSize? && BytesOf(t, st, op) != []
    ensures BytesOf(t, st, op) == [0x1D, 0x21, (op.width - 1) * 16 + (op.height - 1)]
    ensures Translated(t, st, op, raster) == Result([0x1B, 0x69, op.height - 1, op.width - 1], [], 0)
  {
  }

  lemma SizeTranslates(t: Table, st: Style, op: Op, raster: bool)
    requires Accepts(op) && op.TextSize?
    ensures TranslatesTo(BytesOf(t, st, op), raster, Translated(t, st, op, raster))
  {
    var cmd := BytesOf(t, st, op);
    if cmd == [] {
      NothingTranslates(raster);
    } else {
      var n := (op.width - 1) * 16 + (op.height - 1);
      Nibbles(op.width - 1, op.height - 1);
      SizeCommandTranslates(n, raster);
      SizeResult(t, st, op, raster);
    }
  }

  lemma FeedTranslates(t: Table, st: Style, op: Op, raster: bool)
    requires op.Feed? || op.FeedLines? || op.KickCashDrawer?
    requires Accepts(op)
    ensures TranslatesTo(BytesOf(t, st, op), raster, Translated(t, st, op, raster))
  {
    var cmd := BytesOf(t, st, op);
    forall rest ensures Before(cmd, rest, raster, Translated(t, st, op, raster)) {
      if op.Feed? {
        InFront(cmd, rest);
        CommandTranscodes(cmd, rest, raster, One(0x0A));
      } else {
        EscTranscodes(cmd, rest, raster);
      }
    }
  }

  lemma GsOpTranslates(t: Table, st: Style, op: Op, raster: bool)
    requires op.Cut? || op.Asb? || op.QueuedPaperStatus?
    ensures TranslatesTo(BytesOf(t, st, op), raster, Translated(t, st, op, raster))
  {
    var cmd := BytesOf(t, st, op);
    forall rest ensures Before(cmd, rest, raster, Translated(t, st, op, raster)) {
      GsTranscodes(cmd, rest, raster);
    }
  }

  lemma ProcessIdTranslates(t: Table, st: Style, op: Op, raster: bool)
    requires op.ProcessId? && Accepts(op)
    ensures TranslatesTo(BytesOf(t, st, op), raster, Translated(t, st, op, raster))
  {
    var operands := [0x30, 0x30] + op.token;
    var cmd := [0x1D, 0x28, 0x48, Low(|operands|), High(|operands|)] + operands;
    assert BytesOf(t, st, op) == cmd;
    forall rest ensures Before(cmd, rest, raster, Result([], [FenceNote], 0)) {
      SymbolTranscodes(0x48, operands, rest, raster);
    }
  }

  lemma RealtimeTranslates(t: Table, st: Style, op: Op, raster: bool)
    requires op.RealtimeStatus?
    ensures TranslatesTo(BytesOf(t, st, op), raster, Translated(t, st, op, raster))
  {
    var cmd: seq<byte> := [0x10, 0x04, op.kind];
    forall rest ensures Before(cmd, rest, raster, Result([], [RealtimeNote], 0)) {
      InFront(cmd, rest);
      CommandTranscodes(cmd, rest, raster, Dropped(3, RealtimeNote));
    }
  }

  lemma TextOpTranslates(t: Table, st: Style, op: Op, raster: bool)
    requires IsTable(t) && op.Text? && TextIsSafe(op)
    ensures TranslatesTo(BytesOf(t, st, op), raster, Translated(t, st, op, raster))
  {
    var s := Transliterate(t, st.page, op.utf8);
    AsciiIsKept(t, st.page, op.utf8, 0x10);
    AsciiIsKept(t, st.page, op.utf8, 0x1B);
    AsciiIsKept(t, st.page, op.utf8, 0x1D);
    TextTranslates(s, raster);
  }

  // Whatever comes behind it, one call of the ESC/POS encoder is translated to what the
  // Star encoder writes for it.
  lemma CallTranslates(t: Table, st: Style, op: Op, raster: bool)
    requires IsTable(t) && Accepts(op) && TextIsSafe(op)
    ensures TranslatesTo(BytesOf(t, st, op), raster, Translated(t, st, op, raster))
  {
    match op
    case Text(_) => TextOpTranslates(t, st, op, raster);
    case TextSize(_, _) => SizeTranslates(t, st, op, raster);
    case Feed => FeedTranslates(t, st, op, raster);
    case FeedLines(_) => FeedTranslates(t, st, op, raster);
    case KickCashDrawer(_, _, _) => FeedTranslates(t, st, op, raster);
    case FeedDots(distance) => DotsTranslate(distance, raster);
    case UseCutWithFeed(_, _) => NothingTranslates(raster);
    case Cut(_) => GsOpTranslates(t, st, op, raster);
    case Asb(_, _) => GsOpTranslates(t, st, op, raster);
    case QueuedPaperStatus => GsOpTranslates(t, st, op, raster);
    case ProcessId(_) => ProcessIdTranslates(t, st, op, raster);
    case RealtimeStatus(_) => RealtimeTranslates(t, st, op, raster);
    case Raster(scale, bpr, rows, data, band) => BandsTranslate(scale, bpr, rows, data, BandOf(band, rows), raster);
    case Qr(model, size, level, data) => QrTranslates(model, size, level, data, raster);
    case Initialize => InitializeTranslates(raster);
    case _ => StyleTranslates(t, st, op, raster);
  }

  // --- The document ---------------------------------------------------------------

  function TranslatedAll(t: Table, st: Style, ops: seq<Op>, raster: bool): Result
    requires AllAccepted(ops)
    decreases |ops|
  {
    if ops == [] then NOTHING
    else Join(Translated(t, st, ops[0], raster), TranslatedAll(t, After(st, ops[0]), ops[1..], raster))
  }

  predicate AllTextSafe(ops: seq<Op>) { forall op :: op in ops ==> TextIsSafe(op) }

  lemma {:induction false} DocumentTranslates(t: Table, st: Style, ops: seq<Op>, raster: bool)
    requires IsTable(t) && AllAccepted(ops) && AllTextSafe(ops)
    ensures TranslatesTo(Encode(t, st, ops), raster, TranslatedAll(t, st, ops, raster))
    decreases |ops|
  {
    if ops == [] {
      NothingTranslates(raster);
    } else {
      assert ops[0] in ops && forall op :: op in ops[1..] ==> op in ops;
      CallTranslates(t, st, ops[0], raster);
      DocumentTranslates(t, After(st, ops[0]), ops[1..], raster);
      Chain(BytesOf(t, st, ops[0]), Encode(t, After(st, ops[0]), ops[1..]), Encode(t, st, ops), raster,
            Translated(t, st, ops[0], raster), TranslatedAll(t, After(st, ops[0]), ops[1..], raster), TranslatedAll(t, st, ops, raster));
    }
  }

  lemma TranscodedIs(t: Table, st: Style, ops: seq<Op>, raster: bool)
    requires IsTable(t) && AllAccepted(ops) && AllTextSafe(ops)
    ensures Transcode(Encode(t, st, ops), raster) == TranslatedAll(t, st, ops, raster)
  {
    DocumentTranslates(t, st, ops, raster);
    var s := Encode(t, st, ops);
    assert Before(s, [], raster, TranslatedAll(t, st, ops, raster));
    assert s + [] == s;
    JoinNothing(TranslatedAll(t, st, ops, raster));
  }

  // Calls along a document that Star spells differently.
  function Unfaithful(st: Style, ops: seq<Op>): nat
    decreases |ops|
  {
    if ops == [] then 0 else (if Faithful(st, ops[0]) then 0 else 1) + Unfaithful(After(st, ops[0]), ops[1..])
  }

  // Every unfaithful call costs exactly three stray bytes.
  lemma {:induction false} TranslatedLength(t: Table, st: Style, ops: seq<Op>, raster: bool)
    requires AllAccepted(ops)
    ensures |TranslatedAll(t, st, ops, raster).bytes| == |Render(t, PenOf(st), ops, raster)| + 3 * Unfaithful(st, ops)
    ensures Unfaithful(st, ops) == 0 ==> TranslatedAll(t, st, ops, raster).bytes == Render(t, PenOf(st), ops, raster)
    decreases |ops|
  {
    if ops != [] {
      assert ops[0] in ops && forall op :: op in ops[1..] ==> op in ops;
      PenFollowsStyle(st, ops[0]);
      TranslatedLength(t, After(st, ops[0]), ops[1..], raster);
      UnfaithfulIsEmpty(t, st, ops[0], raster);
    }
  }

  lemma UnfaithfulIsEmpty(t: Table, st: Style, op: Op, raster: bool)
    requires Accepts(op)
    ensures !Faithful(st, op) ==> StarBytes(t, PenOf(st), op, raster) == [] && |Translated(t, st, op, raster).bytes| == 3
    ensures Faithful(st, op) ==> Translated(t, st, op, raster).bytes == StarBytes(t, PenOf(st), op, raster)
  {
  }

  // For every document whose text keeps out of the command bytes, translating what the
  // ESC/POS encoder wrote gives what the Star encoder would have written -- if and only if
  // no zero-line feed and no bare change of underline thickness is in it.
  lemma TranslationLaw(t: Table, ops: seq<Op>, raster: bool)
    requires IsTable(t) && AllAccepted(ops) && AllTextSafe(ops)
    ensures Transcode(Encode(t, POWER_ON, ops), raster).bytes == Render(t, PenOf(POWER_ON), ops, raster)
            <==> Unfaithful(POWER_ON, ops) == 0
  {
    TranscodedIs(t, POWER_ON, ops, raster);
    TranslatedLength(t, POWER_ON, ops, raster);
  }

  // Every call without a Star equivalent is declared, and nothing else is.
  function NotesOfAll(t: Table, st: Style, ops: seq<Op>, raster: bool): seq<Note>
    requires AllAccepted(ops)
    decreases |ops|
  {
    if ops == [] then [] else NotesOf(t, st, ops[0], raster) + NotesOfAll(t, After(st, ops[0]), ops[1..], raster)
  }

  lemma {:induction false} DeclaresWhatItDrops(t: Table, st: Style, ops: seq<Op>, raster: bool)
    requires IsTable(t) && AllAccepted(ops) && AllTextSafe(ops)
    ensures Transcode(Encode(t, st, ops), raster).notes == NotesOfAll(t, st, ops, raster)
  {
    TranscodedIs(t, st, ops, raster);
    NotesAdd(t, st, ops, raster);
  }

  lemma {:induction false} NotesAdd(t: Table, st: Style, ops: seq<Op>, raster: bool)
    requires AllAccepted(ops)
    ensures TranslatedAll(t, st, ops, raster).notes == NotesOfAll(t, st, ops, raster)
    decreases |ops|
  {
    if ops != [] {
      assert ops[0] in ops && forall op :: op in ops[1..] ==> op in ops;
      NotesAdd(t, After(st, ops[0]), ops[1..], raster);
    }
  }

  // --- Why text must keep out of three bytes --------------------------------------

  // A text byte is translated as itself in front of anything exactly when it is none of
  // DLE, ESC and GS.
  lemma ByteIsSafeIff(b: byte)
    ensures !Unsafe(b) <==> TranslatesTo([b], false, ResultOf(One(b)))
  {
    if !Unsafe(b) {
      TextByteTranslates(b, false);
    } else {
      UnsafeByteIsEaten(b);
    }
  }

  lemma UnsafeByteIsEaten(b: byte)
    requires Unsafe(b)
    ensures !TranslatesTo([b], false, ResultOf(One(b)))
  {
    var rest: seq<byte> := if b == 0x10 then [0x04, 0x01] else if b == 0x1B then [0x74, 0x00] else [0x72, 0x01];
    var s := [b] + rest;
    assert s == [b, rest[0], rest[1]];
    ThreeBytesDropped(s);
    assert |Join(ResultOf(One(b)), Transcode(rest, false)).bytes| >= 1;
    assert !Before([b], rest, false, ResultOf(One(b)));
  }

  lemma ThreeBytesDropped(s: seq<byte>)
    requires |s| == 3
    requires (s[0] == 0x10 && s[1] == 0x04) || (s[0] == 0x1B && s[1] == 0x74) || (s[0] == 0x1D && s[1] == 0x72)
    ensures Transcode(s, false).bytes == []
  {
    assert Next(s, false).Piece? && Next(s, false).taken == 3 && Next(s, false).out == [];
    assert s[3..] == [];
  }

  // --- Any bytes at all -----------------------------------------------------------

  lemma RowsLength(bpr: nat, rows: nat, data: seq<byte>)
    requires |data| >= bpr * rows
    ensures |RowBytes(bpr, rows, data)| == rows * 3 + bpr * rows
    decreases rows
  {
    if rows > 0 {
      BandFits(bpr, rows, 1);
      RowsLength(bpr, rows - 1, data[bpr..]);
    }
  }

  lemma RasterPieceLength(s: seq<byte>, raster: bool)
    ensures RasterPiece(s, raster).Piece? ==> |RasterPiece(s, raster).out| <= 4 * RasterPiece(s, raster).taken
  {
    if RasterPiece(s, raster).Piece? {
      var bpr: nat, rows: nat := Le16(s[4], s[5]), Le16(s[6], s[7]);
      Product(bpr, rows);
      if raster && bpr > 0 && rows > 0 { RowsLength(bpr, rows, s[8..8 + bpr * rows]); }
    }
  }

  lemma GsPieceLength(s: seq<byte>, raster: bool)
    requires |s| >= 2
    ensures GsPiece(s, raster).Piece? ==> |GsPiece(s, raster).out| <= 4 * GsPiece(s, raster).taken
  {
    if |s| >= 3 && s[1] == 0x76 && s[2] == 0x30 { RasterPieceLength(s, raster); }
  }

  lemma PieceLength(s: seq<byte>, raster: bool)
    requires s != [] && Next(s, raster).Piece?
    ensures |Next(s, raster).out| <= 4 * Next(s, raster).taken
  {
    if s[0] == 0x1D && |s| >= 2 { GsPieceLength(s, raster); }
  }

  // On any bytes at all the output is at most four times the input.
  lemma {:induction false} AtMostFourfold(s: seq<byte>, raster: bool)
    ensures |Transcode(s, raster).bytes| <= 4 * |s|
    ensures Transcode(s, raster).unknown <= |s|
  {
    if s != [] {
      var p := Next(s, raster);
      if p.Piece? {
        PieceLength(s, raster);
        AtMostFourfold(s[p.taken..], raster);
      }
    }
  }
}

// The ESC/POS command encoder (core/src/escpos_encoder.cpp): cached style state, chunked
// feeds, banded rasters, length-prefixed symbols.

module EscPosEncoding {
  import opened PrinterTypes
  import opened CodePages

  datatype Alignment = Left | Center | Right

  // One call on the encoder. `rows` of `bytesPerRow` packed bytes make a raster; a band of
  // 0 rows means one band for all.
  datatype Op =
    | Initialize
    | SelectCodePage(page: CodePage)
    | Align(to: Alignment)
    | Bold(on: bool)
    | Underline(dots: byte)
    | TextSize(width: byte, height: byte)
    | Text(utf8: seq<byte>)
    | Feed
    | FeedLines(lines: byte)
    | FeedDots(distance: uint16)
    | UseCutWithFeed(enabled: bool, units: byte)
    | Cut(full: bool)
    | KickCashDrawer(pin: byte, onTime: byte, offTime: byte)
    | Asb(enabled: bool, mask: byte)
    | ProcessId(token: seq<byte>)
    | RealtimeStatus(kind: byte)
    | QueuedPaperStatus
    | Raster(scale: byte, bytesPerRow: uint16, rows: uint16, data: seq<byte>, band: nat)
    | Qr(model: byte, moduleSize: byte, level: byte, data: seq<byte>)

  // What the encoder remembers between calls.
  datatype Style = Style(page: CodePage, align: Alignment, bold: bool, underline: byte, width: byte, height: byte,
                         cutFeed: Option<byte>)

  const POWER_ON := Style(PC437, Left, false, 0, 1, 1, None)

  // Every other call throws before anything is written.
  predicate Accepts(op: Op) {
    match op
    case Underline(dots) => dots <= 2
    case TextSize(w, h) => 1 <= w <= 8 && 1 <= h <= 8
    case KickCashDrawer(pin, _, _) => pin <= 1
    case ProcessId(token) => |token| == 4 && forall i :: 0 <= i < 4 ==> 0x20 <= token[i] <= 0x7E
    case Raster(_, bpr, rows, data, _) => bpr > 0 && rows > 0 && |data| == bpr * rows
    case Qr(_, size, _, data) => 1 <= size <= 16 && |data| <= 0xFFFF - 3
    case _ => true
  }

  function After(st: Style, op: Op): Style {
    match op
    case Initialize => POWER_ON.(cutFeed := st.cutFeed)
    case SelectCodePage(page) => st.(page := page)
    case Align(to) => st.(align := to)
    case Bold(on) => st.(bold := on)
    case Underline(dots) => st.(underline := dots)
    case TextSize(w, h) => st.(width := w, height := h)
    case UseCutWithFeed(enabled, units) => st.(cutFeed := if enabled then Some(units) else None)
    case _ => st
  }

  function PageCode(p: CodePage): byte {
    match p case PC437 => 0 case PC850 => 2 case WPC1252 => 16 case PC852 => 18 case PC858 => 19
  }

  function AlignCode(a: Alignment): byte { match a case Left => 0 case Center => 1 case Right => 2 }

  function Low(n: uint16): byte { n % 256 }
  function High(n: uint16): byte { n / 256 }

  function Dots(n: nat): seq<byte> {
    if n == 0 then [] else [0x1B, 0x4A, if n > 255 then 255 else n] + Dots(if n > 255 then n - 255 else 0)
  }

  function RasterCommand(scale: byte, bpr: uint16, rows: uint16, data: seq<byte>): seq<byte> {
    [0x1D, 0x76, 0x30, scale, Low(bpr), High(bpr), Low(rows), High(rows)] + data
  }

  function Min(a: nat, b: nat): nat { if a < b then a else b }

  lemma BandFits(bpr: nat, rows: nat, r: nat)
    requires r <= rows
    ensures 0 <= bpr * r <= bpr * rows && bpr * rows - bpr * r == bpr * (rows - r)
  {
    assert bpr * r + bpr * (rows - r) == bpr * rows;
  }

  function Bands(scale: byte, bpr: uint16, rows: uint16, data: seq<byte>, band: nat): seq<byte>
    requires band > 0 && |data| == bpr * rows
    decreases rows
  {
    if rows == 0 then []
    else
      var r := Min(band, rows);
      BandFits(bpr, rows, r);
      RasterCommand(scale, bpr, r, data[..bpr * r]) + Bands(scale, bpr, rows - r, data[bpr * r..], band)
  }

  function BandOf(band: nat, rows: nat): nat { if band == 0 then rows else band }

  // GS ( k with a length prefix that counts the operands behind it.
  function Symbol(operands: seq<byte>): seq<byte>
    requires |operands| < 0x1_0000
  {
    [0x1D, 0x28, 0x6B, Low(|operands|), High(|operands|)] + operands
  }

  function QrBytes(model: byte, size: byte, level: byte, data: seq<byte>): seq<byte>
    requires |data| <= 0xFFFF - 3
  {
    Symbol([0x31, 0x41, model, 0x00]) + Symbol([0x31, 0x43, size]) + Symbol([0x31, 0x45, level])
    + Symbol([0x31, 0x50, 0x30] + data) + Symbol([0x31, 0x51, 0x30])
  }

  // What one accepted call appends.
  function BytesOf(t: Table, st: Style, op: Op): seq<byte>
    requires Accepts(op)
  {
    match op
    case Initialize => [0x1B, 0x40]
    case SelectCodePage(page) => if st.page == page then [] else [0x1B, 0x74, PageCode(page)]
    case Align(to) => if st.align == to then [] else [0x1B, 0x61, AlignCode(to)]
    case Bold(on) => if st.bold == on then [] else [0x1B, 0x45, if on then 1 else 0]
    case Underline(dots) => if st.underline == dots then [] else [0x1B, 0x2D, dots]
    case TextSize(w, h) => if st.width == w && st.height == h then [] else [0x1D, 0x21, (w - 1) * 16 + (h - 1)]
    case Text(utf8) => Transliterate(t, st.page, utf8)
    case Feed => [0x0A]
    case FeedLines(lines) => [0x1B, 0x64, lines]
    case FeedDots(dots) => Dots(dots)
    case UseCutWithFeed(_, _) => []
    case Cut(full) =>
      if st.cutFeed.Some? then [0x1D, 0x56, if full then 65 else 66, st.cutFeed.value]
      else [0x1D, 0x56, if full then 0 else 1]
    case KickCashDrawer(pin, onTime, offTime) => [0x1B, 0x70, pin, onTime, offTime]
    case Asb(enabled, mask) => [0x1D, 0x61, if enabled then mask else 0]
    case ProcessId(token) => [0x1D, 0x28, 0x48, 0x06, 0x00, 0x30, 0x30] + token
    case RealtimeStatus(kind) => [0x10, 0x04, kind]
    case QueuedPaperStatus => [0x1D, 0x72, 0x01]
    case Raster(scale, bpr, rows, data, band) => Bands(scale, bpr, rows, data, BandOf(band, rows))
    case Qr(model, size, level, data) => QrBytes(model, size, level, data)
  }

  predicate AllAccepted(ops: seq<Op>) { forall op :: op in ops ==> Accepts(op) }

  function Encode(t: Table, st: Style, ops: seq<Op>): seq<byte>
    requires AllAccepted(ops)
    decreases |ops|
  {
    if ops == [] then [] else BytesOf(t, st, ops[0]) + Encode(t, After(st, ops[0]), ops[1..])
  }

  class Encoder {
    const table: Table
    var buffer: seq<byte>
    var page: CodePage
    var align: Alignment
    var bold: bool
    var underline: byte
    var width: byte
    var height: byte
    var cutWithFeed: bool
    var cutFeedUnits: byte

    function Abstract(): Style
      reads this
    {
      Style(page, align, bold, underline, width, height, if cutWithFeed then Some(cutFeedUnits) else None)
    }

    constructor (table: Table)
      ensures this.table == table && buffer == [] && Abstract() == POWER_ON
    {
      this.table := table;
      buffer, page, align, bold, underline, width, height := [], PC437, Left, false, 0, 1, 1;
      cutWithFeed, cutFeedUnits := false, 0;
    }

    method ResetStyle()
      modifies this
      ensures buffer == old(buffer) && Abstract() == POWER_ON.(cutFeed := old(Abstract()).cutFeed)
    {
      page, align, bold, underline, width, height := PC437, Left, false, 0, 1, 1;
    }

    method FeedDots(dots: uint16)
      modifies `buffer
      ensures buffer == old(buffer) + Dots(dots)
    {
      var left := dots;
      while left > 0
        invariant buffer + Dots(left) == old(buffer) + Dots(dots)
      {
        var chunk := if left > 255 then 255 else left;
        Associate(buffer, [0x1B, 0x4A, chunk], Dots(left - chunk));
        buffer := buffer + [0x1B, 0x4A, chunk];
        left := left - chunk;
      }
    }

    method AppendBandedRaster(scale: byte, bpr: uint16, rows: uint16, data: seq<byte>, maxRows: nat)
      requires rows > 0 && |data| == bpr * rows
      modifies `buffer
      ensures buffer == old(buffer) + Bands(scale, bpr, rows, data, BandOf(maxRows, rows))
    {
      var band := if maxRows == 0 then rows else maxRows;
      var row := 0;
      while row < rows
        invariant 0 <= row <= rows && 0 <= bpr * row <= |data| && |data[bpr * row..]| == bpr * (rows - row)
        invariant buffer + Bands(scale, bpr, rows - row, data[bpr * row..], band) == old(buffer) + Bands(scale, bpr, rows, data, band)
        decreases rows - row
      {
        var r := Min(band, rows - row);
        BandFits(bpr, rows, row);
        BandFits(bpr, rows, row + r);
        BandFits(bpr, row + r, row);
        NextBand(buffer, scale, bpr, rows, row, r, data, band);
        buffer := buffer + RasterCommand(scale, bpr, r, data[bpr * row..bpr * (row + r)]);
        row := row + r;
      }
    }

    predicate IsCommand(op: Op) {
      op.Feed? || op.FeedLines? || op.Cut? || op.KickCashDrawer? || op.Asb? || op.ProcessId? || op.RealtimeStatus?
      || op.QueuedPaperStatus? || op.Qr?
    }

    // One call; false stands for the thrown EncodingError, which changes nothing.
    method Apply(op: Op) returns (ok: bool)
      requires IsTable(table)
      modifies this
      ensures ok <==> Accepts(op)
      ensures !ok ==> buffer == old(buffer) && Abstract() == old(Abstract())
      ensures ok ==> buffer == old(buffer) + BytesOf(table, old(Abstract()), op) && Abstract() == After(old(Abstract()), op)
    {
      if !Accepts(op) { return false; }
      ok := true;
      match op {
        case Initialize =>
          buffer := buffer + [0x1B, 0x40];
          ResetStyle();
        case SelectCodePage(p) =>
          if page != p { page := p; buffer := buffer + [0x1B, 0x74, PageCode(p)]; }
        case Align(to) =>
          if align != to { align := to; buffer := buffer + [0x1B, 0x61, AlignCode(to)]; }
        case Bold(on) =>
          if bold != on { bold := on; buffer := buffer + [0x1B, 0x45, if on then 1 else 0]; }
        case Underline(dots) =>
          if underline != dots { underline := dots; buffer := buffer + [0x1B, 0x2D, dots]; }
        case TextSize(w, h) =>
          if width != w || height != h { width, height := w, h; buffer := buffer + [0x1D, 0x21, (w - 1) * 16 + (h - 1)]; }
        case Text(utf8) =>
          var encoded := TransliterateText(table, page, utf8);
          buffer := buffer + encoded;
        case FeedDots(dots) => FeedDots(dots);
        case UseCutWithFeed(enabled, units) => cutWithFeed, cutFeedUnits := enabled, units;
        case Raster(scale, bpr, rows, data, band) => AppendBandedRaster(scale, bpr, rows, data, band);
        case _ => ApplyCommand(op);
      }
    }

    // The calls that neither look at the style nor change it, but for the cut setting.
    method ApplyCommand(op: Op)
      requires Accepts(op) && IsCommand(op)
      modifies `buffer
      ensures buffer == old(buffer) + BytesOf(table, Abstract(), op)
    {
      match op {
        case Feed => buffer := buffer + [0x0A];
        case FeedLines(lines) => buffer := buffer + [0x1B, 0x64, lines];
        case Cut(full) => PutCut(full);
        case KickCashDrawer(pin, onTime, offTime) => buffer := buffer + [0x1B, 0x70, pin, onTime, offTime];
        case Asb(enabled, mask) => buffer := buffer + [0x1D, 0x61, if enabled then mask else 0];
        case ProcessId(token) => buffer := buffer + ([0x1D, 0x28, 0x48, 0x06, 0x00, 0x30, 0x30] + token);
        case RealtimeStatus(kind) => buffer := buffer + [0x10, 0x04, kind];
        case QueuedPaperStatus => buffer := buffer + [0x1D, 0x72, 0x01];
        case Qr(model, size, level, data) => PutQr(model, size, level, data);
      }
    }

    method PutCut(full: bool)
      modifies `buffer
      ensures buffer == old(buffer) + if cutWithFeed then [0x1D, 0x56, if full then 65 else 66, cutFeedUnits]
                                      else [0x1D, 0x56, if full then 0 else 1]
    {
      if cutWithFeed { buffer := buffer + [0x1D, 0x56, if full then 65 else 66, cutFeedUnits]; }
      else { buffer := buffer + [0x1D, 0x56, if full then 0 else 1]; }
    }

    // Model, module size, error correction, the data behind its 16-bit length, print.
    method PutQr(model: byte, size: byte, level: byte, data: seq<byte>)
      requires |data| <= 0xFFFF - 3
      modifies `buffer
      ensures buffer == old(buffer) + QrBytes(model, size, level, data)
    {
      var length := |data| + 3;
      ghost var before := buffer;
      QrIsFivePuts(before, model, size, level, data);
      buffer := buffer + [0x1D, 0x28, 0x6B, 0x04, 0x00, 0x31, 0x41, model, 0x00];
      buffer := buffer + [0x1D, 0x28, 0x6B, 0x03, 0x00, 0x31, 0x43, size];
      buffer := buffer + [0x1D, 0x28, 0x6B, 0x03, 0x00, 0x31, 0x45, level];
      buffer := buffer + [0x1D, 0x28, 0x6B, length % 256, length / 256 % 256, 0x31, 0x50, 0x30];
      buffer := buffer + data;
      buffer := buffer + [0x1D, 0x28, 0x6B, 0x03, 0x00, 0x31, 0x51, 0x30];
    }
  }

  // Each symbol command carries the length of the operands behind it.
  lemma QrIsFivePuts(before: seq<byte>, model: byte, size: byte, level: byte, data: seq<byte>)
    requires |data| <= 0xFFFF - 3
    ensures var n := |data| + 3;
            before + [0x1D, 0x28, 0x6B, 0x04, 0x00, 0x31, 0x41, model, 0x00] + [0x1D, 0x28, 0x6B, 0x03, 0x00, 0x31, 0x43, size]
            + [0x1D, 0x28, 0x6B, 0x03, 0x00, 0x31, 0x45, level] + [0x1D, 0x28, 0x6B, n % 256, n / 256 % 256, 0x31, 0x50, 0x30]
            + data + [0x1D, 0x28, 0x6B, 0x03, 0x00, 0x31, 0x51, 0x30]
            == before + QrBytes(model, size, level, data)
  {
    var n := |data| + 3;
    var a, b, c := Symbol([0x31, 0x41, model, 0x00]), Symbol([0x31, 0x43, size]), Symbol([0x31, 0x45, level]);
    var d, e := Symbol([0x31, 0x50, 0x30] + data), Symbol([0x31, 0x51, 0x30]);
    assert a == [0x1D, 0x28, 0x6B, 0x04, 0x00, 0x31, 0x41, model, 0x00];
    assert b == [0x1D, 0x28, 0x6B, 0x03, 0x00, 0x31, 0x43, size];
    assert c == [0x1D, 0x28, 0x6B, 0x03, 0x00, 0x31, 0x45, level];
    assert d == [0x1D, 0x28, 0x6B, n % 256, n / 256 % 256, 0x31, 0x50, 0x30] + data;
    assert e == [0x1D, 0x28, 0x6B, 0x03, 0x00, 0x31, 0x51, 0x30];
    Associate(before + a + b + c, [0x1D, 0x28, 0x6B, n % 256, n / 256 % 256, 0x31, 0x50, 0x30], data);
    Gather(before, a, b, c, d, e);
  }

  lemma Gather(before: seq<byte>, a: seq<byte>, b: seq<byte>, c: seq<byte>, d: seq<byte>, e: seq<byte>)
    ensures before + a + b + c + d + e == before + (a + b + c + d + e)
  {
    Associate(before, a, b);
    Associate(before, a + b, c);
    Associate(before, a + b + c, d);
    Associate(before, a + b + c + d, e);
  }

  lemma NextBand(before: seq<byte>, scale: byte, bpr: uint16, rows: uint16, row: nat, r: uint16, data: seq<byte>, band: nat)
    requires row < rows && band > 0 && |data| == bpr * rows && r == Min(band, rows - row)
    requires 0 <= bpr * row <= bpr * (row + r) <= |data|
    requires |data[bpr * row..]| == bpr * (rows - row) && |data[bpr * (row + r)..]| == bpr * (rows - row - r)
    ensures before + Bands(scale, bpr, rows - row, data[bpr * row..], band)
            == before + RasterCommand(scale, bpr, r, data[bpr * row..bpr * (row + r)])
               + Bands(scale, bpr, rows - row - r, data[bpr * (row + r)..], band)
  {
    var rest := data[bpr * row..];
    BandFits(bpr, rows - row, r);
    BandFits(bpr, row + r, row);
    assert data[bpr * row..bpr * (row + r)] == rest[..bpr * r];
    assert data[bpr * (row + r)..] == rest[bpr * r..];
    Associate(before, RasterCommand(scale, bpr, r, rest[..bpr * r]), Bands(scale, bpr, rows - row - r, rest[bpr * r..], band));
  }

  lemma Associate(a: seq<byte>, b: seq<byte>, c: seq<byte>)
    ensures a + (b + c) == (a + b) + c
  {
  }
}

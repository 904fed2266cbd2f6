// The Star Line Mode encoder (core/src/star.cpp, Encoder), and what it makes of each call
// an ESC/POS document is written with.

module StarEncoding {
  import opened PrinterTypes
  import opened CodePages
  import opened EscPosEncoding

  // Everything above 7-bit ASCII prints as '?'.
  function Ascii(s: seq<byte>): seq<byte> {
    seq(|s|, i requires 0 <= i < |s| => if s[i] < 0x80 then s[i] else FALLBACK)
  }

  function AlignBytes(now: Alignment, to: Alignment): seq<byte> {
    if now == to then [] else [0x1B, 0x1D, 0x61, AlignCode(to)]
  }

  function BoldBytes(now: bool, on: bool): seq<byte> { if now == on then [] else [0x1B, if on then 0x45 else 0x46] }

  function UnderlineBytes(now: bool, on: bool): seq<byte> { if now == on then [] else [0x1B, 0x2D, if on then 1 else 0] }

  function FeedLinesBytes(lines: byte): seq<byte> { if lines == 0 then [] else [0x1B, 0x61, lines] }

  function CutBytes(full: bool): seq<byte> { [0x1B, 0x64, if full then 2 else 3] }

  const RASTER_ENTER: seq<byte> := [0x1B, 0x2A, 0x72, 0x41]
  const RASTER_QUIT: seq<byte> := [0x1B, 0x2A, 0x72, 0x42]

  // One b command a row; the length field is sixteen bits.
  function RowBytes(bpr: nat, rows: nat, data: seq<byte>): seq<byte>
    requires |data| >= bpr * rows
    decreases rows
  {
    if rows == 0 then []
    else
      BandFits(bpr, rows, 1);
      [0x62, bpr % 256, bpr / 256 % 256] + data[..bpr] + RowBytes(bpr, rows - 1, data[bpr..])
  }

  function RasterBytes(bpr: nat, rows: nat, data: seq<byte>): seq<byte>
    requires |data| >= bpr * rows
  {
    RASTER_ENTER + RowBytes(bpr, rows, data) + RASTER_QUIT
  }

  class Encoder {
    var buffer: seq<byte>
    var align: Alignment
    var bold: bool
    var underline: bool

    constructor ()
      ensures buffer == [] && align == Left && !bold && !underline
    {
      buffer, align, bold, underline := [], Left, false, false;
    }

    method Initialize()
      modifies this
      ensures buffer == old(buffer) + [0x1B, 0x40] && align == Left && !bold && !underline
    {
      buffer, align, bold, underline := buffer + [0x1B, 0x40], Left, false, false;
    }

    method SetAlign(to: Alignment)
      modifies this
      ensures buffer == old(buffer) + AlignBytes(old(align), to) && align == to
      ensures bold == old(bold) && underline == old(underline)
    {
      if align == to { return; }
      align := to;
      buffer := buffer + [0x1B, 0x1D, 0x61, AlignCode(to)];
    }

    method SetBold(on: bool)
      modifies this
      ensures buffer == old(buffer) + BoldBytes(old(bold), on) && bold == on
      ensures align == old(align) && underline == old(underline)
    {
      if bold == on { return; }
      bold := on;
      buffer := buffer + [0x1B, if on then 0x45 else 0x46];
    }

    method SetUnderline(on: bool)
      modifies this
      ensures buffer == old(buffer) + UnderlineBytes(old(underline), on) && underline == on
      ensures align == old(align) && bold == old(bold)
    {
      if underline == on { return; }
      underline := on;
      buffer := buffer + [0x1B, 0x2D, if on then 1 else 0];
    }

    method Text(s: seq<byte>)
      modifies `buffer
      ensures buffer == old(buffer) + Ascii(s)
    {
      for i := 0 to |s|
        invariant buffer == old(buffer) + Ascii(s[..i])
      {
        assert Ascii(s[..i + 1]) == Ascii(s[..i]) + [if s[i] < 0x80 then s[i] else FALLBACK];
        Associate(old(buffer), Ascii(s[..i]), [if s[i] < 0x80 then s[i] else FALLBACK]);
        buffer := buffer + [if s[i] < 0x80 then s[i] else FALLBACK];
      }
      assert s[..|s|] == s;
    }

    method FeedLines(lines: byte)
      modifies `buffer
      ensures buffer == old(buffer) + FeedLinesBytes(lines)
    {
      if lines == 0 { return; }
      buffer := buffer + [0x1B, 0x61, lines];
    }

    method FeedDots(dots: uint16)
      modifies `buffer
      ensures buffer == old(buffer) + Dots(dots)
    {
      var remaining := dots;
      while remaining > 0
        invariant buffer + Dots(remaining) == old(buffer) + Dots(dots)
      {
        var step := if remaining > 255 then 255 else remaining;
        Associate(buffer, [0x1B, 0x4A, step], Dots(remaining - step));
        buffer := buffer + [0x1B, 0x4A, step];
        remaining := remaining - step;
      }
    }

    method Cut(full: bool)
      modifies `buffer
      ensures buffer == old(buffer) + CutBytes(full)
    {
      buffer := buffer + [0x1B, 0x64, if full then 2 else 3];
    }

    // A raster that does not hold what its dimensions say is silently left out.
    method RasterPacked(data: seq<byte>, widthDots: nat, heightDots: nat)
      modifies `buffer
      ensures var bpr := (widthDots + 7) / 8;
              buffer == if widthDots == 0 || heightDots == 0 || |data| < bpr * heightDots then old(buffer)
                        else old(buffer) + RasterBytes(bpr, heightDots, data)
    {
      var bpr := (widthDots + 7) / 8;
      if widthDots == 0 || heightDots == 0 { return; }
      if |data| < bpr * heightDots { return; }
      buffer := buffer + RASTER_ENTER;
      AppendRows(bpr, heightDots, data);
      ghost var rows := RowBytes(bpr, heightDots, data);
      Associate(old(buffer), RASTER_ENTER, rows);
      Associate(old(buffer), RASTER_ENTER + rows, RASTER_QUIT);
      buffer := buffer + RASTER_QUIT;
    }

    method AppendRows(bpr: nat, rows: nat, data: seq<byte>)
      requires |data| >= bpr * rows
      modifies `buffer
      ensures buffer == old(buffer) + RowBytes(bpr, rows, data)
    {
      var row := 0;
      while row < rows
        invariant 0 <= row <= rows && 0 <= bpr * row <= |data| && |data[bpr * row..]| >= bpr * (rows - row)
        invariant buffer + RowBytes(bpr, rows - row, data[bpr * row..]) == old(buffer) + RowBytes(bpr, rows, data)
        decreases rows - row
      {
        BandFits(bpr, rows, row + 1);
        BandFits(bpr, row + 1, row);
        BandFits(bpr, rows - row, 1);
        ghost var rest := data[bpr * row..];
        var head: seq<byte> := [0x62, bpr % 256, bpr / 256 % 256];
        assert data[bpr * row..bpr * (row + 1)] == rest[..bpr];
        assert data[bpr * (row + 1)..] == rest[bpr..];
        Associate(buffer, head + rest[..bpr], RowBytes(bpr, rows - row - 1, rest[bpr..]));
        Associate(buffer, head, rest[..bpr]);
        buffer := buffer + head;
        buffer := buffer + data[bpr * row..bpr * (row + 1)];
        row := row + 1;
      }
    }
  }

  // --- The Star rendering of a document -------------------------------------------

  // What a Star printer's pen is set to, as far as the encoder remembers. Star has no
  // underline thickness.
  datatype Pen = Pen(page: CodePage, align: Alignment, bold: bool, underlined: bool, width: byte, height: byte)

  function PenAfter(pen: Pen, op: Op): Pen {
    match op
    case Initialize => Pen(PC437, Left, false, false, 1, 1)
    case SelectCodePage(page) => pen.(page := page)
    case Align(to) => pen.(align := to)
    case Bold(on) => pen.(bold := on)
    case Underline(dots) => pen.(underlined := dots != 0)
    case TextSize(w, h) => pen.(width := w, height := h)
    case _ => pen
  }

  function StarBands(bpr: uint16, rows: uint16, data: seq<byte>, band: nat): seq<byte>
    requires band > 0 && |data| == bpr * rows
    decreases rows
  {
    if rows == 0 then []
    else
      var r := Min(band, rows);
      BandFits(bpr, rows, r);
      RasterBytes(bpr, r, data[..bpr * r]) + StarBands(bpr, rows - r, data[bpr * r..], band)
  }

  // Each document call in Star's own spelling. Star takes the height before the width;
  // rasters only where the profile enables them; the rest has no Star equivalent here.
  function StarBytes(t: Table, pen: Pen, op: Op, raster: bool): seq<byte>
    requires Accepts(op)
  {
    match op
    case Initialize => [0x1B, 0x40]
    case Align(to) => AlignBytes(pen.align, to)
    case Bold(on) => BoldBytes(pen.bold, on)
    case Underline(dots) => UnderlineBytes(pen.underlined, dots != 0)
    case TextSize(w, h) => if pen.width == w && pen.height == h then [] else [0x1B, 0x69, h - 1, w - 1]
    case Text(utf8) => Ascii(Transliterate(t, pen.page, utf8))
    case Feed => [0x0A]
    case FeedLines(lines) => FeedLinesBytes(lines)
    case FeedDots(distance) => Dots(distance)
    case Cut(full) => CutBytes(full)
    case Raster(_, bpr, rows, data, band) => if raster then StarBands(bpr, rows, data, BandOf(band, rows)) else []
    case _ => []
  }

  function Render(t: Table, pen: Pen, ops: seq<Op>, raster: bool): seq<byte>
    requires AllAccepted(ops)
    decreases |ops|
  {
    if ops == [] then [] else StarBytes(t, pen, ops[0], raster) + Render(t, PenAfter(pen, ops[0]), ops[1..], raster)
  }

  // What a transcoded document declares dropped.
  datatype Note =
    | CodePageNote | DrawerNote | RasterNote | SymbolNote | FenceNote | UnsupportedNote | QueuedNote | AsbNote
    | RealtimeNote | NonAsciiNote
}

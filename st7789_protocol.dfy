/** The ST7789 driver's bus protocol (components/st7789/st7789.cpp): the
    event sequence each operation produces, and, as an independent
    reference, the transfers the panel receives from it. */
module St7789Protocol {
  import opened St7789Wire

  // Command codes of the ST7789 controller (its datasheet, section 9).
  const SLPOUT: byte := 0x11
  const NORON: byte := 0x13
  const INVON: byte := 0x21
  const DISPON: byte := 0x29
  const CASET: byte := 0x2A
  const RASET: byte := 0x2B
  const RAMWR: byte := 0x2C
  const MADCTL: byte := 0x36
  const COLMOD: byte := 0x3A
  const RAMCTRL: byte := 0xB0
  const PORCTRL: byte := 0xB2
  const GCTRL: byte := 0xB7
  const VCOMS: byte := 0xBB
  const LCMCTRL: byte := 0xC0
  const VDVVRHEN: byte := 0xC2
  const VRHS: byte := 0xC3
  const VDVS: byte := 0xC4
  const FRCTRL2: byte := 0xC6
  const PWCTRL1: byte := 0xD0
  const PVGAMCTRL: byte := 0xE0
  const NVGAMCTRL: byte := 0xE1

  /** MADCTL colour-order bit: BGR. */
  const MADCTL_COLOR_ORDER: byte := 0x08

  /** The last column and row of the window `write_display_data` sets. */
  const DISPLAY_LAST: u16 := 239

  /** The last column and row of the rectangle `setup` clears. */
  const CLEAR_LAST_COLUMN: u16 := 239
  const CLEAR_LAST_ROW: u16 := 319

  /** Bytes in `write_color_`'s scratch array. */
  const SCRATCH_SIZE: nat := 1024

  // ---------------------------------------------------------------------
  // What the panel should receive.

  /** A command byte: chip selected, D/C low. */
  function CommandFrame(value: byte): Frame {
    Frame(true, false, [value])
  }

  /** Parameter or pixel bytes: chip selected, D/C high. */
  function DataFrame(bytes: seq<byte>): Frame {
    Frame(true, true, bytes)
  }

  /** A window's start and end addresses, each as a big-endian pair. */
  function AddrBytes(addr1: u16, addr2: u16): seq<byte> {
    [Hi(addr1), Lo(addr1), Hi(addr2), Lo(addr2)]
  }

  /** The panel decodes the four address bytes back into the two addresses. */
  lemma AddrBytesDecode(addr1: u16, addr2: u16)
    ensures |AddrBytes(addr1, addr2)| == 4
    ensures Word(AddrBytes(addr1, addr2)[0], AddrBytes(addr1, addr2)[1]) == addr1
    ensures Word(AddrBytes(addr1, addr2)[2], AddrBytes(addr1, addr2)[3]) == addr2
  {
    WordSplit(addr1, 0, 0);
    WordSplit(addr2, 0, 0);
  }

  /** Setting the column window, then the row window, then starting a memory write. */
  function WindowFrames(x1: u16, x2: u16, y1: u16, y2: u16): seq<Frame> {
    [CommandFrame(CASET), DataFrame(AddrBytes(x1, x2)),
     CommandFrame(RASET), DataFrame(AddrBytes(y1, y2)),
     CommandFrame(RAMWR)]
  }

  /** `count` transfers of `size` pixels of one colour each. */
  function ColumnFrames(color: u16, size: nat, count: nat): (r: seq<Frame>)
    ensures |r| == count
    ensures forall f :: f in r ==> f.selected && f.data
  {
    if count == 0 then [] else ColumnFrames(color, size, count - 1) + [DataFrame(PixelRun(color, size))]
  }

  /** The pixels in `count` columns of `size`, added up column by column. */
  function ColumnPixels(size: nat, count: nat): nat {
    if count == 0 then 0 else ColumnPixels(size, count - 1) + size
  }

  lemma {:induction false} ColumnPixelsProduct(size: nat, count: nat)
    ensures ColumnPixels(size, count) == count * size
  {
    if count > 0 {
      ColumnPixelsProduct(size, count - 1);
      assert (count - 1) * size + size == count * size;
    }
  }

  lemma {:induction false} ColumnPayloadSum(color: u16, size: nat, count: nat)
    ensures Payload(ColumnFrames(color, size, count)) == PixelRun(color, ColumnPixels(size, count))
  {
    if count > 0 {
      var r := ColumnFrames(color, size, count);
      assert r[..|r| - 1] == ColumnFrames(color, size, count - 1);
      ColumnPayloadSum(color, size, count - 1);
      PixelRunAppend(color, ColumnPixels(size, count - 1), size);
    }
  }

  /** The pixels of a run of columns, back to back, are one run of all of them. */
  lemma ColumnPayload(color: u16, size: nat, count: nat)
    ensures Payload(ColumnFrames(color, size, count)) == PixelRun(color, count * size)
  {
    ColumnPayloadSum(color, size, count);
    ColumnPixelsProduct(size, count);
  }

  // ---------------------------------------------------------------------
  // What each operation does on the pins and the bus.

  /** `write_command_`: select, D/C low, the byte, D/C high, deselect. */
  function CommandEvents(value: byte): seq<Event> {
    [Enable, PinWrite(DcPin, false), Send([value]), PinWrite(DcPin, true), Disable]
  }

  /** `write_data_`: D/C high, select, the byte, deselect. */
  function DataEvents(value: byte): seq<Event> {
    [PinWrite(DcPin, true), Enable, Send([value]), Disable]
  }

  /** `write_addr_`: D/C high, then the four address bytes in one transfer. */
  function AddrEvents(addr1: u16, addr2: u16): seq<Event> {
    [PinWrite(DcPin, true), Send(AddrBytes(addr1, addr2))]
  }

  /** `write_color_`: D/C high, then `size` pixels in one transfer. */
  function ColorEvents(color: u16, size: nat): seq<Event> {
    [PinWrite(DcPin, true), Send(PixelRun(color, size))]
  }

  /** A command byte inside an open transaction: D/C low, the byte, D/C high. */
  function InlineCommandEvents(value: byte): seq<Event> {
    [PinWrite(DcPin, false), Send([value]), PinWrite(DcPin, true)]
  }

  /** The window set-up shared by `draw_filled_rect_` and `write_display_data`. */
  function WindowEvents(x1: u16, x2: u16, y1: u16, y2: u16): seq<Event> {
    InlineCommandEvents(CASET) + AddrEvents(x1, x2)
    + InlineCommandEvents(RASET) + AddrEvents(y1, y2)
    + InlineCommandEvents(RAMWR)
  }

  /** The column height `y2 - y1 + 1`, truncated to the 16 bits of its variable. */
  function ColumnHeight(y1: u16, y2: u16): u16 {
    (y2 - y1 + 1) % 0x1_0000
  }

  /** The number of passes of `for (int i = x1; i <= x2; i++)`. */
  function ColumnCount(x1: u16, x2: u16): nat {
    if x1 <= x2 then x2 - x1 + 1 else 0
  }

  function ColumnsEvents(color: u16, size: nat, count: nat): seq<Event> {
    if count == 0 then [] else ColumnsEvents(color, size, count - 1) + ColorEvents(color, size)
  }

  /** `draw_filled_rect_`. */
  function FilledRectEvents(x1: u16, y1: u16, x2: u16, y2: u16, color: u16): seq<Event> {
    [Enable] + WindowEvents(x1, x2, y1, y2)
    + ColumnsEvents(color, ColumnHeight(y1, y2), ColumnCount(x1, x2))
    + [Disable]
  }

  /** `write_display_data`: the window 0..239 by 0..239, then the whole buffer. */
  function DisplayDataEvents(buffer: seq<byte>): seq<Event> {
    [Enable] + WindowEvents(0, DISPLAY_LAST, 0, DISPLAY_LAST) + [Send(buffer)] + [Disable]
  }

  /** `init_reset_`: a reset pulse when a reset pin is configured. */
  function ResetEvents(hasResetPin: bool): seq<Event> {
    if hasResetPin then
      [PinSetup(ResetPin), PinWrite(ResetPin, true), Delay(1),
       PinWrite(ResetPin, false), Delay(10), PinWrite(ResetPin, true)]
    else []
  }

  /** `backlight_`: drive the backlight pin when one is configured. */
  function BacklightEvents(hasBacklightPin: bool, on: bool): seq<Event> {
    if hasBacklightPin then [PinSetup(BacklightPin), PinWrite(BacklightPin, on)] else []
  }

  // ---------------------------------------------------------------------
  // The initialisation sequence of `setup`.

  /** One command of the initialisation, its parameter bytes, and the pause after it (0: none). */
  datatype InitStep = InitStep(command: byte, data: seq<byte>, pause: nat)

  /** The commands `setup` sends between the reset and the screen clear, in order. */
  const INIT_SEQUENCE: seq<InitStep> := [
    InitStep(SLPOUT, [], 120),
    InitStep(NORON, [], 0),
    InitStep(MADCTL, [MADCTL_COLOR_ORDER], 0),
    InitStep(0xB6, [0x0A, 0x82], 0),
    InitStep(RAMCTRL, [0x00, 0xE0], 0),
    InitStep(COLMOD, [0x55], 10),
    InitStep(PORCTRL, [0x0C, 0x0C, 0x00, 0x33, 0x33], 0),
    InitStep(GCTRL, [0x35], 0),
    InitStep(VCOMS, [0x28], 0),
    InitStep(LCMCTRL, [0x0C], 0),
    InitStep(VDVVRHEN, [0x01, 0xFF], 0),
    InitStep(VRHS, [0x10], 0),
    InitStep(VDVS, [0x20], 0),
    InitStep(FRCTRL2, [0x0F], 0),
    InitStep(PWCTRL1, [0xA4, 0xA1], 0),
    InitStep(PVGAMCTRL, [0xD0, 0x00, 0x02, 0x07, 0x0A, 0x28, 0x32, 0x44, 0x42, 0x06, 0x0E, 0x12, 0x14, 0x17], 0),
    InitStep(NVGAMCTRL, [0xD0, 0x00, 0x02, 0x07, 0x0A, 0x28, 0x31, 0x54, 0x47, 0x0E, 0x1C, 0x17, 0x1B, 0x1E], 0),
    InitStep(INVON, [], 0),
    InitStep(CASET, [0x00, 0x00, 0x00, 0xEF], 0),
    InitStep(RASET, [0x00, 0x00, 0x01, 0x3F], 0)
  ]

  /** Parameter bytes, each by its own `write_data_`. */
  function DataRunEvents(data: seq<byte>): seq<Event> {
    if data == [] then [] else DataRunEvents(data[..|data| - 1]) + DataEvents(data[|data| - 1])
  }

  function PauseEvents(ms: nat): seq<Event> {
    if ms == 0 then [] else [Delay(ms)]
  }

  function StepEvents(step: InitStep): seq<Event> {
    CommandEvents(step.command) + DataRunEvents(step.data) + PauseEvents(step.pause)
  }

  function InitEvents(steps: seq<InitStep>): seq<Event> {
    if steps == [] then [] else InitEvents(steps[..|steps| - 1]) + StepEvents(steps[|steps| - 1])
  }

  /** One more step of a table adds that step's events at the end. */
  lemma InitEventsExtend(steps: seq<InitStep>, k: nat)
    requires k < |steps|
    ensures InitEvents(steps[..k + 1]) == InitEvents(steps[..k]) + StepEvents(steps[k])
  {
    assert steps[..k + 1][..k] == steps[..k];
  }

  /** Parameter bytes as the panel sees them: one transfer per byte. */
  function DataByteFrames(data: seq<byte>): seq<Frame> {
    seq(|data|, i requires 0 <= i < |data| => DataFrame([data[i]]))
  }

  /** The panel's view of one step: the command, then its parameter bytes. */
  function StepFrames(step: InitStep): seq<Frame> {
    [CommandFrame(step.command)] + DataByteFrames(step.data)
  }

  function InitFrames(steps: seq<InitStep>): (r: seq<Frame>)
    ensures forall f :: f in r ==> f.selected
  {
    if steps == [] then [] else InitFrames(steps[..|steps| - 1]) + StepFrames(steps[|steps| - 1])
  }

  /** Everything `setup` does before it allocates the frame buffer. */
  function SetupEvents(hasResetPin: bool, hasBacklightPin: bool): seq<Event> {
    [SpiSetup, PinSetup(DcPin)] + ResetEvents(hasResetPin)
    + InitEvents(INIT_SEQUENCE)
    + FilledRectEvents(0, 0, CLEAR_LAST_COLUMN, CLEAR_LAST_ROW, 0x0000)
    + [Delay(120)] + CommandEvents(DISPON) + [Delay(120)]
    + BacklightEvents(hasBacklightPin, true)
  }

  // ---------------------------------------------------------------------
  // Each operation's events put on the wire exactly the reference frames.

  /** A command goes out with D/C low inside its own transaction, which
      leaves the chip deselected and D/C high. */
  lemma CommandWire(value: byte, lines: Lines)
    ensures Wire(CommandEvents(value), lines) == [CommandFrame(value)]
    ensures After(CommandEvents(value), lines) == Lines(false, true)
  {
    WireCons(Disable, [], Lines(true, true));
    WireCons(PinWrite(DcPin, true), [Disable], Lines(true, false));
    WireCons(Send([value]), [PinWrite(DcPin, true), Disable], Lines(true, false));
    WireCons(PinWrite(DcPin, false), [Send([value]), PinWrite(DcPin, true), Disable], lines.(selected := true));
    WireCons(Enable, [PinWrite(DcPin, false), Send([value]), PinWrite(DcPin, true), Disable], lines);
  }

  /** A parameter byte goes out with D/C high inside its own transaction. */
  lemma DataWire(value: byte, lines: Lines)
    ensures Wire(DataEvents(value), lines) == [DataFrame([value])]
    ensures After(DataEvents(value), lines) == Lines(false, true)
  {
    WireCons(Disable, [], Lines(true, true));
    WireCons(Send([value]), [Disable], Lines(true, true));
    WireCons(Enable, [Send([value]), Disable], lines.(data := true));
    WireCons(PinWrite(DcPin, true), [Enable, Send([value]), Disable], lines);
  }

  /** The address bytes go out as data, within whatever transaction is open. */
  lemma AddrWire(addr1: u16, addr2: u16, lines: Lines)
    ensures Wire(AddrEvents(addr1, addr2), lines) == [Frame(lines.selected, true, AddrBytes(addr1, addr2))]
    ensures After(AddrEvents(addr1, addr2), lines) == lines.(data := true)
  {
    WireCons(Send(AddrBytes(addr1, addr2)), [], lines.(data := true));
    WireCons(PinWrite(DcPin, true), [Send(AddrBytes(addr1, addr2))], lines);
  }

  /** A colour batch goes out as data, within whatever transaction is open. */
  lemma ColorWire(color: u16, size: nat, lines: Lines)
    ensures Wire(ColorEvents(color, size), lines) == [Frame(lines.selected, true, PixelRun(color, size))]
    ensures After(ColorEvents(color, size), lines) == lines.(data := true)
  {
    WireCons(Send(PixelRun(color, size)), [], lines.(data := true));
    WireCons(PinWrite(DcPin, true), [Send(PixelRun(color, size))], lines);
  }

  lemma InlineCommandWire(value: byte, lines: Lines)
    ensures Wire(InlineCommandEvents(value), lines) == [Frame(lines.selected, false, [value])]
    ensures After(InlineCommandEvents(value), lines) == lines.(data := true)
  {
    WireCons(PinWrite(DcPin, true), [], lines.(data := false));
    WireCons(Send([value]), [PinWrite(DcPin, true)], lines.(data := false));
    WireCons(PinWrite(DcPin, false), [Send([value]), PinWrite(DcPin, true)], lines);
  }

  /** Inside an open transaction, the window set-up sends CASET, the column
      range, RASET, the row range and RAMWR, and leaves D/C high. */
  lemma WindowWire(x1: u16, x2: u16, y1: u16, y2: u16, lines: Lines)
    requires lines.selected
    ensures Wire(WindowEvents(x1, x2, y1, y2), lines) == WindowFrames(x1, x2, y1, y2)
    ensures After(WindowEvents(x1, x2, y1, y2), lines) == Lines(true, true)
  {
    var open := Lines(true, true);
    var a := InlineCommandEvents(CASET);
    var b := AddrEvents(x1, x2);
    var c := InlineCommandEvents(RASET);
    var d := AddrEvents(y1, y2);
    var e := InlineCommandEvents(RAMWR);
    var w1 := [Frame(true, false, [CASET]), Frame(true, true, AddrBytes(x1, x2))];
    assert Wire(a + b, lines) == w1 && After(a + b, lines) == open by {
      InlineCommandWire(CASET, lines);
      AddrWire(x1, x2, open);
      WireAppend(a, b, lines);
    }
    var w2 := w1 + [Frame(true, false, [RASET])];
    assert Wire(a + b + c, lines) == w2 && After(a + b + c, lines) == open by {
      InlineCommandWire(RASET, open);
      WireAppend(a + b, c, lines);
    }
    var w3 := w2 + [Frame(true, true, AddrBytes(y1, y2))];
    assert Wire(a + b + c + d, lines) == w3 && After(a + b + c + d, lines) == open by {
      AddrWire(y1, y2, open);
      WireAppend(a + b + c, d, lines);
    }
    assert Wire(a + b + c + d + e, lines) == w3 + [Frame(true, false, [RAMWR])]
        && After(a + b + c + d + e, lines) == open by {
      InlineCommandWire(RAMWR, open);
      WireAppend(a + b + c + d, e, lines);
    }
  }

  /** Inside an open transaction, `count` colour batches put `count` data transfers on the wire. */
  lemma {:induction false} ColumnsWire(color: u16, size: nat, count: nat)
    ensures Wire(ColumnsEvents(color, size, count), Lines(true, true)) == ColumnFrames(color, size, count)
    ensures After(ColumnsEvents(color, size, count), Lines(true, true)) == Lines(true, true)
  {
    if count > 0 {
      ColumnsWire(color, size, count - 1);
      ColorWire(color, size, Lines(true, true));
      WireAppend(ColumnsEvents(color, size, count - 1), ColorEvents(color, size), Lines(true, true));
    }
  }

  /** A transaction that sets a window and then sends `body`: the window's
      frames, then the body's. */
  lemma WindowTransactionWire(x1: u16, x2: u16, y1: u16, y2: u16, body: seq<Event>, lines: Lines)
    requires After(body, Lines(true, true)) == Lines(true, true)
    ensures Wire([Enable] + WindowEvents(x1, x2, y1, y2) + body + [Disable], lines)
         == WindowFrames(x1, x2, y1, y2) + Wire(body, Lines(true, true))
    ensures After([Enable] + WindowEvents(x1, x2, y1, y2) + body + [Disable], lines) == Lines(false, true)
  {
    WireSingle(Enable, lines);
    WindowWire(x1, x2, y1, y2, Lines(true, lines.data));
    WireAppend([Enable], WindowEvents(x1, x2, y1, y2), lines);
    WireAppend([Enable] + WindowEvents(x1, x2, y1, y2), body, lines);
    WireSingle(Disable, Lines(true, true));
    WireAppend([Enable] + WindowEvents(x1, x2, y1, y2) + body, [Disable], lines);
  }

  /** `draw_filled_rect_` sends the window, then one transfer of `y2 - y1 + 1`
      pixels (16-bit truncated) per column from x1 to x2, all in one
      transaction. */
  lemma FilledRectWire(x1: u16, y1: u16, x2: u16, y2: u16, color: u16, lines: Lines)
    ensures Wire(FilledRectEvents(x1, y1, x2, y2, color), lines)
         == WindowFrames(x1, x2, y1, y2) + ColumnFrames(color, ColumnHeight(y1, y2), ColumnCount(x1, x2))
    ensures After(FilledRectEvents(x1, y1, x2, y2, color), lines) == Lines(false, true)
  {
    ColumnsWire(color, ColumnHeight(y1, y2), ColumnCount(x1, x2));
    WindowTransactionWire(x1, x2, y1, y2, ColumnsEvents(color, ColumnHeight(y1, y2), ColumnCount(x1, x2)), lines);
  }

  /** For a rectangle with x1 <= x2 and y1 <= y2 whose height fits in 16
      bits, the column transfers of `draw_filled_rect_` (those after the
      window, by FilledRectWire) carry exactly (x2-x1+1)*(y2-y1+1) pixels
      of the colour. */
  lemma FilledRectPixelCount(x1: u16, y1: u16, x2: u16, y2: u16, color: u16)
    requires x1 <= x2 && y1 <= y2 && y2 - y1 < 0xFFFF
    ensures Payload(ColumnFrames(color, ColumnHeight(y1, y2), ColumnCount(x1, x2)))
         == PixelRun(color, (x2 - x1 + 1) * (y2 - y1 + 1))
  {
    var height := y2 - y1 + 1;
    assert 0 < height < 0x1_0000;
    assert ColumnHeight(y1, y2) == height;
    assert ColumnCount(x1, x2) == x2 - x1 + 1;
    ColumnPayload(color, height, x2 - x1 + 1);
  }

  /** `write_display_data` sends the window 0..239 by 0..239, then the
      buffer as one data transfer, all in one transaction. */
  lemma DisplayDataWire(buffer: seq<byte>, lines: Lines)
    ensures Wire(DisplayDataEvents(buffer), lines) == WindowFrames(0, DISPLAY_LAST, 0, DISPLAY_LAST) + [DataFrame(buffer)]
    ensures After(DisplayDataEvents(buffer), lines) == Lines(false, true)
  {
    WireSingle(Send(buffer), Lines(true, true));
    WindowTransactionWire(0, DISPLAY_LAST, 0, DISPLAY_LAST, [Send(buffer)], lines);
  }

  lemma {:induction false} DataRunWire(data: seq<byte>, lines: Lines)
    ensures Wire(DataRunEvents(data), lines) == DataByteFrames(data)
    ensures After(DataRunEvents(data), lines) == if data == [] then lines else Lines(false, true)
  {
    if data != [] {
      var init := data[..|data| - 1];
      var last := data[|data| - 1];
      DataRunWire(init, lines);
      DataWire(last, After(DataRunEvents(init), lines));
      WireAppend(DataRunEvents(init), DataEvents(last), lines);
      assert DataByteFrames(data) == DataByteFrames(init) + [DataFrame([last])];
    }
  }

  /** One initialisation step: its command, then each parameter byte, all as separate transactions. */
  lemma StepWire(step: InitStep, lines: Lines)
    ensures Wire(StepEvents(step), lines) == StepFrames(step)
    ensures After(StepEvents(step), lines) == Lines(false, true)
  {
    var c := CommandEvents(step.command);
    var d := DataRunEvents(step.data);
    var p := PauseEvents(step.pause);
    CommandWire(step.command, lines);
    DataRunWire(step.data, Lines(false, true));
    WireAppend(c, d, lines);
    WireSilent(p, Lines(false, true));
    assert After(p, Lines(false, true)) == Lines(false, true);
    WireAppend(c + d, p, lines);
  }

  /** The initialisation puts on the wire exactly the table's commands and
      parameters, in order. */
  lemma {:induction false} InitWire(steps: seq<InitStep>, lines: Lines)
    ensures Wire(InitEvents(steps), lines) == InitFrames(steps)
    ensures After(InitEvents(steps), lines) == if steps == [] then lines else Lines(false, true)
  {
    if steps != [] {
      var init := steps[..|steps| - 1];
      InitWire(init, lines);
      StepWire(steps[|steps| - 1], After(InitEvents(init), lines));
      WireAppend(InitEvents(init), StepEvents(steps[|steps| - 1]), lines);
    }
  }

  /** Up to the end of the initialisation table `setup` sends only the
      table, and leaves the chip deselected with D/C high. */
  lemma PrefixWire(steps: seq<InitStep>, hasResetPin: bool, lines: Lines)
    requires steps != []
    ensures Wire([SpiSetup, PinSetup(DcPin)] + ResetEvents(hasResetPin) + InitEvents(steps), lines) == InitFrames(steps)
    ensures After([SpiSetup, PinSetup(DcPin)] + ResetEvents(hasResetPin) + InitEvents(steps), lines) == Lines(false, true)
  {
    var p := [SpiSetup, PinSetup(DcPin)] + ResetEvents(hasResetPin);
    var i := InitEvents(steps);
    assert Wire(p, lines) == [] by {
      WireSilent(p, lines);
    }
    assert Wire(i, After(p, lines)) == InitFrames(steps) && After(i, After(p, lines)) == Lines(false, true) by {
      InitWire(steps, After(p, lines));
    }
    WireAppend(p, i, lines);
  }

  /** After the table: the clear, then DISPON; the pauses and the
      backlight send nothing. */
  lemma TailWire(x2: u16, y2: u16, hasBacklightPin: bool)
    ensures Wire(FilledRectEvents(0, 0, x2, y2, 0x0000) + [Delay(120)] + CommandEvents(DISPON) + [Delay(120)]
                 + BacklightEvents(hasBacklightPin, true), Lines(false, true))
         == WindowFrames(0, x2, 0, y2) + ColumnFrames(0x0000, ColumnHeight(0, y2), ColumnCount(0, x2))
            + [CommandFrame(DISPON)]
  {
    var settled := Lines(false, true);
    var r := FilledRectEvents(0, 0, x2, y2, 0x0000);
    var d := [Delay(120)];
    var c := CommandEvents(DISPON);
    var b := BacklightEvents(hasBacklightPin, true);
    var clear := WindowFrames(0, x2, 0, y2) + ColumnFrames(0x0000, ColumnHeight(0, y2), ColumnCount(0, x2));
    assert Wire(r, settled) == clear && After(r, settled) == settled by {
      FilledRectWire(0, 0, x2, y2, 0x0000, settled);
    }
    assert Wire(r + d, settled) == clear && After(r + d, settled) == settled by {
      WireSingle(Delay(120), settled);
      WireAppend(r, d, settled);
    }
    assert Wire(r + d + c, settled) == clear + [CommandFrame(DISPON)] && After(r + d + c, settled) == settled by {
      CommandWire(DISPON, settled);
      WireAppend(r + d, c, settled);
    }
    assert Wire(r + d + c + d, settled) == clear + [CommandFrame(DISPON)] && After(r + d + c + d, settled) == settled by {
      WireSingle(Delay(120), settled);
      WireAppend(r + d + c, d, settled);
    }
    assert Wire(r + d + c + d + b, settled) == clear + [CommandFrame(DISPON)] by {
      WireSilent(b, settled);
      WireAppend(r + d + c + d, b, settled);
    }
  }

  /** The shape of `setup`'s bring-up for any non-empty initialisation
      table and any clear rectangle from the origin: the table's frames, the
      clear, then DISPON; the reset pulse, the pauses and the backlight put
      nothing on the wire. */
  lemma BringUpWire(steps: seq<InitStep>, x2: u16, y2: u16, hasResetPin: bool, hasBacklightPin: bool, lines: Lines)
    requires steps != []
    ensures Wire([SpiSetup, PinSetup(DcPin)] + ResetEvents(hasResetPin)
                 + InitEvents(steps)
                 + FilledRectEvents(0, 0, x2, y2, 0x0000)
                 + [Delay(120)] + CommandEvents(DISPON) + [Delay(120)]
                 + BacklightEvents(hasBacklightPin, true), lines)
         == InitFrames(steps)
            + (WindowFrames(0, x2, 0, y2) + ColumnFrames(0x0000, ColumnHeight(0, y2), ColumnCount(0, x2))
               + [CommandFrame(DISPON)])
  {
    var head := [SpiSetup, PinSetup(DcPin)] + ResetEvents(hasResetPin) + InitEvents(steps);
    var r := FilledRectEvents(0, 0, x2, y2, 0x0000);
    var d := [Delay(120)];
    var c := CommandEvents(DISPON);
    var b := BacklightEvents(hasBacklightPin, true);
    Regroup5(head, r, d, c, d, b);
    PrefixWire(steps, hasResetPin, lines);
    TailWire(x2, y2, hasBacklightPin);
    WireAppend(head, r + d + c + d + b, lines);
  }

  /** Everything `setup` sends before it allocates the buffer: the
      initialisation table, the clear of columns 0..239 by rows 0..319, then
      DISPON, every transfer with the chip selected. */
  lemma SetupWire(hasResetPin: bool, hasBacklightPin: bool, lines: Lines)
    ensures Wire(SetupEvents(hasResetPin, hasBacklightPin), lines)
         == InitFrames(INIT_SEQUENCE)
            + (WindowFrames(0, CLEAR_LAST_COLUMN, 0, CLEAR_LAST_ROW)
               + ColumnFrames(0x0000, ColumnHeight(0, CLEAR_LAST_ROW), ColumnCount(0, CLEAR_LAST_COLUMN))
               + [CommandFrame(DISPON)])
    ensures forall f :: f in Wire(SetupEvents(hasResetPin, hasBacklightPin), lines) ==> f.selected
  {
    assert INIT_SEQUENCE != [];
    BringUpWire(INIT_SEQUENCE, CLEAR_LAST_COLUMN, CLEAR_LAST_ROW, hasResetPin, hasBacklightPin, lines);
  }
}

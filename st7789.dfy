/** The ST7789 display component (components/st7789/st7789.cpp): a 240x240
    RGB565 frame buffer in memory, drawn into pixel by pixel and flushed to
    the panel in one transfer, and the panel's start-up sequence. */
module St7789 {
  import opened St7789Wire
  import opened St7789Protocol

  /** `get_width_internal` and `get_height_internal`. */
  const WIDTH: nat := 240
  const HEIGHT: nat := 240

  /** `get_buffer_length_`: two bytes per pixel. */
  function BufferLength(): (n: nat)
    ensures n == 240 * 240 * 2 == 115200
  {
    WIDTH * HEIGHT * 2
  }

  predicate InBounds(x: int, y: int) {
    0 <= x < WIDTH && 0 <= y < HEIGHT
  }

  /** Where pixel (x, y) starts: rows of WIDTH pixels, two bytes each. */
  function PixelOffset(x: int, y: int): (pos: nat)
    requires InBounds(x, y)
    ensures pos % 2 == 0 && pos + 1 < BufferLength()
  {
    (x + y * WIDTH) * 2
  }

  /** Distinct pixels occupy distinct byte pairs. */
  lemma PixelOffsetInjective(x1: int, y1: int, x2: int, y2: int)
    requires InBounds(x1, y1) && InBounds(x2, y2)
    ensures PixelOffset(x1, y1) == PixelOffset(x2, y2) ==> x1 == x2 && y1 == y2
  {
    if y1 < y2 {
      assert x1 + y1 * WIDTH < (y1 + 1) * WIDTH <= y2 * WIDTH <= x2 + y2 * WIDTH;
    } else if y2 < y1 {
      assert x2 + y2 * WIDTH < (y2 + 1) * WIDTH <= y1 * WIDTH <= x1 + y1 * WIDTH;
    }
  }

  /** The RGB565 colour stored for pixel (x, y), high byte first. */
  function PixelAt(buffer: seq<byte>, x: int, y: int): u16
    requires |buffer| == BufferLength() && InBounds(x, y)
  {
    Word(buffer[PixelOffset(x, y)], buffer[PixelOffset(x, y) + 1])
  }

  /** The buffer after drawing one pixel: out-of-range coordinates are ignored. */
  function WithPixel(buffer: seq<byte>, x: int, y: int, color: u16): (r: seq<byte>)
    requires |buffer| == BufferLength()
    ensures |r| == |buffer|
  {
    if InBounds(x, y) then
      buffer[PixelOffset(x, y) := Hi(color)][PixelOffset(x, y) + 1 := Lo(color)]
    else buffer
  }

  /** A pixel drawn reads back as its colour. */
  lemma WithPixelReadBack(buffer: seq<byte>, x: int, y: int, color: u16)
    requires |buffer| == BufferLength() && InBounds(x, y)
    ensures PixelAt(WithPixel(buffer, x, y, color), x, y) == color
  {
    WordSplit(color, 0, 0);
  }

  /** Drawing a pixel leaves every other pixel as it was. */
  lemma WithPixelOthers(buffer: seq<byte>, x: int, y: int, color: u16, u: int, v: int)
    requires |buffer| == BufferLength() && InBounds(u, v) && (u != x || v != y)
    ensures PixelAt(WithPixel(buffer, x, y, color), u, v) == PixelAt(buffer, u, v)
  {
    if InBounds(x, y) {
      PixelOffsetInjective(x, y, u, v);
    }
  }

  /** The memory `setup` allocates the frame buffer from. */
  function ChoosePool(maxAllocHeap: nat, psramFound: bool): (pool: Pool)
    ensures pool == Psram ==> psramFound
    ensures maxAllocHeap >= BufferLength() ==> pool == InternalRam
    ensures maxAllocHeap < BufferLength() && psramFound ==> pool == Psram
  {
    if maxAllocHeap < BufferLength() && psramFound then Psram else InternalRam
  }

  /** The last two commands of the initialisation table set the window
      that the clear in `setup` then fills: columns 0..239, rows 0..319. */
  lemma InitWindowIsClearWindow()
    ensures INIT_SEQUENCE[18] == InitStep(CASET, AddrBytes(0, CLEAR_LAST_COLUMN), 0)
    ensures INIT_SEQUENCE[19] == InitStep(RASET, AddrBytes(0, CLEAR_LAST_ROW), 0)
  {
  }

  /** The clear in `setup` covers all WIDTH columns and 320 rows (the
      panel's full memory, more than the HEIGHT rows the frame buffer
      uses), fits the 512-pixel scratch array one column at a time, and
      sends nothing but black pixels, one per cell. */
  lemma SetupClearCoversPanel()
    ensures ColumnCount(0, CLEAR_LAST_COLUMN) == WIDTH
    ensures ColumnHeight(0, CLEAR_LAST_ROW) == 320 > HEIGHT
    ensures 2 * ColumnHeight(0, CLEAR_LAST_ROW) <= SCRATCH_SIZE
    ensures Payload(ColumnFrames(0x0000, ColumnHeight(0, CLEAR_LAST_ROW), ColumnCount(0, CLEAR_LAST_COLUMN)))
         == PixelRun(0x0000, WIDTH * ColumnHeight(0, CLEAR_LAST_ROW))
  {
    assert ColumnCount(0, CLEAR_LAST_COLUMN) == WIDTH;
    ColumnPayload(0x0000, ColumnHeight(0, CLEAR_LAST_ROW), WIDTH);
  }

  class ST7789 {
    const hasResetPin: bool
    const hasBacklightPin: bool
    /** The frame buffer, null until `setup` allocates it. */
    var buffer: array?<byte>
    var failed: bool
    /** Everything done on the pins and the bus, in order. */
    var trace: seq<Event>

    constructor (hasResetPin: bool, hasBacklightPin: bool)
      ensures this.hasResetPin == hasResetPin && this.hasBacklightPin == hasBacklightPin
      ensures buffer == null && !failed && trace == []
    {
      this.hasResetPin := hasResetPin;
      this.hasBacklightPin := hasBacklightPin;
      buffer := null;
      failed := false;
      trace := [];
    }

    // The SPI device, pin and timing primitives the driver calls.

    method BusSetup()
      modifies this`trace
      ensures trace == old(trace) + [SpiSetup]
    {
      trace := trace + [SpiSetup];
    }

    method Select()
      modifies this`trace
      ensures trace == old(trace) + [Enable]
    {
      trace := trace + [Enable];
    }

    method Deselect()
      modifies this`trace
      ensures trace == old(trace) + [Disable]
    {
      trace := trace + [Disable];
    }

    method SetupPin(pin: Pin)
      modifies this`trace
      ensures trace == old(trace) + [PinSetup(pin)]
    {
      trace := trace + [PinSetup(pin)];
    }

    method DigitalWrite(pin: Pin, level: bool)
      modifies this`trace
      ensures trace == old(trace) + [PinWrite(pin, level)]
    {
      trace := trace + [PinWrite(pin, level)];
    }

    method WriteByte(value: byte)
      modifies this`trace
      ensures trace == old(trace) + [Send([value])]
    {
      trace := trace + [Send([value])];
    }

    method WriteArray(data: seq<byte>)
      modifies this`trace
      ensures trace == old(trace) + [Send(data)]
    {
      trace := trace + [Send(data)];
    }

    method Pause(ms: nat)
      modifies this`trace
      ensures trace == old(trace) + [Delay(ms)]
    {
      trace := trace + [Delay(ms)];
    }

    // The driver.

    /** `write_command_`. */
    method WriteCommand(value: byte)
      modifies this`trace
      ensures trace == old(trace) + CommandEvents(value)
    {
      Select();
      DigitalWrite(DcPin, false);
      WriteByte(value);
      DigitalWrite(DcPin, true);
      Deselect();
    }

    /** `write_data_`. */
    method WriteData(value: byte)
      modifies this`trace
      ensures trace == old(trace) + DataEvents(value)
    {
      DigitalWrite(DcPin, true);
      Select();
      WriteByte(value);
      Deselect();
    }

    /** `write_addr_`: both addresses big-endian into a four-byte array, sent as data. */
    method WriteAddr(addr1: u16, addr2: u16)
      modifies this`trace
      ensures trace == old(trace) + AddrEvents(addr1, addr2)
    {
      var bytes := new byte[4];
      bytes[0] := Hi(addr1);
      bytes[1] := Lo(addr1);
      bytes[2] := Hi(addr2);
      bytes[3] := Lo(addr2);
      assert bytes[..] == AddrBytes(addr1, addr2);
      DigitalWrite(DcPin, true);
      WriteArray(bytes[..]);
    }

    /** `write_color_`: `size` copies of the colour into the 1024-byte scratch
        array, then one transfer of its first `2 * size` bytes. The scratch
        array holds 512 pixels, so the caller must ask for no more. */
    method WriteColor(color: u16, size: u16)
      requires 2 * size <= SCRATCH_SIZE
      modifies this`trace
      ensures trace == old(trace) + ColorEvents(color, size)
    {
      var scratch := new byte[SCRATCH_SIZE];
      var index := 0;
      var i := 0;
      while i < size
        invariant 0 <= i <= size && index == 2 * i
        invariant scratch[..index] == PixelRun(color, i)
        invariant trace == old(trace)
      {
        scratch[index] := Hi(color);
        index := index + 1;
        scratch[index] := Lo(color);
        index := index + 1;
        i := i + 1;
        assert scratch[..index] == scratch[..index - 2] + [Hi(color), Lo(color)];
      }
      assert scratch[..size * 2] == PixelRun(color, size);
      DigitalWrite(DcPin, true);
      WriteArray(scratch[..size * 2]);
    }

    /** One address range inside an open transaction: the command with D/C
        low, then the range as data. */
    method SetAddressRange(command: byte, addr1: u16, addr2: u16)
      modifies this`trace
      ensures trace == old(trace) + InlineCommandEvents(command) + AddrEvents(addr1, addr2)
    {
      DigitalWrite(DcPin, false);
      WriteByte(command);
      DigitalWrite(DcPin, true);
      assert trace == old(trace) + InlineCommandEvents(command);
      WriteAddr(addr1, addr2);
    }

    /** The window set-up `draw_filled_rect_` and `write_display_data` both
        spell out inside their transaction: CASET and the column range,
        RASET and the row range, then RAMWR, leaving D/C high for the
        pixels. */
    method SetWindow(x1: u16, x2: u16, y1: u16, y2: u16)
      modifies this`trace
      ensures trace == old(trace) + WindowEvents(x1, x2, y1, y2)
    {
      ghost var start := trace;
      SetAddressRange(CASET, x1, x2);
      SetAddressRange(RASET, y1, y2);
      ghost var rows := trace;
      DigitalWrite(DcPin, false);
      WriteByte(RAMWR);
      DigitalWrite(DcPin, true);
      assert trace == rows + InlineCommandEvents(RAMWR);
      Regroup5(start, InlineCommandEvents(CASET), AddrEvents(x1, x2), InlineCommandEvents(RASET),
               AddrEvents(y1, y2), InlineCommandEvents(RAMWR));
    }

    /** `draw_filled_rect_`: the window, then one colour batch per column
        from x1 to x2, each of `y2 - y1 + 1` pixels truncated to 16 bits. */
    method DrawFilledRect(x1: u16, y1: u16, x2: u16, y2: u16, color: u16)
      requires x1 <= x2 ==> 2 * ColumnHeight(y1, y2) <= SCRATCH_SIZE
      modifies this`trace
      ensures trace == old(trace) + FilledRectEvents(x1, y1, x2, y2, color)
    {
      Select();
      SetWindow(x1, x2, y1, y2);
      ghost var windowed := trace;
      var i: int := x1;
      while i <= x2
        invariant x1 <= i && (i <= x2 + 1 || i == x1)
        invariant trace == windowed + ColumnsEvents(color, ColumnHeight(y1, y2), i - x1)
        decreases x2 + 1 - i
      {
        var size: u16 := (y2 - y1 + 1) % 0x1_0000;
        WriteColor(color, size);
        Regroup3(windowed, ColumnsEvents(color, size, i - x1), ColorEvents(color, size));
        i := i + 1;
      }
      assert i - x1 == ColumnCount(x1, x2);
      Deselect();
    }

    /** `write_display_data`: the window 0..239 by 0..239, then the whole
        frame buffer in one transfer. */
    method WriteDisplayData()
      requires buffer != null && buffer.Length == BufferLength()
      modifies this`trace
      ensures trace == old(trace) + DisplayDataEvents(buffer[..])
    {
      Select();
      SetWindow(0, DISPLAY_LAST, 0, DISPLAY_LAST);
      assert buffer[..BufferLength()] == buffer[..];
      WriteArray(buffer[..BufferLength()]);
      Deselect();
    }

    /** `init_reset_`. */
    method InitReset()
      modifies this`trace
      ensures trace == old(trace) + ResetEvents(hasResetPin)
    {
      if hasResetPin {
        SetupPin(ResetPin);
        DigitalWrite(ResetPin, true);
        Pause(1);
        DigitalWrite(ResetPin, false);
        Pause(10);
        DigitalWrite(ResetPin, true);
      }
    }

    /** `backlight_`. */
    method Backlight(on: bool)
      modifies this`trace
      ensures trace == old(trace) + BacklightEvents(hasBacklightPin, on)
    {
      if hasBacklightPin {
        SetupPin(BacklightPin);
        DigitalWrite(BacklightPin, on);
      }
    }

    /** The parameter bytes of one initialisation command, each by its own `write_data_`. */
    method WriteParameters(data: seq<byte>)
      modifies this`trace
      ensures trace == old(trace) + DataRunEvents(data)
    {
      var j := 0;
      while j < |data|
        invariant 0 <= j <= |data|
        invariant trace == old(trace) + DataRunEvents(data[..j])
      {
        WriteData(data[j]);
        assert data[..j + 1][..j] == data[..j];
        Regroup3(old(trace), DataRunEvents(data[..j]), DataEvents(data[j]));
        j := j + 1;
      }
      assert data[..j] == data;
    }

    /** One entry of the initialisation table: its command, its parameter bytes, its pause. */
    method WriteInitStep(step: InitStep)
      modifies this`trace
      ensures trace == old(trace) + StepEvents(step)
    {
      WriteCommand(step.command);
      WriteParameters(step.data);
      if step.pause != 0 {
        Pause(step.pause);
      }
    }

    /** The initialisation commands of `setup`, each followed by its
        parameter bytes and its pause. */
    method WriteInitSequence(steps: seq<InitStep>)
      modifies this`trace
      ensures trace == old(trace) + InitEvents(steps)
    {
      var k := 0;
      while k < |steps|
        invariant 0 <= k <= |steps|
        invariant trace == old(trace) + InitEvents(steps[..k])
      {
        WriteInitStep(steps[k]);
        InitEventsExtend(steps, k);
        Regroup3(old(trace), InitEvents(steps[..k]), StepEvents(steps[k]));
        k := k + 1;
      }
      assert steps[..k] == steps;
    }

    /** `draw_absolute_pixel_internal`: store the colour high byte first at
        (x + 240 y) * 2, or do nothing outside the 240x240 frame. */
    method DrawAbsolutePixel(x: int, y: int, color: u16)
      requires buffer != null && buffer.Length == BufferLength()
      modifies buffer
      ensures buffer[..] == WithPixel(old(buffer[..]), x, y, color)
      ensures !InBounds(x, y) ==> buffer[..] == old(buffer[..])
      ensures InBounds(x, y) ==>
        buffer[PixelOffset(x, y)] == Hi(color) && buffer[PixelOffset(x, y) + 1] == Lo(color)
        && forall i :: 0 <= i < buffer.Length && i != PixelOffset(x, y) && i != PixelOffset(x, y) + 1
             ==> buffer[i] == old(buffer[i])
    {
      if x >= WIDTH || x < 0 || y >= HEIGHT || y < 0 {
        return;
      }
      var pos := (x + y * WIDTH) * 2;
      buffer[pos] := Hi(color);
      pos := pos + 1;
      buffer[pos] := Lo(color);
    }

    /** `setup`: configure the panel, then allocate the frame buffer. */
    method Setup(maxAllocHeap: nat, psramFound: bool, allocationSucceeds: bool)
      modifies this`trace, this`buffer, this`failed
      ensures trace == old(trace) + SetupEvents(hasResetPin, hasBacklightPin)
                       + [Allocate(ChoosePool(maxAllocHeap, psramFound), BufferLength())]
      ensures !allocationSucceeds ==> failed && buffer == null
      ensures allocationSucceeds ==>
        failed == old(failed) && buffer != null && fresh(buffer) && buffer.Length == BufferLength()
        && forall i :: 0 <= i < buffer.Length ==> buffer[i] == 0
    {
      ConfigurePanel();
      AllocateBuffer(maxAllocHeap, psramFound, allocationSucceeds);
    }

    /** The first part of `setup`: bus and D/C pin, reset pulse, the
        initialisation table, a clear of 240 columns by 320 rows, display
        on, backlight on. */
    method ConfigurePanel()
      modifies this`trace
      ensures trace == old(trace) + SetupEvents(hasResetPin, hasBacklightPin)
    {
      ghost var start := trace;
      BusSetup();
      SetupPin(DcPin);
      assert trace == start + [SpiSetup, PinSetup(DcPin)];
      InitReset();
      WriteInitSequence(INIT_SEQUENCE);
      DrawFilledRect(0, 0, CLEAR_LAST_COLUMN, CLEAR_LAST_ROW, 0x0000);
      Pause(120);
      WriteCommand(DISPON);
      Pause(120);
      Backlight(true);
      Regroup(start, [SpiSetup, PinSetup(DcPin)], ResetEvents(hasResetPin), InitEvents(INIT_SEQUENCE),
              FilledRectEvents(0, 0, CLEAR_LAST_COLUMN, CLEAR_LAST_ROW, 0x0000),
              [Delay(120)], CommandEvents(DISPON), [Delay(120)], BacklightEvents(hasBacklightPin, true));
    }

    /** The end of `setup`: the frame buffer from PSRAM (zeroed by the
        allocator) when the internal heap's largest free block cannot hold
        it and PSRAM is present, else from the heap (uninitialised); on
        failure the component is marked failed and nothing else happens;
        on success the buffer is zeroed. */
    method AllocateBuffer(maxAllocHeap: nat, psramFound: bool, allocationSucceeds: bool)
      modifies this`trace, this`buffer, this`failed
      ensures trace == old(trace) + [Allocate(ChoosePool(maxAllocHeap, psramFound), BufferLength())]
      ensures !allocationSucceeds ==> failed && buffer == null
      ensures allocationSucceeds ==>
        failed == old(failed) && buffer != null && fresh(buffer) && buffer.Length == BufferLength()
        && forall i :: 0 <= i < buffer.Length ==> buffer[i] == 0
    {
      var bufferLength := BufferLength();
      if maxAllocHeap < bufferLength && psramFound {
        trace := trace + [Allocate(Psram, bufferLength)];
        if !allocationSucceeds {
          buffer := null;
          failed := true;
          return;
        }
        buffer := new byte[bufferLength](_ => 0);
      } else {
        trace := trace + [Allocate(InternalRam, bufferLength)];
        if !allocationSucceeds {
          buffer := null;
          failed := true;
          return;
        }
        buffer := new byte[bufferLength];
      }
      forall i | 0 <= i < buffer.Length {
        buffer[i] := 0;
      }
    }
  }
}

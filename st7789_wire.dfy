/** What the ST7789 driver (components/st7789/st7789.cpp) does on its pins
    and its SPI bus, recorded as a sequence of events, and what the panel
    sees of it: the bytes of each transfer together with the level of the
    chip-select and data/command lines at that moment. */
module St7789Wire {

  type byte = b: int | 0 <= b < 0x100
  type u16 = v: int | 0 <= v < 0x1_0000

  /** The high byte of a 16-bit value, `(v >> 8) & 0xFF`. */
  function Hi(v: u16): byte {
    v / 0x100
  }

  /** The low byte of a 16-bit value, `v & 0xFF`. */
  function Lo(v: u16): byte {
    v % 0x100
  }

  /** The 16-bit value a big-endian byte pair stands for. */
  function Word(hi: byte, lo: byte): u16 {
    hi * 0x100 + lo
  }

  /** Splitting a value into its two bytes loses nothing, and joining is its inverse. */
  lemma WordSplit(v: u16, hi: byte, lo: byte)
    ensures Word(Hi(v), Lo(v)) == v
    ensures Hi(Word(hi, lo)) == hi && Lo(Word(hi, lo)) == lo
  {
  }

  datatype Pin = DcPin | ResetPin | BacklightPin

  datatype Pool = InternalRam | Psram

  /** One pin, bus or platform operation of the driver. */
  datatype Event =
    | SpiSetup                          // spi_setup()
    | PinSetup(pin: Pin)                // a GPIO pin's setup()
    | Enable                            // chip select asserted
    | Disable                           // chip select released
    | PinWrite(pin: Pin, level: bool)   // digital_write
    | Send(bytes: seq<byte>)            // write_byte / write_array
    | Delay(ms: nat)                    // a blocking wait
    | Allocate(pool: Pool, size: nat)   // a request for the frame buffer

  /** The chip-select and data/command lines: `selected` while enabled,
      `data` while the D/C pin is high. */
  datatype Lines = Lines(selected: bool, data: bool)

  /** One SPI transfer as the panel sees it. */
  datatype Frame = Frame(selected: bool, data: bool, bytes: seq<byte>)

  /** The lines after one event. */
  function Step(lines: Lines, e: Event): Lines {
    match e
    case Enable => lines.(selected := true)
    case Disable => lines.(selected := false)
    case PinWrite(pin, level) => if pin == DcPin then lines.(data := level) else lines
    case _ => lines
  }

  /** The lines after a sequence of events. */
  function After(events: seq<Event>, lines: Lines): Lines
    decreases |events|
  {
    if events == [] then lines else After(events[1..], Step(lines, events[0]))
  }

  /** The transfers a sequence of events puts on the bus, each with the
      lines at the moment it is sent. */
  function Wire(events: seq<Event>, lines: Lines): (frames: seq<Frame>)
    decreases |events|
  {
    if events == [] then []
    else
      var first := if events[0].Send? then [Frame(lines.selected, lines.data, events[0].bytes)] else [];
      first + Wire(events[1..], Step(lines, events[0]))
  }

  /** Events that send nothing put nothing on the wire, whatever else they do. */
  lemma {:induction false} WireSilent(events: seq<Event>, lines: Lines)
    requires forall e :: e in events ==> !e.Send?
    ensures Wire(events, lines) == []
  {
    if events != [] {
      WireSilent(events[1..], Step(lines, events[0]));
    }
  }

  /** One event in front of others: its transfer, if it is a send, then the rest. */
  lemma WireCons(e: Event, rest: seq<Event>, lines: Lines)
    ensures Wire([e] + rest, lines)
         == (if e.Send? then [Frame(lines.selected, lines.data, e.bytes)] else []) + Wire(rest, Step(lines, e))
    ensures After([e] + rest, lines) == After(rest, Step(lines, e))
  {
    assert ([e] + rest)[0] == e;
    assert ([e] + rest)[1..] == rest;
  }

  lemma WireSingle(e: Event, lines: Lines)
    ensures Wire([e], lines) == if e.Send? then [Frame(lines.selected, lines.data, e.bytes)] else []
    ensures After([e], lines) == Step(lines, e)
  {
    WireCons(e, [], lines);
    assert [e] + [] == [e];
  }

  /** The wire of a concatenation is the concatenation of the wires, the
      second read from the lines the first leaves behind. */
  lemma {:induction false} WireAppend(a: seq<Event>, b: seq<Event>, lines: Lines)
    ensures Wire(a + b, lines) == Wire(a, lines) + Wire(b, After(a, lines))
    ensures After(a + b, lines) == After(b, After(a, lines))
  {
    if a != [] {
      assert (a + b)[0] == a[0];
      assert (a + b)[1..] == a[1..] + b;
      WireAppend(a[1..], b, Step(lines, a[0]));
      assert After(a + b, lines) == After(a[1..] + b, Step(lines, a[0]));
    } else {
      assert a + b == b;
    }
  }

  /** Regrouping a trace built up piece by piece. */
  lemma Regroup<T>(t: seq<T>, a: seq<T>, b: seq<T>, c: seq<T>, d: seq<T>, e: seq<T>, f: seq<T>, g: seq<T>, h: seq<T>)
    ensures t + a + b + c + d + e + f + g + h == t + (a + b + c + d + e + f + g + h)
  {
  }

  lemma Regroup3<T>(t: seq<T>, a: seq<T>, b: seq<T>)
    ensures t + a + b == t + (a + b)
  {
  }

  lemma Regroup5<T>(t: seq<T>, a: seq<T>, b: seq<T>, c: seq<T>, d: seq<T>, e: seq<T>)
    ensures t + a + b + c + d + e == t + (a + b + c + d + e)
  {
  }

  /** `n` pixels of one colour, each as its high byte then its low byte. */
  function PixelRun(color: u16, n: nat): (r: seq<byte>)
    ensures |r| == 2 * n
  {
    if n == 0 then [] else PixelRun(color, n - 1) + [Hi(color), Lo(color)]
  }

  /** Byte `k` of a run is the colour's high byte at even `k`, its low byte at odd `k`. */
  lemma {:induction false} PixelRunAt(color: u16, n: nat, k: nat)
    requires k < 2 * n
    ensures PixelRun(color, n)[k] == if k % 2 == 0 then Hi(color) else Lo(color)
  {
    if k < 2 * (n - 1) {
      PixelRunAt(color, n - 1, k);
    }
  }

  /** Two runs of one colour back to back are one run of their total length. */
  lemma {:induction false} PixelRunAppend(color: u16, m: nat, n: nat)
    ensures PixelRun(color, m) + PixelRun(color, n) == PixelRun(color, m + n)
  {
    if n > 0 {
      PixelRunAppend(color, m, n - 1);
    }
  }

  /** The bytes of a sequence of frames, back to back. */
  function Payload(frames: seq<Frame>): (bytes: seq<byte>)
  {
    if frames == [] then [] else Payload(frames[..|frames| - 1]) + frames[|frames| - 1].bytes
  }

  lemma {:induction false} PayloadAppend(a: seq<Frame>, b: seq<Frame>)
    ensures Payload(a + b) == Payload(a) + Payload(b)
  {
    if b != [] {
      assert (a + b)[..|a + b| - 1] == a + b[..|b| - 1];
      assert (a + b)[|a + b| - 1] == b[|b| - 1];
      PayloadAppend(a, b[..|b| - 1]);
    } else {
      assert a + b == a;
    }
  }
}

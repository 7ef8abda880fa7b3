# HTU31D and ST7789 driver cores in Dafny

This project models two device drivers of a home-automation firmware and
proves what they do on their buses.

**HTU31D temperature/humidity sensor** (`htu31d_crc.dfy`, `htu31d.dfy`).
- `Htu31dCrc` holds the sensor's CRC-8: polynomial 0x31, initial value 0,
  bytes fed most significant bit first, no reflection, no final XOR.
  - `Crc8` is a recursive specification.
  - `ComputeCrc8` is the source's nested loop, proved equal to `Crc8`.
  - Lemmas prove that a block passes the receiver's check exactly when its
    CRC over the check byte is 0, and that all-zero input has CRC 0.
- `Htu31d` models the component as a class.
  - It holds the two optional sinks, the `failed` and `warning` flags, and a
    trace of every bus operation, identity check and publication.
  - What the I2C bus answers (result codes and bytes) is passed in as input.
  - `setup` is modelled as written. `SetupAsIntended` models it as evidently
    intended (see Findings).
  - `update` checks both triplets and publishes both readings or neither.

**ST7789 240x240 display** (`st7789_wire.dfy`, `st7789_protocol.dfy`,
`st7789.dfy`).
- `St7789Wire` records pin and bus activity as events: chip select, D/C level,
  sends, delays and allocations. `Wire` projects a sequence of events onto the
  transfers the panel sees, each tagged with the chip-select and D/C levels in
  force when it is sent.
- `St7789Protocol` holds the reference frames of each operation: a command, a
  data byte, a big-endian address pair, a colour batch, a window, a filled
  rectangle, the full-frame flush and the initialisation table. Its lemmas
  prove that each operation's events put exactly those frames on the wire.
- `St7789` holds the driver class.
  - The frame buffer is an `array` that `DrawAbsolutePixel` updates in place.
  - `WriteColor` fills a 1024-byte scratch array in a loop.
  - `DrawFilledRect` loops over columns.
  - `Setup` runs the initialisation table and chooses where to allocate the
    buffer.
  - Each method's contract is its trace, stated as a function of its inputs;
    the wire lemmas then say what that trace means to the panel.

Behaviour of the code that the model reproduces as written:
- A CRC mismatch in `update` returns without setting the warning
  (htu31d.cpp:112-115, 124-127).
- The row window set before the start-up clear, and the clear itself, span
  rows 0..319 (st7789.cpp:122-129), although the frame buffer has 240 rows.
- The identity write's result is tested as `!write(...)` (htu31d.cpp:63).
  Because the success code is 0, that test is true on success.
- `draw_filled_rect_` sends one batch of `y2 - y1 + 1` pixels per column
  (st7789.cpp:327-330), with no further chunking.

## Model

| member | source | states |
|---|---|---|
| Htu31dCrc.ComputeCrc8 | components/htu31d/htu31d.cpp:37-49 | The nested loop over `len` bytes, counting down with an advancing read position and shifting eight times per byte, returns `Crc8` of the first `len` bytes. |
| Htu31dCrc.ShiftNInjective | components/htu31d/htu31d.cpp:43-45 | Eight shifts of the register lose no information: different registers stay different. |
| Htu31dCrc.CrcOfZeros | components/htu31d/htu31d.cpp:37-49 | With initial value 0 and no final XOR, any run of zero bytes has CRC 0. |
| Htu31dCrc.CheckByteIff | components/htu31d/htu31d.cpp:111-127 | `check == crc8(data)` holds exactly when the CRC of data followed by check is 0, in both directions. |
| Htu31dCrc.CheckValue8000 | components/htu31d/htu31d.cpp:37-49 | The CRC of 0x80 0x00 is 0x23. |
| Htu31dCrc.CheckValue4000 | components/htu31d/htu31d.cpp:37-49 | The CRC of 0x40 0x00 is 0x89. |
| Htu31d.Raw | components/htu31d/htu31d.cpp:116-129 | `(hi << 8) + lo` is below 65536, and its high and low bytes give back `hi` and `lo`. |
| Htu31d.Celsius | components/htu31d/htu31d.cpp:117-121 | The temperature lies in [-40, 125] °C; raw 0 is -40 and raw 0xFFFF is 125. |
| Htu31d.RelativeHumidity | components/htu31d/htu31d.cpp:130-132 | The humidity lies in [0, 100] %; raw 0 is 0 and raw 0xFFFF is 100. |
| Htu31d.ScalingMonotonic | components/htu31d/htu31d.cpp:116-132 | A larger raw value never gives a lower temperature or humidity. |
| Htu31d.RegReadEvents | components/htu31d/htu31d.cpp:147-157 | The register write comes first. The read happens if and only if that write succeeded. The delay happens if and only if the write succeeded and the conversion time is non-zero. Nothing is published. |
| Htu31d.Publications | components/htu31d/htu31d.cpp:134-139 | There is one publication per non-null sink: the temperature first, with raw `data[0]*256+data[1]`, and the humidity last, with raw `data[3]*256+data[4]`. |
| Htu31d.VersionBuffer | components/htu31d/htu31d.cpp:68-71 | The identity buffer holds four bytes: the bytes read, or zeros when the read failed. |
| Htu31d.FailedVersionReadPassesCheck | components/htu31d/htu31d.cpp:68-73 | After a failed identity read, the zero buffer passes the CRC check. |
| Htu31d.HTU31DComponent.constructor | components/htu31d/htu31d.h:45-46 | Both sinks start null, neither flag is set, and nothing has happened on the bus. |
| Htu31d.HTU31DComponent.SetTemperature | components/htu31d/htu31d.h:29-31 | Sets the temperature sink and leaves the humidity sink unchanged. |
| Htu31d.HTU31DComponent.SetHumidity | components/htu31d/htu31d.h:32-34 | Sets the humidity sink and leaves the temperature sink unchanged. |
| Htu31d.HTU31DComponent.ReadRegWithWait | components/htu31d/htu31d.cpp:147-157 | Appends `RegReadEvents`. Returns true if and only if both the write and the read succeed. The buffer holds the reply on success and is unchanged otherwise. |
| Htu31d.HTU31DComponent.Setup | components/htu31d/htu31d.cpp:51-81 | A failed reset marks the component failed after one bus operation. The identity write's code is tested as a C condition: non-zero skips to the read, and zero sets the warning and returns. A failed read sets the warning, and the check still runs on the zero buffer. |
| Htu31d.HTU31DComponent.SetupAsIntended | components/htu31d/htu31d.cpp:51-81 | Corrected `setup`: a failure of either identity transfer sets the warning and stops. The CRC check runs only on bytes actually read. |
| Htu31d.HTU31DComponent.Update | components/htu31d/htu31d.cpp:95-141 | A failed conversion write or 6-byte read sets the warning and publishes nothing. A bad triplet CRC publishes nothing and leaves the warning as it was. Only with both triplets valid does it publish to each non-null sink and clear the warning. |
| Htu31d.HTU31DComponent.PublishReadings | components/htu31d/htu31d.cpp:134-139 | Appends exactly `Publications` for the current sinks. |
| Htu31d.ResetFailureScenario | components/htu31d/htu31d.cpp:54-57 | A failing reset leaves the component failed after exactly one bus operation. |
| Htu31d.WorkingDeviceSetupScenario | components/htu31d/htu31d.cpp:63-66 | A device that acknowledges everything gets the warning, and its identity is never read. |
| Htu31d.FailedIdentityReadScenario | components/htu31d/htu31d.cpp:63-80 | A failed identity write followed by a failed read reports serial 000000 with a matching CRC, and sets the warning. |
| Htu31d.IntendedSetupScenario | components/htu31d/htu31d.cpp:63-73 | Under the corrected `setup`, a working device reads its identity with no warning. A failed identity read sets the warning, and no check follows. |
| Htu31d.MeasurementScenario | components/htu31d/htu31d.cpp:95-141 | The frame 80 00 23 40 00 89 publishes raw temperature 0x8000, then raw humidity 0x4000, and clears the warning. |
| St7789Wire.WordSplit | components/st7789/st7789.cpp:271-274 | Splitting a 16-bit value into high and low bytes and joining them are inverse to each other. |
| St7789Wire.WireAppend | components/st7789/st7789.cpp:254-332 | The transfers of two consecutive event sequences are those of the first, then those of the second read from the lines the first leaves behind. |
| St7789Wire.WireSilent | components/st7789/st7789.cpp:234-252 | Events that send nothing, such as pin set-up, reset pulses, backlight and delays, put no transfer on the wire. |
| St7789Wire.PixelRun | components/st7789/st7789.cpp:283-286 | `n` pixels occupy `2n` bytes. |
| St7789Wire.PixelRunAt | components/st7789/st7789.cpp:283-286 | Byte `k` of a run is the colour's high byte at even `k` and its low byte at odd `k`. |
| St7789Wire.PixelRunAppend | components/st7789/st7789.cpp:327-330 | Two runs of one colour back to back form one run of their total length. |
| St7789Protocol.AddrBytesDecode | components/st7789/st7789.cpp:269-277 | The address block is 4 bytes: addr1 big-endian, then addr2 big-endian. |
| St7789Protocol.ColumnFrames | components/st7789/st7789.cpp:327-330 | One transfer per column, each with the chip selected and D/C high. |
| St7789Protocol.ColumnPayload | components/st7789/st7789.cpp:327-330 | `count` columns of `size` pixels together carry one run of `count*size` pixels. |
| St7789Protocol.InitFrames | components/st7789/st7789.cpp:20-127 | Every transfer of the initialisation table happens with the chip selected. |
| St7789Protocol.CommandWire | components/st7789/st7789.cpp:254-260 | `write_command_` sends its byte with D/C low, selected, and leaves the chip deselected with D/C high. |
| St7789Protocol.DataWire | components/st7789/st7789.cpp:262-267 | `write_data_` sends its byte with D/C high, selected, and leaves the chip deselected. |
| St7789Protocol.AddrWire | components/st7789/st7789.cpp:269-278 | `write_addr_` sends the 4 address bytes as one transfer with D/C high. |
| St7789Protocol.ColorWire | components/st7789/st7789.cpp:280-290 | `write_color_` sends `size` pixels of the colour as one transfer with D/C high. |
| St7789Protocol.InlineCommandWire | components/st7789/st7789.cpp:315-317 | A command inside an open transaction goes out with D/C low, and D/C is high again afterwards. |
| St7789Protocol.WindowWire | components/st7789/st7789.cpp:314-326 | Inside a transaction, the panel sees CASET, the column pair, RASET, the row pair, then RAMWR, and D/C is left high. |
| St7789Protocol.ColumnsWire | components/st7789/st7789.cpp:327-330 | The column loop sends exactly one data transfer per column. |
| St7789Protocol.FilledRectWire | components/st7789/st7789.cpp:311-332 | `draw_filled_rect_` puts exactly the window frames and then the column frames on the wire, all selected, and ends deselected. |
| St7789Protocol.FilledRectPixelCount | components/st7789/st7789.cpp:327-330 | For `x1 <= x2`, `y1 <= y2` and heights below 65536, the rectangle's pixel data is one run of `(x2-x1+1)*(y2-y1+1)` pixels. |
| St7789Protocol.DisplayDataWire | components/st7789/st7789.cpp:206-232 | `write_display_data` sends the window 0..239 by 0..239, then the whole buffer as one data transfer, and ends deselected. |
| St7789Protocol.DataRunWire | components/st7789/st7789.cpp:26-32 | A command's parameters go out as one single-byte data transfer each. |
| St7789Protocol.StepWire | components/st7789/st7789.cpp:20-127 | One table entry puts its command, then its parameter bytes, on the wire. |
| St7789Protocol.InitWire | components/st7789/st7789.cpp:20-127 | The table's events put exactly `InitFrames` on the wire. |
| St7789Protocol.PrefixWire | components/st7789/st7789.cpp:15-127 | Bus and pin set-up and the reset pulse send nothing, so up to the end of the table only the table's frames reach the panel. |
| St7789Protocol.TailWire | components/st7789/st7789.cpp:129-136 | After the table, only the clear's frames and DISPON reach the panel. |
| St7789Protocol.BringUpWire | components/st7789/st7789.cpp:13-136 | For any non-empty table and clear corner, the table's frames, the clear and DISPON are all that reach the panel. |
| St7789Protocol.SetupWire | components/st7789/st7789.cpp:13-136 | `setup` sends the initialisation table, the clear of columns 0..239 by rows 0..319, then DISPON, every transfer with the chip selected. |
| St7789.BufferLength | components/st7789/st7789.cpp:292-303 | The buffer length is 240·240·2 = 115200. |
| St7789.PixelOffset | components/st7789/st7789.cpp:341 | The offset of an in-range pixel is even, and both of its bytes lie inside the buffer. |
| St7789.PixelOffsetInjective | components/st7789/st7789.cpp:341 | Distinct in-range pixels occupy distinct byte pairs. |
| St7789.WithPixel | components/st7789/st7789.cpp:334-344 | Drawing a pixel keeps the buffer length. |
| St7789.WithPixelReadBack | components/st7789/st7789.cpp:341-343 | A pixel drawn in range reads back as its colour. |
| St7789.WithPixelOthers | components/st7789/st7789.cpp:334-343 | Drawing a pixel leaves every other pixel unchanged. |
| St7789.ChoosePool | components/st7789/st7789.cpp:159-177 | PSRAM is chosen if and only if the heap's largest block is smaller than the buffer and PSRAM is present; otherwise the internal heap is chosen. |
| St7789.InitWindowIsClearWindow | components/st7789/st7789.cpp:116-127 | The table's last two entries set columns 0..239 and rows 0..319, the window of the following clear. |
| St7789.SetupClearCoversPanel | components/st7789/st7789.cpp:129 | The start-up clear covers 240 columns of 320 rows, more than the 240-row buffer. It fits the scratch array one column at a time and sends 240·320 black pixels. |
| St7789.ST7789.WriteCommand | components/st7789/st7789.cpp:254-260 | Appends select, D/C low, the byte, D/C high, deselect. |
| St7789.ST7789.WriteData | components/st7789/st7789.cpp:262-267 | Appends D/C high, select, the byte, deselect. |
| St7789.ST7789.WriteAddr | components/st7789/st7789.cpp:269-278 | Fills a four-byte array with both addresses big-endian, then appends D/C high and one send of those bytes. |
| St7789.ST7789.WriteColor | components/st7789/st7789.cpp:280-290 | Its loop fills the scratch array with `size` high/low pairs, then appends D/C high and one send of the first `2*size` bytes. |
| St7789.ST7789.SetAddressRange | components/st7789/st7789.cpp:315-318 | Appends an inline command, then an address pair. |
| St7789.ST7789.SetWindow | components/st7789/st7789.cpp:314-326 | Appends the CASET, RASET and RAMWR window set-up. |
| St7789.ST7789.DrawFilledRect | components/st7789/st7789.cpp:311-332 | Appends select, the window, one colour batch of the 16-bit-truncated height per column from x1 to x2, and deselect. |
| St7789.ST7789.WriteDisplayData | components/st7789/st7789.cpp:206-232 | Appends select, the 0..239 window, one send of the whole buffer, and deselect. |
| St7789.ST7789.InitReset | components/st7789/st7789.cpp:234-245 | With a reset pin: set it up, then high, 1 ms, low, 10 ms, high. Without one: nothing. |
| St7789.ST7789.Backlight | components/st7789/st7789.cpp:247-252 | With a backlight pin: set it up and drive it. Without one: nothing. |
| St7789.ST7789.WriteParameters | components/st7789/st7789.cpp:26-32 | Its loop appends one `write_data_` per parameter byte, in order. |
| St7789.ST7789.WriteInitStep | components/st7789/st7789.cpp:20-21 | Appends a command, its parameters, and its pause if it has one. |
| St7789.ST7789.WriteInitSequence | components/st7789/st7789.cpp:20-127 | Its loop appends every table entry, in order. |
| St7789.ST7789.DrawAbsolutePixel | components/st7789/st7789.cpp:334-344 | Out of range, the buffer is unchanged. In range, byte `(x+240y)*2` takes the high byte, the next byte takes the low byte, and no other byte changes. |
| St7789.ST7789.Setup | components/st7789/st7789.cpp:13-182 | Appends the whole start-up trace and one allocation request from the chosen pool. On failure the component is marked failed with no buffer. On success the buffer is fresh, 115200 bytes long and all zero. |
| St7789.ST7789.ConfigurePanel | components/st7789/st7789.cpp:13-136 | Appends bus and D/C set-up, reset, the table, the clear, the pauses, DISPON and the backlight, in source order. |
| St7789.ST7789.AllocateBuffer | components/st7789/st7789.cpp:159-182 | PSRAM (zeroed by the allocator) is used if and only if the heap is too small and PSRAM is present; otherwise the heap is used. A null result marks the component failed and returns before the buffer is zeroed. |

## Left out

- Celsius, RelativeHumidity: stated over exact reals. The source computes in single-precision floating point, whose rounding is not modelled.
- The readings are published as raw 16-bit values tagged by kind. The scaled float that `publish_state` receives is given by `Celsius`/`RelativeHumidity`.
- Delays are trace events with their length in milliseconds. Time itself is not modelled.
- Logging, `dump_config`, `get_setup_priority` and the empty `loop` are not modelled. They are output and host metadata only.
- The I2C and SPI buses, `enable`/`disable`, and GPIO pins are not modelled. They are host library code, so each call becomes a trace event, and each bus result is a method input.
- ESP memory queries and allocators, and the `#if 0` diagnostics block, are not modelled. The largest free heap block, PSRAM presence and allocation success are inputs, and an allocation is a trace event.
- `color_to_565`, `clear()`, `do_update_()` and the display `update()` are not modelled. They are host display library code; colours enter as 16-bit RGB565 values. The `clear()` before the buffer is zeroed at st7789.cpp:178 is subsumed by the zeroing.
- st7789.h is not part of this model.
  - Command codes follow the ST7789 datasheet.
  - `ST7789_MADCTL_COLOR_ORDER` is taken to be 0x08 (BGR).
  - The reset and backlight pins are constructor flags.
- The HTU31D heater commands (0x04, 0x02) and the I2C address 0x40 are declared but unused, as in the source.
- WriteColor: requires at most 512 pixels. Beyond that the source writes past its 1024-byte scratch array, which is undefined behaviour.
- DrawFilledRect: when at least one column is drawn (`x1 <= x2`), requires the 16-bit-truncated column height to be at most 512 pixels, because each column goes through `write_color_`. With `x1 > x2` no column is drawn and any height is accepted.
- The start-up init code is a straight line of `write_command_`/`write_data_` calls. Here it is a constant table (`INIT_SEQUENCE`) run by a loop, which emits the same trace.
- `setup` is split into `ConfigurePanel` and `AllocateBuffer`. The repeated window set-up is factored into `SetWindow`/`SetAddressRange`. Neither split changes any trace.
- Htu31d.HTU31DComponent.ReadRegWithWait: a failed read is taken to leave the caller's buffer untouched. The I2C layer's behaviour on failure is not visible here.
- Htu31d.HTU31DComponent.Setup: a failed identity read (`read_bytes_raw`, htu31d.cpp:69) is likewise taken to leave `version` at its zero initialisation (htu31d.cpp:68). `Htu31d.VersionBuffer`, `Htu31d.FailedVersionReadPassesCheck`, `Htu31d.FailedIdentityReadScenario` and the second Findings row rest on this assumption.

## Findings

| source | as written | input that shows it | evidently intended | confidence | as-written member | corrected member |
|---|---|---|---|---|---|---|
| components/htu31d/htu31d.cpp:63 | `if (!write(&MGOS_HTU31D_READREG, 1))` applies `!` to an `ErrorCode` whose success value is 0, so the test is true on success | a device that acknowledges every transfer: `setup` sets the warning and never reads the identity; a write that fails (code 2) goes on to read | test `write(...) != ERROR_OK` like htu31d.cpp:97 and :149 | not executed | Htu31d.WorkingDeviceSetupScenario | Htu31d.HTU31DComponent.SetupAsIntended, Htu31d.IntendedSetupScenario |
| components/htu31d/htu31d.cpp:69-73 | a failed `read_bytes_raw` sets the warning but does not return, so the CRC check runs on the zero-initialised buffer and passes | identity read failing: the check compares 0x00 with crc8(00 00 00) = 0x00 and reports serial 000000 as valid | return after the warning, as the other failures do | not executed | Htu31d.FailedIdentityReadScenario, Htu31d.FailedVersionReadPassesCheck | Htu31d.HTU31DComponent.SetupAsIntended, Htu31d.IntendedSetupScenario |

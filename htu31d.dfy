/** The HTU31D temperature/humidity sensor component
    (components/htu31d/htu31d.h and htu31d.cpp).

    The I2C bus, the delay primitive and the host's sensor objects are not
    modelled: every bus call the component makes is recorded, in order, in
    `trace`, and what the bus answers is passed to the methods as inputs. */
module Htu31d {
  import opened Htu31dCrc

  // Command bytes of the sensor (htu31d.cpp:28-35).
  const DEFAULT_I2C_ADDRESS: byte := 0x40
  const READ_TEMP_HUM: byte := 0x00
  const CONVERSION: byte := 0x40
  const HEATER_ON: byte := 0x04
  const HEATER_OFF: byte := 0x02
  const READ_REG: byte := 0x0A
  const RESET: byte := 0x1E

  /** The I2C layer's result code; success is ERROR_OK, which is 0. */
  type ErrorCode = nat
  const ERROR_OK: ErrorCode := 0

  /** How C++ reads an integer used as a condition: non-zero is true. */
  predicate AsCondition(code: ErrorCode) {
    code != 0
  }

  /** A value sink of the host (a `sensor::Sensor`); only its identity matters here. */
  class Sensor {
  }

  /** What is handed to a sink: the raw 16-bit reading and which scaling applies to it. */
  datatype Reading = Temperature(raw: nat) | Humidity(raw: nat)

  /** One observable step of the component. */
  datatype Event =
    | Write(bytes: seq<byte>)                           // one I2C write
    | Read(len: nat)                                    // one I2C read of `len` bytes
    | Delay(ms: nat)                                    // a blocking wait
    | VersionCheck(serial: seq<byte>, crcMatches: bool) // the identity comparison and which branch it took
    | Publish(sink: Sensor, reading: Reading)           // a `publish_state` call

  /** The bus's answer to one read: its result code and the bytes it delivers on success. */
  datatype ReadReply = ReadReply(code: ErrorCode, bytes: seq<byte>)

  /** The 16-bit value of a big-endian byte pair, `(hi << 8) + lo`. */
  function Raw(hi: byte, lo: byte): (r: nat)
    ensures r < 0x1_0000
    ensures r / 256 == hi as nat && r % 256 == lo as nat
  {
    hi as nat * 256 + lo as nat
  }

  /** A 3-byte group read from the sensor: two data bytes and the CRC over them. */
  predicate TripletValid(t: seq<byte>)
    requires |t| == 3
  {
    t[2] == Crc8(t[..2])
  }

  /** The temperature, in degrees Celsius, that a raw reading stands for
      (computed in single precision by the source; exact here). */
  function Celsius(raw: nat): (t: real)
    requires raw < 0x1_0000
    ensures -40.0 <= t <= 125.0
    ensures raw == 0 ==> t == -40.0
    ensures raw == 0xFFFF ==> t == 125.0
  {
    raw as real / 65535.0 * 165.0 - 40.0
  }

  /** The relative humidity, in percent, that a raw reading stands for. */
  function RelativeHumidity(raw: nat): (h: real)
    requires raw < 0x1_0000
    ensures 0.0 <= h <= 100.0
    ensures raw == 0 ==> h == 0.0
    ensures raw == 0xFFFF ==> h == 100.0
  {
    raw as real / 65535.0 * 100.0
  }

  /** A larger raw value never stands for a lower temperature or humidity. */
  lemma ScalingMonotonic(r1: nat, r2: nat)
    requires r1 <= r2 < 0x1_0000
    ensures Celsius(r1) <= Celsius(r2)
    ensures RelativeHumidity(r1) <= RelativeHumidity(r2)
  {
    assert r1 as real / 65535.0 <= r2 as real / 65535.0;
  }

  /** The bus operations of `read_reg_with_wait` for a given result of its register write. */
  function RegReadEvents(register: byte, len: nat, conversion: nat, writeCode: ErrorCode): (r: seq<Event>)
    ensures |r| > 0 && r[0] == Write([register])
    ensures Read(len) in r <==> writeCode == ERROR_OK
    ensures (exists ms :: Delay(ms) in r) <==> writeCode == ERROR_OK && conversion != 0
    ensures forall e :: e in r ==> !e.Publish? && !e.VersionCheck?
  {
    [Write([register])]
    + if writeCode != ERROR_OK then []
      else (if conversion != 0 then [Delay(conversion)] else []) + [Read(len)]
  }

  /** The bus operations of one `update` up to and including the 6-byte read. */
  function MeasureEvents(registerCode: ErrorCode): seq<Event> {
    [Write([CONVERSION]), Delay(20)] + RegReadEvents(READ_TEMP_HUM, 6, 20, registerCode)
  }

  /** The publications of a successful `update`, one per non-null sink. */
  function Publications(tempSink: Sensor?, humSink: Sensor?, data: seq<byte>): (r: seq<Event>)
    requires |data| == 6
    ensures |r| == (if tempSink != null then 1 else 0) + (if humSink != null then 1 else 0)
    ensures forall e :: e in r ==> e.Publish?
    ensures tempSink != null ==> r[0] == Publish(tempSink, Temperature(Raw(data[0], data[1])))
    ensures humSink != null ==> r[|r| - 1] == Publish(humSink, Humidity(Raw(data[3], data[4])))
  {
    (if tempSink != null then [Publish(tempSink, Temperature(Raw(data[0], data[1])))] else [])
    + (if humSink != null then [Publish(humSink, Humidity(Raw(data[3], data[4])))] else [])
  }

  /** The buffer `setup` checks: the bytes read, or the zero-initialised buffer when the read failed. */
  function VersionBuffer(reply: ReadReply): (v: seq<byte>)
    requires |reply.bytes| == 4
    ensures |v| == 4
  {
    if reply.code == ERROR_OK then reply.bytes else [0, 0, 0, 0]
  }

  /** When the identity read fails, the check still runs, on the zero buffer,
      and passes: the CRC of three zero bytes is the zero fourth byte. */
  lemma FailedVersionReadPassesCheck(reply: ReadReply)
    requires |reply.bytes| == 4 && reply.code != ERROR_OK
    ensures VersionBuffer(reply)[3] == Crc8(VersionBuffer(reply)[..3])
  {
    assert VersionBuffer(reply)[..3] == seq(3, _ => 0 as byte);
    CrcOfZeros(3);
  }

  class HTU31DComponent {
    var temperature: Sensor?
    var humidity: Sensor?
    var failed: bool
    var warning: bool
    var trace: seq<Event>

    constructor ()
      ensures temperature == null && humidity == null
      ensures !failed && !warning && trace == []
    {
      temperature := null;
      humidity := null;
      failed := false;
      warning := false;
      trace := [];
    }

    method SetTemperature(sensor: Sensor?)
      modifies this`temperature
      ensures temperature == sensor && humidity == old(humidity)
    {
      temperature := sensor;
    }

    method SetHumidity(sensor: Sensor?)
      modifies this`humidity
      ensures humidity == sensor && temperature == old(temperature)
    {
      humidity := sensor;
    }

    /** Writes the register address, waits `conversion` ms when it is not 0,
        and reads `len` bytes into the caller's buffer; true when both
        transfers succeed. A failed read leaves the buffer as it was. */
    method ReadRegWithWait(register: byte, buffer: seq<byte>, len: nat, conversion: nat,
                           writeCode: ErrorCode, reply: ReadReply) returns (ok: bool, data: seq<byte>)
      requires |buffer| == len && |reply.bytes| == len
      modifies this`trace
      ensures trace == old(trace) + RegReadEvents(register, len, conversion, writeCode)
      ensures ok <==> writeCode == ERROR_OK && reply.code == ERROR_OK
      ensures data == if ok then reply.bytes else buffer
    {
      trace := trace + [Write([register])];
      var err := writeCode;
      if err != ERROR_OK {
        return false, buffer;
      }
      if conversion != 0 {
        trace := trace + [Delay(conversion)];
      }
      trace := trace + [Read(len)];
      ok := reply.code == ERROR_OK;
      data := if ok then reply.bytes else buffer;
    }

    /** Soft reset, then read and check the identity. The reset write's
        result is tested as `write_bytes`'s boolean; the identity write's
        result is an error code tested as a condition (`!write(...)`), which
        is true on success; a failed identity read does not return. */
    method Setup(resetCode: ErrorCode, versionWriteCode: ErrorCode, versionReply: ReadReply)
      requires |versionReply.bytes| == 4
      modifies this`failed, this`warning, this`trace
      ensures resetCode != ERROR_OK ==>
        failed && warning == old(warning) && trace == old(trace) + [Write([RESET])]
      ensures resetCode == ERROR_OK && !AsCondition(versionWriteCode) ==>
        failed == old(failed) && warning
        && trace == old(trace) + [Write([RESET]), Delay(15), Write([READ_REG])]
      ensures resetCode == ERROR_OK && AsCondition(versionWriteCode) ==>
        var v := VersionBuffer(versionReply);
        failed == old(failed)
        && warning == (old(warning) || versionReply.code != ERROR_OK)
        && trace == old(trace) + [Write([RESET]), Delay(15), Write([READ_REG]), Read(4),
                                  VersionCheck(v[..3], v[3] == Crc8(v[..3]))]
    {
      trace := trace + [Write([RESET])];
      var resetOk := resetCode == ERROR_OK;  // write_bytes reports success as true
      if !resetOk {
        failed := true;
        return;
      }
      trace := trace + [Delay(15)];
      trace := trace + [Write([READ_REG])];
      if !AsCondition(versionWriteCode) {
        warning := true;
        return;
      }
      var version: seq<byte> := [0, 0, 0, 0];
      trace := trace + [Read(4)];
      var readOk := versionReply.code == ERROR_OK;  // read_bytes_raw reports success as true
      if !readOk {
        warning := true;
      } else {
        version := versionReply.bytes;
      }
      var crc := ComputeCrc8(version, 3);
      trace := trace + [VersionCheck(version[..3], version[3] == crc)];
    }

    /** `setup` as evidently intended: the identity write tested against
        ERROR_OK like the other two writes, and no identity check after a
        failed read. */
    method SetupAsIntended(resetCode: ErrorCode, versionWriteCode: ErrorCode, versionReply: ReadReply)
      requires |versionReply.bytes| == 4
      modifies this`failed, this`warning, this`trace
      ensures resetCode != ERROR_OK ==>
        failed && warning == old(warning) && trace == old(trace) + [Write([RESET])]
      ensures resetCode == ERROR_OK && versionWriteCode != ERROR_OK ==>
        failed == old(failed) && warning
        && trace == old(trace) + [Write([RESET]), Delay(15), Write([READ_REG])]
      ensures resetCode == ERROR_OK && versionWriteCode == ERROR_OK && versionReply.code != ERROR_OK ==>
        failed == old(failed) && warning
        && trace == old(trace) + [Write([RESET]), Delay(15), Write([READ_REG]), Read(4)]
      ensures resetCode == ERROR_OK && versionWriteCode == ERROR_OK && versionReply.code == ERROR_OK ==>
        var v := versionReply.bytes;
        failed == old(failed) && warning == old(warning)
        && trace == old(trace) + [Write([RESET]), Delay(15), Write([READ_REG]), Read(4),
                                  VersionCheck(v[..3], v[3] == Crc8(v[..3]))]
    {
      trace := trace + [Write([RESET])];
      if resetCode != ERROR_OK {
        failed := true;
        return;
      }
      trace := trace + [Delay(15), Write([READ_REG])];
      if versionWriteCode != ERROR_OK {
        warning := true;
        return;
      }
      trace := trace + [Read(4)];
      if versionReply.code != ERROR_OK {
        warning := true;
        return;
      }
      var version := versionReply.bytes;
      var crc := ComputeCrc8(version, 3);
      trace := trace + [VersionCheck(version[..3], version[3] == crc)];
    }

    /** One poll: start a conversion, read the 6-byte frame, check both
        triplets, and publish both readings or neither. */
    method Update(conversionCode: ErrorCode, registerCode: ErrorCode, reply: ReadReply)
      requires |reply.bytes| == 6
      modifies this`warning, this`trace
      ensures conversionCode != ERROR_OK ==>
        warning && trace == old(trace) + [Write([CONVERSION])]
      ensures conversionCode == ERROR_OK && (registerCode != ERROR_OK || reply.code != ERROR_OK) ==>
        warning && trace == old(trace) + MeasureEvents(registerCode)
      ensures conversionCode == ERROR_OK && registerCode == ERROR_OK && reply.code == ERROR_OK
              && !(TripletValid(reply.bytes[..3]) && TripletValid(reply.bytes[3..])) ==>
        warning == old(warning) && trace == old(trace) + MeasureEvents(ERROR_OK)
      ensures conversionCode == ERROR_OK && registerCode == ERROR_OK && reply.code == ERROR_OK
              && TripletValid(reply.bytes[..3]) && TripletValid(reply.bytes[3..]) ==>
        !warning
        && trace == old(trace) + MeasureEvents(ERROR_OK) + Publications(temperature, humidity, reply.bytes)
    {
      trace := trace + [Write([CONVERSION])];
      if conversionCode != ERROR_OK {
        warning := true;
        return;
      }
      trace := trace + [Delay(20)];
      var data: seq<byte> := [0, 0, 0, 0, 0, 0];
      var ok;
      ok, data := ReadRegWithWait(READ_TEMP_HUM, data, 6, 20, registerCode, reply);
      if !ok {
        warning := true;
        return;
      }
      assert data == reply.bytes && trace == old(trace) + MeasureEvents(ERROR_OK);
      var tmp := data[..3];
      assert tmp[..2] == data[..2];
      var tempCrc := ComputeCrc8(data, 2);
      if tmp[2] != tempCrc {
        return;
      }
      var hum := data[3..];
      var humCrc := ComputeCrc8(hum, 2);
      if hum[2] != humCrc {
        return;
      }
      PublishReadings(data);
      warning := false;
    }

    /** The end of a successful `update`: the temperature, then the
        humidity, each to its sensor when one is configured. */
    method PublishReadings(data: seq<byte>)
      requires |data| == 6
      modifies this`trace
      ensures trace == old(trace) + Publications(temperature, humidity, data)
    {
      var temp := Raw(data[0], data[1]);
      var hmdty := Raw(data[3], data[4]);
      if temperature != null {
        trace := trace + [Publish(temperature, Temperature(temp))];
      }
      if humidity != null {
        trace := trace + [Publish(humidity, Humidity(hmdty))];
      }
    }
  }

  // Scenarios: what a caller can conclude from the contracts above alone.

  /** A reset write that fails is fatal: one bus operation, then failed. */
  method ResetFailureScenario() returns (failed: bool, operations: nat)
    ensures failed && operations == 1
  {
    var c := new HTU31DComponent();
    c.Setup(2, ERROR_OK, ReadReply(ERROR_OK, [0x12, 0x34, 0x56, 0x00]));
    failed := c.failed;
    operations := |c.trace|;
  }

  /** A device that answers every transfer: `setup` sets the warning and the
      identity is never read, because `!write(...)` is true on success. */
  method WorkingDeviceSetupScenario() returns (warned: bool, identityRead: bool)
    ensures warned && !identityRead
  {
    var c := new HTU31DComponent();
    c.Setup(ERROR_OK, ERROR_OK, ReadReply(ERROR_OK, [0x12, 0x34, 0x56, 0x00]));
    warned := c.warning;
    identityRead := Read(4) in c.trace;
  }

  /** An identity write reported as not acknowledged (code 2), then a failed
      read: the check runs on the zero buffer and reports serial 000000 as valid. */
  method FailedIdentityReadScenario() returns (check: Event, warned: bool)
    ensures check == VersionCheck([0, 0, 0], true) && warned
  {
    var c := new HTU31DComponent();
    var reply := ReadReply(3, [0x12, 0x34, 0x56, 0x78]);
    c.Setup(ERROR_OK, 2, reply);
    FailedVersionReadPassesCheck(reply);
    check := c.trace[|c.trace| - 1];
    warned := c.warning;
  }

  /** The corrected `setup` on the same two devices: the working one reads
      its identity without a warning; a failed identity read warns and
      skips the check. */
  method IntendedSetupScenario() returns (workingWarned: bool, workingRead: bool, failingWarned: bool, failingChecked: bool)
    ensures !workingWarned && workingRead
    ensures failingWarned && !failingChecked
  {
    var c := new HTU31DComponent();
    c.SetupAsIntended(ERROR_OK, ERROR_OK, ReadReply(ERROR_OK, [0x12, 0x34, 0x56, 0x00]));
    workingWarned := c.warning;
    workingRead := Read(4) in c.trace;
    var d := new HTU31DComponent();
    d.SetupAsIntended(ERROR_OK, ERROR_OK, ReadReply(3, [0x12, 0x34, 0x56, 0x78]));
    failingWarned := d.warning;
    failingChecked := exists e :: e in d.trace && e.VersionCheck?;
  }

  /** A full successful cycle with raw temperature 0x8000 and raw humidity
      0x4000: both sinks receive their reading and the warning is cleared. */
  method MeasurementScenario() returns (published: seq<Event>, warned: bool)
    ensures warned == false
    ensures |published| == 2
    ensures published[0].Publish? && published[0].reading == Temperature(0x8000)
    ensures published[1].Publish? && published[1].reading == Humidity(0x4000)
  {
    var c := new HTU31DComponent();
    var t := new Sensor;
    var h := new Sensor;
    c.SetTemperature(t);
    c.SetHumidity(h);
    var frame: seq<byte> := [0x80, 0x00, 0x23, 0x40, 0x00, 0x89];
    CheckValue8000();
    CheckValue4000();
    assert frame[..3][..2] == [0x80, 0x00] && frame[3..][..2] == [0x40, 0x00];
    c.Update(ERROR_OK, ERROR_OK, ReadReply(ERROR_OK, frame));
    published := c.trace[|MeasureEvents(ERROR_OK)|..];
    warned := c.warning;
  }
}

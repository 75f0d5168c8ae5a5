/** EEPROM transactions of the I2C library (I2Clib.c): a 3-byte header,
    then a write with a sticky "not acknowledged" flag or a read after a
    repeated START, and acknowledge polling for the end of a write cycle.

    The bus is modelled by what the master sees and what it emits: the
    ACKSTAT bit after every byte the master writes is read from an input
    sequence (true means the slave did NOT acknowledge; positions past the
    end of the sequence are acknowledged), the bytes the slave returns come
    from another, and every START, STOP, repeated START, byte and
    acknowledge bit the master produces is appended to an output trace.
    The waits for bus idle (IdleI2C1, i2c_wait) have no visible effect and
    are left out. */
module I2CEeprom {

  newtype Byte = x: int | 0 <= x < 256

  /** What the master puts on the bus (section 3.1.4, 3.1.6 and 3.1.10 of
      NXP UM10204). */
  datatype BusOp =
    | Start
    | Restart
    | Stop
    | Write(b: Byte)   // a byte from master to slave
    | Read(b: Byte)    // a byte from slave to master
    | Ack              // master acknowledges a byte it read
    | NotAck           // master does not acknowledge the byte it read

  /** Conversion of a C int to unsigned char: the value modulo 256. */
  function ToByte(x: int): (b: Byte)
  {
    (x % 256) as Byte
  }

  /** Device address shifted left by one (R/W bit 0, a write), then the
      memory address high byte and low byte. */
  function Header(slaveAddress: int, memAddr: int): (h: seq<Byte>)
    ensures |h| == 3 && h[0] as int % 2 == 0
    ensures h[1] as int * 256 + h[2] as int == memAddr % 0x10000
  {
    AddressBytes(memAddr);
    ControlBytes(slaveAddress);
    [ToByte(slaveAddress * 2), ToByte(memAddr / 256), ToByte(memAddr)]
  }

  /** The read command after the repeated START: address with R/W bit 1. */
  function ReadCommand(slaveAddress: int): (cmd: Byte)
    ensures cmd as int % 2 == 1
  {
    ControlBytes(slaveAddress);
    ToByte(slaveAddress * 2 + 1)
  }

  /** The two address bytes hold the memory address modulo 2^16: the
      high byte is (mem_addr >> 8) truncated, the low byte mem_addr
      truncated. */
  lemma AddressBytes(memAddr: int)
    ensures ToByte(memAddr / 256) as int * 256 + ToByte(memAddr) as int == memAddr % 0x10000
  {
    var q, m := memAddr / 0x10000, memAddr % 0x10000;
    var hi, lo := m / 256, m % 256;
    assert memAddr == 256 * (256 * q + hi) + lo;
    assert memAddr / 256 == 256 * q + hi;
    ModOfMultiple(q, hi);
    ModOfMultiple(256 * q + hi, lo);
  }

  /** The address shifted left by one and truncated to a byte carries the
      7-bit address; the write form has R/W bit 0, the read form bit 1. */
  lemma ControlBytes(slaveAddress: int)
    ensures ToByte(slaveAddress * 2) as int == 2 * (slaveAddress % 128)
    ensures ToByte(slaveAddress * 2 + 1) as int == 2 * (slaveAddress % 128) + 1
  {
    var a, b := slaveAddress / 128, slaveAddress % 128;
    assert slaveAddress * 2 == 256 * a + 2 * b;
    ModOfMultiple(a, 2 * b);
    ModOfMultiple(a, 2 * b + 1);
  }

  /** The header carries the 7-bit address with R/W = 0, and for every
      address of the 16-bit memory space the two address bytes give it back. */
  lemma HeaderRoundTrip(slaveAddress: int, memAddr: int)
    requires 0 <= memAddr < 0x10000
    ensures var h := Header(slaveAddress, memAddr);
      |h| == 3 && h[1] as int * 256 + h[2] as int == memAddr &&
      h[0] as int % 2 == 0 && h[0] as int / 2 == slaveAddress % 128
  {
    ControlBytes(slaveAddress);
    ModSmall(memAddr, 0x10000);
  }

  lemma ModSmall(c: int, m: int)
    requires 0 <= c < m
    ensures c % m == c
  {
  }

  lemma ModOfMultiple(a: int, c: int)
    requires 0 <= c < 256
    ensures (256 * a + c) % 256 == c
  {
  }

  /** The read command differs from the header's first byte only in the
      R/W bit, which is 1. */
  lemma ReadCommandIsAddressPlusRead(slaveAddress: int, memAddr: int)
    ensures ReadCommand(slaveAddress) as int == Header(slaveAddress, memAddr)[0] as int + 1
    ensures ReadCommand(slaveAddress) as int / 2 == slaveAddress % 128
  {
    ControlBytes(slaveAddress);
  }

  function Max(a: int, b: int): (m: int) { if a < b then b else a }

  /** ACKSTAT of the k-th byte written in one transaction. */
  predicate NakAt(nak: seq<bool>, k: nat)
  {
    k < |nak| && nak[k]
  }

  /** Position of the first byte, among the first n, that the slave did not
      acknowledge; n if it acknowledged all of them. */
  function FirstNak(nak: seq<bool>, n: nat): (i: nat)
    ensures i <= n
    ensures i < n ==> NakAt(nak, i)
  {
    if n == 0 then 0
    else
      var j := FirstNak(nak, n - 1);
      if j < n - 1 then j else if NakAt(nak, n - 1) then n - 1 else n
  }

  /** Every byte before the first NAK was acknowledged. */
  lemma {:induction false} FirstNakIsFirst(nak: seq<bool>, n: nat, k: nat)
    requires k < FirstNak(nak, n)
    ensures !NakAt(nak, k)
  {
    if FirstNak(nak, n - 1) < n - 1 {
      FirstNakIsFirst(nak, n - 1, k);
    } else if k < n - 1 {
      FirstNakIsFirst(nak, n - 1, k);
    }
  }

  /** Number of bytes written when n are offered and writing stops right
      after the first one that is not acknowledged. */
  function SentCount(nak: seq<bool>, n: nat): (sent: nat)
  {
    var i := FirstNak(nak, n);
    if i < n then i + 1 else n
  }

  /** After sent bytes, the sticky error flag is up exactly when one of
      them was not acknowledged, and then that was the last byte sent. */
  predicate Sticky(nak: seq<bool>, sent: nat, error: bool)
  {
    && error == (FirstNak(nak, sent) < sent)
    && (error ==> sent == FirstNak(nak, sent) + 1)
  }

  lemma StickyStep(nak: seq<bool>, sent: nat)
    requires Sticky(nak, sent, false)
    ensures Sticky(nak, sent + 1, NakAt(nak, sent))
  {
  }

  /** Leaving a byte loop: writing stopped at the first NAK, or all n
      bytes went out. */
  lemma StickyExit(nak: seq<bool>, sent: nat, error: bool, n: nat)
    requires Sticky(nak, sent, error) && sent <= n && (!error ==> sent == n)
    ensures sent == SentCount(nak, n) && error == (FirstNak(nak, n) < n)
  {
    if error {
      var j := FirstNak(nak, sent);
      var i := FirstNak(nak, n);
      if i < j {
        FirstNakIsFirst(nak, sent, i);
      } else if j < i {
        FirstNakIsFirst(nak, n, j);
      }
    }
  }

  function Writes(bytes: seq<Byte>): (ops: seq<BusOp>)
    ensures |ops| == |bytes|
  {
    if bytes == [] then [] else Writes(bytes[..|bytes| - 1]) + [Write(bytes[|bytes| - 1])]
  }

  /** The k-th operation of a run of writes puts the k-th byte on the bus. */
  lemma {:induction false} WritesAt(bytes: seq<Byte>, k: nat)
    requires k < |bytes|
    ensures Writes(bytes)[k] == Write(bytes[k])
  {
    if k < |bytes| - 1 {
      WritesAt(bytes[..|bytes| - 1], k);
    }
  }

  /** Writing one more byte of a sequence extends the trace by it. */
  lemma WritesExtend(bytes: seq<Byte>, k: nat)
    requires k < |bytes|
    ensures Writes(bytes[..k + 1]) == Writes(bytes[..k]) + [Write(bytes[k])]
  {
    assert bytes[..k + 1][..k] == bytes[..k];
  }

  /** One acknowledge-polling cycle: START, the address byte, STOP. */
  function ProbeCycle(slaveAddress: int): (ops: seq<BusOp>)
  {
    [Start, Write(ToByte(slaveAddress * 2)), Stop]
  }

  function Probes(slaveAddress: int, count: nat): (ops: seq<BusOp>)
    ensures |ops| == 3 * count
  {
    if count == 0 then [] else Probes(slaveAddress, count - 1) + ProbeCycle(slaveAddress)
  }

  /** The device acknowledges one of the probes. */
  predicate AcksEventually(probes: seq<bool>)
  {
    exists k :: 0 <= k < |probes| && !probes[k]
  }

  /** Reads of all bytes with a master ACK after each of them. */
  function AckedReads(bytes: seq<Byte>): (ops: seq<BusOp>)
    ensures |ops| == 2 * |bytes|
  {
    if bytes == [] then [] else AckedReads(bytes[..|bytes| - 1]) + [Read(bytes[|bytes| - 1]), Ack]
  }

  lemma AckedReadsExtend(bytes: seq<Byte>, k: nat)
    requires k < |bytes|
    ensures AckedReads(bytes[..k + 1]) == AckedReads(bytes[..k]) + [Read(bytes[k]), Ack]
  {
    assert bytes[..k + 1][..k] == bytes[..k];
  }

  /** The data phase of a read: every byte but the last is acknowledged,
      the last is not. */
  function ReadPhase(bytes: seq<Byte>): (ops: seq<BusOp>)
    requires |bytes| >= 1
  {
    AckedReads(bytes[..|bytes| - 1]) + [Read(bytes[|bytes| - 1]), NotAck]
  }

  /** The master acknowledges after byte k exactly when k is not the last. */
  lemma {:induction false} AckedReadsAt(bytes: seq<Byte>, k: nat)
    requires k < |bytes|
    ensures AckedReads(bytes)[2 * k] == Read(bytes[k])
    ensures AckedReads(bytes)[2 * k + 1] == Ack
  {
    if k < |bytes| - 1 {
      AckedReadsAt(bytes[..|bytes| - 1], k);
    }
  }

  lemma ReadPhaseAcks(bytes: seq<Byte>, k: nat)
    requires k < |bytes|
    ensures |ReadPhase(bytes)| == 2 * |bytes|
    ensures ReadPhase(bytes)[2 * k] == Read(bytes[k])
    ensures ReadPhase(bytes)[2 * k + 1] == (if k == |bytes| - 1 then NotAck else Ack)
  {
    if k < |bytes| - 1 {
      AckedReadsAt(bytes[..|bytes| - 1], k);
    }
  }

  /** Writing a + b is writing a, then b. */
  lemma {:induction false} WritesAppend(a: seq<Byte>, b: seq<Byte>)
    ensures Writes(a + b) == Writes(a) + Writes(b)
  {
    if b != [] {
      var c, last := b[..|b| - 1], b[|b| - 1];
      assert (a + b)[..|a + b| - 1] == a + c;
      assert Writes(a + b) == Writes(a + c) + [Write(last)];
      WritesAppend(a, c);
      assert Writes(b) == Writes(c) + [Write(last)];
    } else {
      assert a + b == a;
    }
  }

  /** One of the byte loops of I2Clib.c: while fewer than count bytes of
      data went out and the error flag is down, write the next byte and
      OR its ACKSTAT into the flag. The bus position of the first byte is
      sent0, so that the header loop and the data loop of one transaction
      read the ACK bits of consecutive bytes. */
  method WriteWhileAcked(data: seq<Byte>, count: int, nak: seq<bool>, sent0: nat, error0: bool)
    returns (error: bool, sent: nat, ops: seq<BusOp>)
    requires count <= |data|
    requires Sticky(nak, sent0, error0)
    ensures Sticky(nak, sent, error)
    ensures error0 ==> error && sent == sent0
    ensures sent0 <= sent <= sent0 + Max(count, 0)
    ensures !error ==> sent == sent0 + Max(count, 0)
    ensures ops == Writes(data[..sent - sent0])
  {
    error := error0;
    sent := sent0;
    ops := [];
    var index := 0;
    while index < count && !error
      invariant 0 <= index <= Max(count, 0) && sent == sent0 + index
      invariant error0 ==> index == 0 && error
      invariant Sticky(nak, sent, error)
      invariant ops == Writes(data[..index])
    {
      WritesExtend(data, index);
      StickyStep(nak, sent);
      ops := ops + [Write(data[index])];
      index := index + 1;
      error := error || NakAt(nak, sent);
      sent := sent + 1;
    }
  }

  /** The writes of the header loop (s1 bytes) and of the data loop
      (s2 - s1 more) are the writes of the first s2 bytes of header and
      data together. */
  lemma SentBytes(header: seq<Byte>, data: seq<Byte>, len: nat, s1: nat, s2: nat)
    requires len <= |data|
    requires s1 <= |header| && s1 <= s2 <= |header| + len
    requires s1 < |header| ==> s2 == s1
    ensures Writes(header[..s1]) + Writes(data[..s2 - s1]) == Writes((header + data[..len])[..s2])
  {
    if s1 == |header| {
      assert header[..s1] == header;
    }
    assert (header + data[..len])[..s2] == header[..s1] + data[..s2 - s1];
    WritesAppend(header[..s1], data[..s2 - s1]);
  }

  /** I2CWrtiteEEPROM: START, header and data bytes until the first byte
      that is not acknowledged, STOP, then acknowledge polling if and only
      if every byte was acknowledged. Returns the error flag. */
  method I2CWriteEEPROM(slaveAddress: int, memAddr: int, i2cData: seq<Byte>, len: int,
                        nak: seq<bool>, probes: seq<bool>)
    returns (i2cError: bool, trace: seq<BusOp>)
    requires len <= |i2cData|
    requires FirstNak(nak, 3 + Max(len, 0)) == 3 + Max(len, 0) ==> AcksEventually(probes)
    ensures var n := 3 + Max(len, 0);
      var bytes := Header(slaveAddress, memAddr) + i2cData[..Max(len, 0)];
      && i2cError == (FirstNak(nak, n) < n)
      && trace == [Start] + Writes(bytes[..SentCount(nak, n)]) + [Stop] +
                  (if i2cError then [] else Probes(slaveAddress, FirstAckedProbe(probes) + 1))
  {
    var header := Header(slaveAddress, memAddr);
    var s1, s2;
    var headerOps, dataOps;
    i2cError, s1, headerOps := WriteWhileAcked(header, 3, nak, 0, false);
    i2cError, s2, dataOps := WriteWhileAcked(i2cData, len, nak, s1, i2cError);
    StickyExit(nak, s2, i2cError, 3 + Max(len, 0));
    SentBytes(header, i2cData, Max(len, 0), s1, s2);
    var polls := [];
    if !i2cError {
      var count;
      count, polls := WaitI2CXfer(slaveAddress, probes);
    }
    var writes := headerOps + dataOps;
    trace := [Start] + writes + [Stop] + polls;
  }

  /** The data phase of I2CReadEEPROM: len - 1 bytes read and acknowledged,
      then one more read and not acknowledged, so that max(len, 1) bytes of
      i2cData are overwritten with what the slave sent. */
  method ReadData(i2cData: array<Byte>, len: int, incoming: seq<Byte>) returns (ops: seq<BusOp>)
    requires i2cData.Length >= Max(len, 1) && |incoming| >= Max(len, 1)
    modifies i2cData
    ensures var n := Max(len, 1);
      && i2cData[..n] == incoming[..n] && i2cData[n..] == old(i2cData[n..])
      && ops == ReadPhase(incoming[..n])
  {
    ops := [];
    var index := 0;
    while index < len - 1
      invariant 0 <= index <= Max(len, 1) - 1
      invariant i2cData[..index] == incoming[..index]
      invariant forall j :: index <= j < i2cData.Length ==> i2cData[j] == old(i2cData[j])
      invariant ops == AckedReads(incoming[..index])
    {
      AckedReadsExtend(incoming, index);
      i2cData[index] := incoming[index];
      ops := ops + [Read(incoming[index]), Ack];
      index := index + 1;
    }
    i2cData[index] := incoming[index];
    ops := ops + [Read(incoming[index]), NotAck];
    assert incoming[..Max(len, 1)][..index] == incoming[..index];
    assert i2cData[..index + 1] == i2cData[..index] + [i2cData[index]];
  }

  /** I2CReadEEPROM: START and the header with the sticky error flag; only
      if all three bytes were acknowledged, a repeated START, the read
      command and max(len, 1) bytes read into i2cData, the master
      acknowledging all but the last; STOP in every case. */
  method I2CReadEEPROM(slaveAddress: int, memAddr: int, i2cData: array<Byte>, len: int,
                       nak: seq<bool>, incoming: seq<Byte>)
    returns (i2cError: bool, trace: seq<BusOp>)
    requires i2cData.Length >= Max(len, 1) && |incoming| >= Max(len, 1)
    modifies i2cData
    ensures var n := Max(len, 1);
      && i2cError == (FirstNak(nak, 3) < 3)
      && (i2cError ==> i2cData[..] == old(i2cData[..]))
      && (!i2cError ==> i2cData[..n] == incoming[..n] && i2cData[n..] == old(i2cData[n..]))
      && trace == [Start] + Writes(Header(slaveAddress, memAddr)[..SentCount(nak, 3)]) +
                  (if i2cError then [] else [Restart, Write(ReadCommand(slaveAddress))] + ReadPhase(incoming[..n])) +
                  [Stop]
  {
    var header := Header(slaveAddress, memAddr);
    var sent;
    var headerOps;
    i2cError, sent, headerOps := WriteWhileAcked(header, 3, nak, 0, false);
    StickyExit(nak, sent, i2cError, 3);
    trace := [Start] + headerOps;
    if !i2cError {
      var readOps := ReadData(i2cData, len, incoming);
      trace := trace + [Restart, Write(ReadCommand(slaveAddress))] + readOps;
    }
    trace := trace + [Stop];
  }

  /** Index of the first probe the device acknowledges. */
  function FirstAckedProbe(probes: seq<bool>): (k: nat)
    requires AcksEventually(probes)
    ensures k < |probes| && !probes[k]
    ensures forall j :: 0 <= j < k ==> probes[j]
  {
    if !probes[0] then 0
    else
      assert AcksEventually(probes[1..]) by {
        var k :| 0 <= k < |probes| && !probes[k];
        assert k > 0 && !probes[1..][k - 1];
      }
      FirstAckedProbe(probes[1..]) + 1
  }

  /** wait_i2c_xfer: probe the device (START, address, STOP) until it
      acknowledges; the result counts the probes, the acknowledged one
      included. The source loops forever if the device never acknowledges,
      so the model asks that it eventually does. */
  method WaitI2CXfer(slaveAddress: int, probes: seq<bool>) returns (count: int, trace: seq<BusOp>)
    requires AcksEventually(probes)
    ensures 1 <= count <= |probes|
    ensures !probes[count - 1] && forall j :: 0 <= j < count - 1 ==> probes[j]
    ensures count == FirstAckedProbe(probes) + 1
    ensures trace == Probes(slaveAddress, count)
  {
    count := 0;
    trace := [];
    var notAcked := true;
    ghost var first := FirstAckedProbe(probes);
    while notAcked
      invariant 0 <= count <= first + 1
      invariant notAcked == (count == 0 || probes[count - 1])
      invariant forall j :: 0 <= j < count - 1 ==> probes[j]
      invariant trace == Probes(slaveAddress, count)
      decreases first + 1 - count
    {
      trace := trace + ProbeCycle(slaveAddress);
      notAcked := probes[count];
      count := count + 1;
    }
  }
}

/*
 * CEXI2Message: the EXI2C message layer over the camera's I2C bus. A
 * transmit buffer holds the sender id, the opcode, the parameter index and
 * the payload; multi-byte values travel most significant byte first, which
 * `CopyAndSwap` produces from the host's little-endian memory layout.
 * The bus transfer itself is recorded; replies are parameters.
 */
module I2cMessage {
  import opened Common

  const I2cDataSize: int := 32
  /** EXI2CM_WHO_IS_TALKING, 0x1C/2. */
  const WhoIsTalking: Byte := 0x0E

  const OpStore: Byte := 0x00
  const OpFetch: Byte := 0x01
  const OpCommand: Byte := 0x02
  const SizeByte: Byte := 0x08
  const SizeShort: Byte := 0x10
  const SizeLong: Byte := 0x20

  const IndexEventsSink: Byte := 0x00

  function Reverse<T>(s: seq<T>): (r: seq<T>)
    ensures |r| == |s|
    ensures forall i :: 0 <= i < |s| ==> r[i] == s[|s| - 1 - i]
  {
    if s == [] then [] else Reverse(s[1..]) + [s[0]]
  }

  /** Swapping twice gives the bytes back. */
  lemma ReverseTwice<T>(s: seq<T>)
    ensures Reverse(Reverse(s)) == s
  {
    assert forall i :: 0 <= i < |s| ==> Reverse(Reverse(s))[i] == s[i];
  }

  function Pow256(n: nat): (p: nat)
    ensures p > 0
  {
    if n == 0 then 1 else 256 * Pow256(n - 1)
  }

  /** The host memory layout of an `n`-byte unsigned value: least significant byte first. */
  function LittleEndian(v: nat, n: nat): (b: seq<Byte>)
    ensures |b| == n
  {
    if n == 0 then [] else [(v % 256) as Byte] + LittleEndian(v / 256, n - 1)
  }

  function FromLittleEndian(b: seq<Byte>): (v: nat)
    ensures v < Pow256(|b|)
  {
    if b == [] then 0 else b[0] + 256 * FromLittleEndian(b[1..])
  }

  lemma {:induction false} LittleEndianRoundTrip(v: nat, n: nat)
    requires v < Pow256(n)
    ensures FromLittleEndian(LittleEndian(v, n)) == v
    decreases n
  {
    if n > 0 {
      var b := LittleEndian(v, n);
      assert b[1..] == LittleEndian(v / 256, n - 1);
      LittleEndianRoundTrip(v / 256, n - 1);
    }
  }

  /** The range of a signed `n`-byte integer (qint16 for n = 2, qint32 for n = 4). */
  predicate InSignedRange(v: int, n: nat)
  {
    Pow256(n) + 2 * v >= 0 && 2 * v < Pow256(n)
  }

  /** Two's-complement storage of a signed `n`-byte value, and its reading back. */
  function Unsigned(v: int, n: nat): (u: nat)
    requires InSignedRange(v, n)
    ensures u < Pow256(n)
  {
    if v < 0 then v + Pow256(n) else v
  }

  function Signed(u: nat, n: nat): (v: int)
    requires u < Pow256(n)
    ensures InSignedRange(v, n)
  {
    if 2 * u >= Pow256(n) then u - Pow256(n) else u
  }

  lemma SignedRoundTrip(v: int, n: nat)
    requires InSignedRange(v, n)
    ensures Signed(Unsigned(v, n), n) == v
  {
  }

  /** The payload a Set call puts on the wire for a signed `n`-byte value: most significant byte first. */
  function Payload(v: int, n: nat): (b: seq<Byte>)
    requires InSignedRange(v, n)
    ensures |b| == n
  {
    Reverse(LittleEndian(Unsigned(v, n), n))
  }

  /** What a Get call makes of an `n`-byte reply: the bytes swapped into host order, read as signed. */
  function Decode(reply: seq<Byte>): (v: int)
    ensures InSignedRange(v, |reply|)
  {
    Signed(FromLittleEndian(Reverse(reply)), |reply|)
  }

  /** A value written by a Set call and sent back unchanged by the device is read back by the Get call. */
  lemma {:induction false} PayloadRoundTrip(v: int, n: nat)
    requires InSignedRange(v, n)
    ensures Decode(Payload(v, n)) == v
  {
    var le := LittleEndian(Unsigned(v, n), n);
    ReverseTwice(le);
    LittleEndianRoundTrip(Unsigned(v, n), n);
    SignedRoundTrip(v, n);
  }

  /** The events-sink address is stored doubled in a byte, and halved on reading. */
  function SinkStored(address: Byte): Byte
  {
    (2 * address) % 256
  }

  function SinkRead(stored: Byte): Byte
  {
    stored / 2
  }

  /** Addresses below 128 survive the doubling; above, the top bit is lost. */
  lemma SinkRoundTrip(address: Byte)
    ensures address < 128 ==> SinkRead(SinkStored(address)) == address
    ensures address >= 128 ==> SinkRead(SinkStored(address)) == address - 128
  {
  }

  /** `GetDS1624Temperature`: a 16-bit reading scaled by 125/32000 degrees. */
  function Ds1624Temperature(reply: seq<Byte>): (t: real)
    requires |reply| == 2
    ensures 0.0 <= t < 256.0
  {
    ((reply[1] as int + reply[0] as int * 256) as real) * (125.0 / 32000.0)
  }

  /** One bus transfer: the device, the bytes sent, and how many are read back. */
  datatype Transfer = Transfer(address: Byte, sent: seq<Byte>, receiveLength: nat)

  class Message {
    /** DataTX. */
    const dataTx: array<Byte>
    var transfers: seq<Transfer>

    ghost predicate Valid()
      reads this, dataTx
    {
      dataTx.Length == I2cDataSize && dataTx[0] == WhoIsTalking
    }

    constructor ()
      ensures Valid() && fresh(dataTx) && transfers == []
    {
      var a := new Byte[I2cDataSize](_ => 0);
      a[0] := WhoIsTalking;
      dataTx := a;
      transfers := [];
    }

    /** `CopyAndSwap` into the transmit buffer: `n` bytes of `src`, reversed, from position `at`. */
    method CopyAndSwap(at: nat, src: seq<Byte>)
      requires Valid() && 1 <= at && at + |src| <= dataTx.Length
      modifies dataTx
      ensures Valid()
      ensures dataTx[..] == old(dataTx[..at]) + Reverse(src) + old(dataTx[at + |src|..])
    {
      var n := |src|;
      var i := 0;
      while i < n
        invariant 0 <= i <= n
        invariant dataTx[0] == WhoIsTalking
        invariant forall k :: at <= k < at + i ==> dataTx[k] == src[n - 1 - (k - at)]
        invariant forall k :: 0 <= k < at ==> dataTx[k] == old(dataTx[k])
        invariant forall k :: at + i <= k < dataTx.Length ==> dataTx[k] == old(dataTx[k])
      {
        dataTx[at + i] := src[n - 1 - i];
        i := i + 1;
      }
      var r := Reverse(src);
      assert forall k :: 0 <= k < dataTx.Length ==>
        dataTx[k] == (old(dataTx[..at]) + r + old(dataTx[at + n..]))[k];
    }

    method Header(opcode: Byte, index: Byte)
      requires Valid()
      modifies dataTx
      ensures Valid()
      ensures dataTx[..3] == [WhoIsTalking, opcode, index]
      ensures dataTx[3..] == old(dataTx[3..])
    {
      dataTx[1] := opcode;
      dataTx[2] := index;
    }

    method Send(address: Byte, length: nat, receiveLength: nat)
      requires length <= dataTx.Length
      modifies this`transfers
      ensures transfers == old(transfers) + [Transfer(address, dataTx[..length], receiveLength)]
    {
      transfers := transfers + [Transfer(address, dataTx[..length], receiveLength)];
    }

    /** `GetBParameter`: a 3-byte fetch; the device answers two bytes, the first is the value. */
    method GetBParameter(address: Byte, index: Byte, reply: seq<Byte>) returns (r: Byte)
      requires Valid() && |reply| == 2
      modifies dataTx, this`transfers
      ensures Valid() && r == reply[0]
      ensures transfers == old(transfers) + [Transfer(address, [WhoIsTalking, OpFetch + SizeByte, index], 2)]
    {
      Header(OpFetch + SizeByte, index);
      Send(address, 3, 2);
      r := reply[0];
    }

    /** `SetBParameter`: stored as a short whose two bytes are both the value; a 5-byte frame. */
    method SetBParameter(address: Byte, index: Byte, data: Byte)
      requires Valid()
      modifies dataTx, this`transfers
      ensures Valid()
      ensures transfers == old(transfers) + [Transfer(address, [WhoIsTalking, OpStore + SizeShort, index, data, data], 0)]
    {
      Header(OpStore + SizeShort, index);
      dataTx[3] := data;
      dataTx[4] := data;
      assert dataTx[..5] == [WhoIsTalking, OpStore + SizeShort, index, data, data];
      Send(address, 5, 0);
    }

    /** A Get of an `n`-byte value: a 3-byte fetch, and the reply decoded. */
    method GetParameter(address: Byte, opcode: Byte, index: Byte, reply: seq<Byte>) returns (r: int)
      requires Valid()
      modifies dataTx, this`transfers
      ensures Valid() && r == Decode(reply)
      ensures transfers == old(transfers) + [Transfer(address, [WhoIsTalking, opcode, index], |reply|)]
    {
      Header(opcode, index);
      Send(address, 3, |reply|);
      r := Decode(reply);
    }

    /** A Set of an `n`-byte value: the payload swapped behind the header, a (3 + n)-byte frame. */
    method SetParameter(address: Byte, index: Byte, opcode: Byte, v: int, n: nat)
      requires Valid() && 3 + n <= I2cDataSize && InSignedRange(v, n)
      modifies dataTx, this`transfers
      ensures Valid()
      ensures transfers == old(transfers) + [Transfer(address, [WhoIsTalking, opcode, index] + Payload(v, n), 0)]
    {
      Header(opcode, index);
      ghost var head := dataTx[..3];
      CopyAndSwap(3, LittleEndian(Unsigned(v, n), n));
      assert dataTx[..3 + n] == head + Payload(v, n);
      Send(address, 3 + n, 0);
    }

    method GetSParameter(address: Byte, index: Byte, reply: seq<Byte>) returns (r: int)
      requires Valid() && |reply| == 2
      modifies dataTx, this`transfers
      ensures Valid() && r == Decode(reply) && -32768 <= r < 32768
      ensures transfers == old(transfers) + [Transfer(address, [WhoIsTalking, OpFetch + SizeShort, index], 2)]
    {
      r := GetParameter(address, OpFetch + SizeShort, index, reply);
    }

    method SetSParameter(address: Byte, index: Byte, v: int)
      requires Valid() && InSignedRange(v, 2)
      modifies dataTx, this`transfers
      ensures Valid()
      ensures transfers == old(transfers) + [Transfer(address, [WhoIsTalking, OpStore + SizeShort, index] + Payload(v, 2), 0)]
    {
      SetParameter(address, index, OpStore + SizeShort, v, 2);
    }

    method GetLParameter(address: Byte, index: Byte, reply: seq<Byte>) returns (r: int)
      requires Valid() && |reply| == 4
      modifies dataTx, this`transfers
      ensures Valid() && r == Decode(reply)
      ensures transfers == old(transfers) + [Transfer(address, [WhoIsTalking, OpFetch + SizeLong, index], 4)]
    {
      r := GetParameter(address, OpFetch + SizeLong, index, reply);
    }

    method SetLParameter(address: Byte, index: Byte, v: int)
      requires Valid() && InSignedRange(v, 4)
      modifies dataTx, this`transfers
      ensures Valid()
      ensures transfers == old(transfers) + [Transfer(address, [WhoIsTalking, OpStore + SizeLong, index] + Payload(v, 4), 0)]
    {
      SetParameter(address, index, OpStore + SizeLong, v, 4);
    }

    /** `SendCommand`: a 3-byte command frame, nothing read back. */
    method SendCommand(address: Byte, index: Byte)
      requires Valid()
      modifies dataTx, this`transfers
      ensures Valid()
      ensures transfers == old(transfers) + [Transfer(address, [WhoIsTalking, OpCommand, index], 0)]
    {
      Header(OpCommand, index);
      Send(address, 3, 0);
    }

    method GetSCommand(address: Byte, index: Byte, reply: seq<Byte>) returns (r: int)
      requires Valid() && |reply| == 2
      modifies dataTx, this`transfers
      ensures Valid() && r == Decode(reply)
      ensures transfers == old(transfers) + [Transfer(address, [WhoIsTalking, OpCommand + SizeShort, index], 2)]
    {
      r := GetParameter(address, OpCommand + SizeShort, index, reply);
    }

    method GetEventsSinkAddress(address: Byte, reply: seq<Byte>) returns (r: Byte)
      requires Valid() && |reply| == 2
      modifies dataTx, this`transfers
      ensures Valid() && r == SinkRead(reply[0])
      ensures transfers == old(transfers) + [Transfer(address, [WhoIsTalking, OpFetch + SizeByte, IndexEventsSink], 2)]
    {
      var b := GetBParameter(address, IndexEventsSink, reply);
      r := SinkRead(b);
    }

    method SetEventsSinkAddress(address: Byte, sink: Byte)
      requires Valid()
      modifies dataTx, this`transfers
      ensures Valid()
      ensures transfers == old(transfers) + [Transfer(address, [WhoIsTalking, OpStore + SizeShort, IndexEventsSink, SinkStored(sink), SinkStored(sink)], 0)]
    {
      SetBParameter(address, IndexEventsSink, SinkStored(sink));
    }
  }
}

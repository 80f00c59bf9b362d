/** CRC16-CCITT as protocol/xkp/frames.py computes it, one bit at a time. The 16-bit register is
    sixteen booleans, least significant first, so `<<`, `^` and the test of bit 15 are list operations. */
module Crc16 {
  import opened Bytes

  type Reg = s: seq<bool> | |s| == 16 witness Falses(16)
  type Octet = s: seq<bool> | |s| == 8 witness Falses(8)

  /** 0x1021. */
  const POLY: Reg := [true, false, false, false, false, true, false, false,
                      false, false, false, false, true, false, false, false]
  /** 0xFFFF. */
  const INIT: Reg := [true, true, true, true, true, true, true, true,
                      true, true, true, true, true, true, true, true]

  function Falses(k: nat): (s: seq<bool>)
    ensures |s| == k
    ensures forall i :: 0 <= i < k ==> !s[i]
  {
    seq(k, i => false)
  }

  function Xor(a: Reg, b: Reg): (r: Reg)
    ensures forall i :: 0 <= i < 16 ==> r[i] == (a[i] != b[i])
  {
    seq(16, i requires 0 <= i < 16 => a[i] != b[i])
  }

  /** Bit i of the byte is entry i. */
  function BitsOf(n: nat, k: nat): (s: seq<bool>)
    ensures |s| == k
  {
    if k == 0 then [] else [n % 2 == 1] + BitsOf(n / 2, k - 1)
  }

  function Pow2(k: nat): (p: nat)
    ensures p > 0
  {
    if k == 0 then 1 else 2 * Pow2(k - 1)
  }

  function ValueOf(s: seq<bool>): (n: nat)
    ensures n < Pow2(|s|)
  {
    if s == [] then 0 else (if s[0] then 1 else 0) + 2 * ValueOf(s[1..])
  }

  lemma {:induction false} ValueOfBits(n: nat, k: nat)
    requires n < Pow2(k)
    ensures ValueOf(BitsOf(n, k)) == n
  {
    if k > 0 {
      ValueOfBits(n / 2, k - 1);
      assert BitsOf(n, k)[1..] == BitsOf(n / 2, k - 1);
    }
  }

  lemma {:induction false} BitsOfValue(s: seq<bool>)
    ensures BitsOf(ValueOf(s), |s|) == s
  {
    if s != [] {
      BitsOfValue(s[1..]);
      assert ValueOf(s) / 2 == ValueOf(s[1..]);
      assert s == [s[0]] + s[1..];
    }
  }

  function Octets(b: byte): Octet { BitsOf(b, 8) }

  lemma OctetsInjective(a: byte, b: byte)
    requires Octets(a) == Octets(b)
    ensures a == b
  {
    assert Pow2(8) == 256;
    ValueOfBits(a, 8);
    ValueOfBits(b, 8);
  }

  /** Where two octets differ. */
  function Difference(a: Octet, b: Octet): (d: Octet)
    ensures forall i :: 0 <= i < 8 ==> d[i] == (a[i] != b[i])
  {
    seq(8, i requires 0 <= i < 8 => a[i] != b[i])
  }

  lemma NoDifference(a: Octet, b: Octet)
    requires Difference(a, b) == Falses(8)
    ensures a == b
  {
    forall i | 0 <= i < 8
      ensures a[i] == b[i]
    {
      assert !Difference(a, b)[i];
    }
  }

  /** byte << 8. */
  function High(b: Octet): Reg { Falses(8) + b }

  /** One round of the inner loop. */
  function Round(c: Reg): Reg {
    var shifted: Reg := [false] + c[..15];
    if c[15] then Xor(shifted, POLY) else shifted
  }

  function Rounds(k: nat, c: Reg): Reg {
    if k == 0 then c else Rounds(k - 1, Round(c))
  }

  /** One byte: mixed into the high half, then one round per bit. */
  function Absorb(c: Reg, b: byte): Reg { Rounds(|Octets(b)|, Xor(c, High(Octets(b)))) }

  function Crc(data: bytes, c: Reg): Reg {
    if data == [] then c else Crc(data[1..], Absorb(c, data[0]))
  }

  /** The inner loop of crc16_ccitt. */
  method AbsorbByte(c: Reg, b: byte) returns (crc: Reg)
    ensures crc == Absorb(c, b)
  {
    crc := Xor(c, High(Octets(b)));
    var k: nat := |Octets(b)|;
    while k > 0
      invariant Rounds(k, crc) == Absorb(c, b)
    {
      crc := Round(crc);
      k := k - 1;
    }
  }

  /** The outer loop. */
  method Crc16Ccitt(data: bytes) returns (crc: Reg)
    ensures crc == Crc(data, INIT)
  {
    crc := INIT;
    for n := 0 to |data|
      invariant Crc(data[n..], crc) == Crc(data, INIT)
    {
      assert data[n..][1..] == data[n + 1..];
      crc := AbsorbByte(crc, data[n]);
    }
  }

  // ------------------------------------------------------------------ algebra of the register

  lemma RoundLinear(a: Reg, b: Reg)
    ensures Round(Xor(a, b)) == Xor(Round(a), Round(b))
  {
    var l, r := Round(Xor(a, b)), Xor(Round(a), Round(b));
    forall i | 0 <= i < 16
      ensures l[i] == r[i]
    {}
  }

  lemma {:induction false} RoundsLinear(k: nat, a: Reg, b: Reg)
    ensures Rounds(k, Xor(a, b)) == Xor(Rounds(k, a), Rounds(k, b))
  {
    if k > 0 {
      RoundLinear(a, b);
      RoundsLinear(k - 1, Round(a), Round(b));
    }
  }

  lemma RoundInjective(a: Reg, b: Reg)
    requires Round(a) == Round(b)
    ensures a == b
  {
    assert Round(a)[0] == a[15] && Round(b)[0] == b[15];
    forall i | 0 <= i < 15
      ensures a[i] == b[i]
    {
      assert Round(a)[i + 1] == (a[i] != (a[15] && POLY[i + 1]));
      assert Round(b)[i + 1] == (b[i] != (b[15] && POLY[i + 1]));
    }
  }

  lemma {:induction false} RoundsInjective(k: nat, a: Reg, b: Reg)
    requires Rounds(k, a) == Rounds(k, b)
    ensures a == b
  {
    if k > 0 {
      RoundsInjective(k - 1, Round(a), Round(b));
      RoundInjective(a, b);
    }
  }

  lemma XorCancel(a: Reg, b: Reg, c: Reg)
    requires Xor(a, c) == Xor(b, c)
    ensures a == b
  {
    forall i | 0 <= i < 16
      ensures a[i] == b[i]
    {
      assert Xor(a, c)[i] == Xor(b, c)[i];
    }
  }

  /** A register difference survives every further equal byte: absorption is a permutation. */
  lemma {:induction false} CrcInjective(data: bytes, a: Reg, b: Reg)
    requires Crc(data, a) == Crc(data, b)
    ensures a == b
  {
    if data != [] {
      CrcInjective(data[1..], Absorb(a, data[0]), Absorb(b, data[0]));
      var h := High(Octets(data[0]));
      RoundsInjective(8, Xor(a, h), Xor(b, h));
      XorCancel(a, b, h);
    }
  }

  lemma {:induction false} CrcAppend(x: bytes, y: bytes, c: Reg)
    ensures Crc(x + y, c) == Crc(y, Crc(x, c))
  {
    if x == [] {
      assert x + y == y;
    } else {
      CrcAppend(x[1..], y, Absorb(c, x[0]));
      assert (x + y)[1..] == x[1..] + y;
    }
  }

  /** Eight rounds of a register whose high byte is clear are a plain shift: no reduction happens. */
  lemma ShiftsOut(e: Octet)
    ensures Rounds(8, e + Falses(8)) == High(e)
  {
    var c := e + Falses(8);
    ShiftRounds(8, c);
    assert High(e) == Falses(8) + c[..8];
  }

  lemma {:induction false} ShiftRounds(k: nat, c: Reg)
    requires k <= 8
    requires forall i :: 16 - k <= i < 16 ==> !c[i]
    ensures Rounds(k, c) == Falses(k) + c[..16 - k]
  {
    if k == 0 {
      assert Falses(0) + c[..16] == c;
    } else {
      var d := Round(c);
      assert d == [false] + c[..15];
      ShiftRounds(k - 1, d);
      assert Falses(k - 1) + d[..17 - k] == Falses(k) + c[..16 - k];
    }
  }

  /** Registers that a high byte brings together differ by exactly the bytes' difference, in the high half. */
  lemma MeetInTheMiddle(x: Reg, y: Reg, a: Octet, b: Octet)
    requires Xor(x, High(a)) == Xor(y, High(b))
    ensures Xor(x, y) == High(Difference(a, b))
  {
    forall i | 0 <= i < 16
      ensures Xor(x, y)[i] == High(Difference(a, b))[i]
    {
      assert Xor(x, High(a))[i] == Xor(y, High(b))[i];
    }
  }

  /** A difference confined to the low half cannot come from two bytes in the high half, unless both are nothing. */
  lemma HalvesApart(c: Reg, a: Octet, b: Octet, e: Octet)
    requires Xor(Xor(c, High(a)), Xor(c, High(b))) == e + Falses(8)
    ensures a == b && e == Falses(8)
  {
    var u, v := Xor(c, High(a)), Xor(c, High(b));
    forall i | 0 <= i < 8
      ensures a[i] == b[i] && !e[i]
    {
      assert Xor(u, v)[i] == (e + Falses(8))[i] && Xor(u, v)[i + 8] == (e + Falses(8))[i + 8];
      assert u[i + 8] == (c[i + 8] != a[i]) && v[i + 8] == (c[i + 8] != b[i]);
    }
  }

  /** The heart of burst detection: two bytes absorbed from one register value, equal results, equal bytes. */
  lemma TwoBytesInjective(c: Reg, a1: byte, a2: byte, b1: byte, b2: byte)
    requires Absorb(Absorb(c, a1), a2) == Absorb(Absorb(c, b1), b2)
    ensures a1 == b1 && a2 == b2
  {
    var u, v := Xor(c, High(Octets(a1))), Xor(c, High(Octets(b1)));
    RoundsInjective(8, Xor(Rounds(8, u), High(Octets(a2))), Xor(Rounds(8, v), High(Octets(b2))));
    MeetInTheMiddle(Rounds(8, u), Rounds(8, v), Octets(a2), Octets(b2));
    var e := Difference(Octets(a2), Octets(b2));
    RoundsLinear(8, u, v);
    ShiftsOut(e);
    RoundsInjective(8, Xor(u, v), e + Falses(8));
    HalvesApart(c, Octets(a1), Octets(b1), e);
    NoDifference(Octets(a2), Octets(b2));
    OctetsInjective(a1, b1);
    OctetsInjective(a2, b2);
  }

  /** The table form of one absorbed byte: what the eight rounds leave of a byte placed in the high half. */
  function TableEntry(d: Octet): Reg {
    [d[0] != d[4], d[1] != d[5], d[2] != d[6], d[3] != d[7],
     d[4], (d[0] != d[4]) != d[5], (d[1] != d[5]) != d[6], (d[2] != d[6]) != d[7],
     d[3] != d[7], d[4], d[5], d[6],
     (d[0] != d[4]) != d[7], d[1] != d[5], d[2] != d[6], d[3] != d[7]]
  }

  function TwoRounds(c: Reg): Reg {
    [c[14], c[15], c[0], c[1], c[2], c[3] != c[14], c[4] != c[15], c[5],
     c[6], c[7], c[8], c[9], c[10] != c[14], c[11] != c[15], c[12], c[13]]
  }

  lemma RoundAt(c: Reg, i: nat)
    requires i < 16
    ensures Round(c)[i] == (if i == 0 then c[15] else if i == 5 || i == 12 then c[i - 1] != c[15] else c[i - 1])
  {
    assert i <= 5 || i == 6 || i == 7 || i == 8 || i == 9 || i == 10 || i == 11 || i == 12 || i == 13 || i == 14 || i == 15;
    assert i <= 5 ==> i == 0 || i == 1 || i == 2 || i == 3 || i == 4 || i == 5;
  }

  lemma TwoRoundsAt(c: Reg, i: nat)
    requires i < 16
    ensures Round(Round(c))[i] == TwoRounds(c)[i]
  {
    RoundAt(Round(c), i);
    RoundAt(c, 15);
    if i > 0 {
      RoundAt(c, i - 1);
    }
  }

  lemma TwoRoundsUnrolled(k: nat, c: Reg)
    ensures Rounds(k + 2, c) == Rounds(k, TwoRounds(c))
  {
    forall i | 0 <= i < 16
      ensures Round(Round(c))[i] == TwoRounds(c)[i]
    {
      TwoRoundsAt(c, i);
    }
    assert Round(Round(c)) == TwoRounds(c);
    assert Rounds(k + 1, Round(c)) == Rounds(k, Round(Round(c)));
  }

  /** The bitwise loop and the table agree on every byte. */
  lemma TableIsEightRounds(d: Octet)
    ensures Rounds(8, High(d)) == TableEntry(d)
  {
    var c0 := High(d);
    var c4 := FourRounds(c0);
    FourRoundsUnrolled(4, c0);
    FourRoundsUnrolled(0, c4);
    FourAndFour(d, c0, c4);
  }

  function FourRounds(c: Reg): Reg { TwoRounds(TwoRounds(c)) }

  lemma FourRoundsUnrolled(k: nat, c: Reg)
    ensures Rounds(k + 4, c) == Rounds(k, FourRounds(c))
  {
    TwoRoundsUnrolled(k + 2, c);
    TwoRoundsUnrolled(k, TwoRounds(c));
  }

  lemma FourAndFour(d: Octet, c0: Reg, c4: Reg)
    requires c0 == High(d) && c4 == FourRounds(c0)
    ensures FourRounds(c4) == TableEntry(d)
  {}

  /** Changing one absorbed byte changes the register by the rounds of the difference, whatever the register was. */
  lemma AbsorbedDifference(c: Reg, a: byte, b: byte)
    ensures Xor(Absorb(c, a), Absorb(c, b)) == Rounds(8, High(Difference(Octets(a), Octets(b))))
  {
    var u, v := Xor(c, High(Octets(a))), Xor(c, High(Octets(b)));
    RoundsLinear(8, u, v);
    assert Xor(u, v) == High(Difference(Octets(a), Octets(b)));
  }

  lemma Doubling(a: nat, b: nat)
    ensures (2 * a) * b == 2 * (a * b)
  {}

  lemma {:induction false} ValueSplit(x: seq<bool>, y: seq<bool>)
    ensures ValueOf(x + y) == ValueOf(x) + Pow2(|x|) * ValueOf(y)
  {
    if x == [] {
      assert x + y == y;
    } else {
      ValueSplit(x[1..], y);
      assert (x + y)[1..] == x[1..] + y;
      assert ValueOf(x + y) == (if x[0] then 1 else 0) + 2 * ValueOf(x[1..] + y);
      Doubling(Pow2(|x| - 1), ValueOf(y));
    }
  }

  /** The little-endian CRC field of a register is its low eight bits, then its high eight bits. */
  lemma FieldOfRegister(c: Reg, lo: byte, hi: byte)
    ensures ValueOf(c) == LEValue([lo, hi]) <==> c == Octets(lo) + Octets(hi)
  {
    assert Pow2(8) == 256;
    ValueOfBits(lo, 8);
    ValueOfBits(hi, 8);
    ValueSplit(Octets(lo), Octets(hi));
    assert [lo, hi][1..] == [hi] && [hi][1..] == [];
    assert LEValue([hi]) == hi;
    BitsOfValue(c);
    BitsOfValue(Octets(lo) + Octets(hi));
  }

  lemma BodyOctet()
    ensures BitsOf(0x89, 8) == [true, false, false, true, false, false, false, true]
  {}

  lemma CrcOctet()
    ensures BitsOf(0xA1, 8) == [true, false, false, false, false, true, false, true]
  {}

  /** A changed last byte whose effect stays inside the low CRC byte: only the difference 0x89, and then it is 0xA1. */
  lemma StraddleDifference(d: Octet, e: Octet)
    ensures Rounds(8, High(d)) == e + Falses(8) <==>
            (d == Falses(8) && e == Falses(8)) || (d == BitsOf(0x89, 8) && e == BitsOf(0xA1, 8))
  {
    TableIsEightRounds(d);
    BodyOctet();
    CrcOctet();
    StraddleTable(d, e, TableEntry(d), e + Falses(8));
  }

  lemma StraddleTable(d: Octet, e: Octet, t: Reg, r: Reg)
    requires t == TableEntry(d) && r == e + Falses(8)
    ensures t == r <==>
            || (d == Falses(8) && e == Falses(8))
            || (d == [true, false, false, true, false, false, false, true]
                && e == [true, false, false, false, false, true, false, true])
  {
    if t == r {
      assert r[8] == r[9] == r[10] == r[11] == r[12] == r[13] == r[14] == r[15] == false;
      assert e[0] == r[0] && e[1] == r[1] && e[2] == r[2] && e[3] == r[3];
      assert e[4] == r[4] && e[5] == r[5] && e[6] == r[6] && e[7] == r[7];
    }
  }
}

/** The XKP v1 frame codec of protocol/xkp/frames.py. */
module Frames {
  import opened Bytes
  import opened Crc16

  const MAGIC := 0x4B58
  const VERSION := 1
  const HEADER_SIZE := 27
  const CRC_SIZE := 2
  const OVERHEAD := 29
  /** max(FrameType): SETTLE_NOTIFY. */
  const MAX_TYPE := 8

  datatype Frame = Frame(ftype: nat, src: bytes, dst: bytes, seqNo: nat, payload: bytes,
                         flags: nat, ttl: nat, version: nat)

  datatype FrameError = ShortFrame | BadMagic | BadVersion | UnknownType | LengthMismatch | CrcMismatch
  datatype Result = Ok(frame: Frame) | Err(error: FrameError)

  /** What the Frame constructor insists on: the type is a FrameType, ids are 8 bytes, the payload fits. */
  predicate Constructed(f: Frame) {
    f.ftype <= MAX_TYPE && |f.src| == 8 && |f.dst| == 8 && |f.payload| <= 0xFFFF
  }

  /** A frame every one of whose fields fits its wire width. */
  predicate WellFormed(f: Frame) {
    Constructed(f) && f.flags < 256 && f.ttl < 256 && f.seqNo < 0x1_0000_0000 && f.version == VERSION
  }

  function Header(f: Frame): (h: bytes)
    requires Constructed(f)
    ensures |h| == HEADER_SIZE
  {
    LE(MAGIC, 2) + [(f.version % 16) * 16 + f.ftype % 16] + [f.flags % 256] + [f.ttl % 256]
    + f.src + f.dst + LE(f.seqNo % 0x1_0000_0000, 4) + LE(|f.payload|, 2)
  }

  function CrcField(body: bytes): (c: bytes)
    ensures |c| == CRC_SIZE
  {
    LE(ValueOf(Crc(body, INIT)), 2)
  }

  function Pack(f: Frame): (d: bytes)
    requires Constructed(f)
    ensures |d| == OVERHEAD + |f.payload|
  {
    var body := Header(f) + f.payload;
    body + CrcField(body)
  }

  /** The eight values _HEADER.unpack_from reads. */
  datatype Head = Head(magic: nat, vt: nat, flags: nat, ttl: nat, src: bytes, dst: bytes, seqNo: nat, plen: nat)

  function ReadHead(data: bytes): Head
    requires |data| >= HEADER_SIZE
  {
    Head(LEValue(data[..2]), data[2], data[3], data[4], data[5..13], data[13..21],
         LEValue(data[21..25]), LEValue(data[25..27]))
  }

  function Unpack(data: bytes): Result {
    if |data| < OVERHEAD then Err(ShortFrame)
    else
      var h := ReadHead(data);
      if h.magic != MAGIC then Err(BadMagic)
      else if h.vt / 16 != VERSION then Err(BadVersion)
      else if h.vt % 16 > MAX_TYPE then Err(UnknownType)
      else if |data| != HEADER_SIZE + h.plen + CRC_SIZE then Err(LengthMismatch)
      else if ValueOf(Crc(data[..|data| - 2], INIT)) != LEValue(data[|data| - 2..]) then Err(CrcMismatch)
      else Ok(Frame(h.vt % 16, h.src, h.dst, h.seqNo, data[27..|data| - 2], h.flags, h.ttl, VERSION))
  }

  lemma Widths()
    ensures Pow256(2) == 0x1_0000 && Pow256(4) == 0x1_0000_0000
    ensures Pow2(16) == 0x1_0000 && Pow2(8) == 256
  {
    assert Pow256(1) == 256;
    assert Pow256(3) == 0x100_0000;
    assert Pow2(4) == 16;
    assert Pow2(12) == 4096;
  }

  /** The slices of a header, with any bytes after it. */
  lemma HeaderSlices(f: Frame, rest: bytes)
    requires Constructed(f)
    ensures var d := Header(f) + rest;
            && d[..2] == LE(MAGIC, 2) && d[2] == (f.version % 16) * 16 + f.ftype % 16
            && d[3] == f.flags % 256 && d[4] == f.ttl % 256 && d[5..13] == f.src && d[13..21] == f.dst
            && d[21..25] == LE(f.seqNo % 0x1_0000_0000, 4) && d[25..27] == LE(|f.payload|, 2)
  {}

  /** Reading a header back. */
  lemma ReadHeader(f: Frame, rest: bytes)
    requires Constructed(f)
    ensures ReadHead(Header(f) + rest)
            == Head(MAGIC, (f.version % 16) * 16 + f.ftype % 16, f.flags % 256, f.ttl % 256, f.src, f.dst,
                    f.seqNo % 0x1_0000_0000, |f.payload|)
  {
    Widths();
    HeaderSlices(f, rest);
    LEValueOfLE(MAGIC, 2);
    LEValueOfLE(|f.payload|, 2);
    LEValueOfLE(f.seqNo % 0x1_0000_0000, 4);
  }

  lemma Tail(h: bytes, payload: bytes, crc: bytes)
    requires |h| == HEADER_SIZE && |crc| == CRC_SIZE
    ensures var d := (h + payload) + crc;
            d == h + (payload + crc) && d[..|d| - 2] == h + payload && d[|d| - 2..] == crc && d[27..|d| - 2] == payload
  {}

  /** The frame as it comes off the wire: numeric fields reduced to their widths. */
  function OnWire(f: Frame): Frame {
    f.(flags := f.flags % 256, ttl := f.ttl % 256, seqNo := f.seqNo % 0x1_0000_0000, version := VERSION)
  }

  /** The parts unpack looks at, in a packed frame. */
  lemma PackedParts(f: Frame)
    requires Constructed(f)
    ensures var d, body := Pack(f), Header(f) + f.payload;
            && d[..|d| - 2] == body && d[|d| - 2..] == CrcField(body) && d[27..|d| - 2] == f.payload
            && ReadHead(d) == Head(MAGIC, (f.version % 16) * 16 + f.ftype % 16, f.flags % 256, f.ttl % 256, f.src, f.dst,
                                   f.seqNo % 0x1_0000_0000, |f.payload|)
  {
    var body := Header(f) + f.payload;
    Tail(Header(f), f.payload, CrcField(body));
    ReadHeader(f, f.payload + CrcField(body));
  }

  lemma Magic()
    ensures LE(MAGIC, 2) == [0x58, 0x4B]
  {}

  /** The header's bytes in a frame that starts with it. */
  lemma HeaderLayout(f: Frame, rest: bytes, d: bytes)
    requires WellFormed(f) && d == Header(f) + rest
    ensures d[..2] == [0x58, 0x4B] && d[2] == 0x10 + f.ftype && d[3] == f.flags && d[4] == f.ttl
    ensures d[5..13] == f.src && d[13..21] == f.dst && LEValue(d[21..25]) == f.seqNo && LEValue(d[25..27]) == |f.payload|
  {
    HeaderSlices(f, rest);
    Widths();
    Magic();
    LEValueOfLE(|f.payload|, 2);
    LEValueOfLE(f.seqNo % 0x1_0000_0000, 4);
  }

  /** The layout of section 2 of the protocol's specification, byte by byte: all numbers little-endian, the CRC over the rest. */
  lemma WireLayout(f: Frame, d: bytes)
    requires WellFormed(f) && d == Pack(f)
    ensures |d| == 29 + |f.payload|
    ensures d[..2] == [0x58, 0x4B] && d[2] == 0x10 + f.ftype && d[3] == f.flags && d[4] == f.ttl
    ensures d[5..13] == f.src && d[13..21] == f.dst && LEValue(d[21..25]) == f.seqNo && LEValue(d[25..27]) == |f.payload|
    ensures d[27..|d| - 2] == f.payload && LEValue(d[|d| - 2..]) == ValueOf(Crc(d[..|d| - 2], INIT))
  {
    var crc := CrcField(Header(f) + f.payload);
    Tail(Header(f), f.payload, crc);
    HeaderLayout(f, f.payload + crc, d);
    CrcFieldReads(Header(f) + f.payload);
  }

  lemma CrcFieldReads(body: bytes)
    ensures LEValue(CrcField(body)) == ValueOf(Crc(body, INIT))
  {
    Widths();
    LEValueOfLE(ValueOf(Crc(body, INIT)), 2);
  }

  /** unpack inverts pack up to the wire widths. */
  lemma UnpackPackOnWire(f: Frame)
    requires Constructed(f) && f.version % 16 == VERSION
    ensures Unpack(Pack(f)) == Ok(OnWire(f))
  {
    PackedParts(f);
    CrcFieldReads(Header(f) + f.payload);
  }

  /** unpack inverts pack on every well-formed frame. */
  lemma UnpackPack(f: Frame)
    requires WellFormed(f)
    ensures Unpack(Pack(f)) == Ok(f)
  {
    UnpackPackOnWire(f);
  }

  /** Any other version nibble is refused, whatever else the frame holds. */
  lemma OtherVersionRefused(f: Frame)
    requires Constructed(f) && f.version % 16 != VERSION
    ensures Unpack(Pack(f)) == Err(BadVersion)
  {
    PackedParts(f);
  }

  lemma Slices(data: bytes, n: nat)
    requires HEADER_SIZE <= n <= |data|
    ensures data == data[..2] + [data[2]] + [data[3]] + [data[4]] + data[5..13] + data[13..21]
                    + data[21..25] + data[25..27] + data[27..n] + data[n..]
    ensures data[..n] == data[..2] + [data[2]] + [data[3]] + [data[4]] + data[5..13] + data[13..21]
                         + data[21..25] + data[25..27] + data[27..n]
  {}

  /** Writing back the header that was read. */
  lemma WriteHeader(data: bytes, f: Frame)
    requires |data| >= HEADER_SIZE && WellFormed(f)
    requires ReadHead(data) == Head(MAGIC, VERSION * 16 + f.ftype, f.flags, f.ttl, f.src, f.dst, f.seqNo, |f.payload|)
    ensures Header(f) == data[..2] + [data[2]] + [data[3]] + [data[4]] + data[5..13] + data[13..21]
                         + data[21..25] + data[25..27]
  {
    LEOfLEValue(data[..2]);
    LEOfLEValue(data[21..25]);
    LEOfLEValue(data[25..27]);
  }

  /** pack inverts unpack on every accepted byte string, and what was accepted is well formed. */
  lemma PackUnpack(data: bytes)
    requires Unpack(data).Ok?
    ensures WellFormed(Unpack(data).frame) && Pack(Unpack(data).frame) == data
  {
    Widths();
    var f, n := Unpack(data).frame, |data| - CRC_SIZE;
    LEOfLEValue(data[21..25]);
    LEOfLEValue(data[25..27]);
    assert WellFormed(f);
    WriteHeader(data, f);
    Slices(data, n);
    LEOfLEValue(data[n..]);
  }

  // ------------------------------------------------------------------ corruption

  /** Whatever unpack accepts carries the CRC of what comes before it. */
  lemma AcceptanceIsCrc(data: bytes)
    ensures Unpack(data).Ok? ==> ValueOf(Crc(data[..|data| - 2], INIT)) == LEValue(data[|data| - 2..])
  {}

  lemma ValueInjective(a: Reg, b: Reg)
    requires ValueOf(a) == ValueOf(b)
    ensures a == b
  {
    BitsOfValue(a);
    BitsOfValue(b);
  }

  lemma AcceptedBurstIsIdentity(data: bytes, bad: bytes, i: nat)
    requires Unpack(data).Ok? && Unpack(bad).Ok? && |bad| == |data|
    requires i + 2 <= |data| - CRC_SIZE
    requires forall j :: 0 <= j < |data| && j != i && j != i + 1 ==> bad[j] == data[j]
    ensures bad == data
  {
    AcceptanceIsCrc(bad);
    AcceptanceIsCrc(data);
    BurstIsIdentity(data, bad, |data| - 2, i);
  }

  /** Two byte strings that carry their own CRCs and differ in two consecutive bytes at most are the same. */
  lemma BurstIsIdentity(data: bytes, bad: bytes, n: nat, i: nat)
    requires |bad| == |data| && i + 2 <= n <= |data|
    requires ValueOf(Crc(data[..n], INIT)) == LEValue(data[n..]) && ValueOf(Crc(bad[..n], INIT)) == LEValue(bad[n..])
    requires forall j :: 0 <= j < |data| && j != i && j != i + 1 ==> bad[j] == data[j]
    ensures bad == data
  {
    var x, y := data[..n], bad[..n];
    assert data[n..] == bad[n..];
    ValueInjective(Crc(x, INIT), Crc(y, INIT));
    var pre, post := x[..i], x[i + 2..];
    assert y[..i] == pre && y[i + 2..] == post;
    AroundPair(x, i);
    AroundPair(y, i);
    SameCrcSameBurst(pre, post, x[i], x[i + 1], y[i], y[i + 1]);
  }

  lemma AroundPair(s: bytes, i: nat)
    requires i + 2 <= |s|
    ensures s == s[..i] + ([s[i], s[i + 1]] + s[i + 2..])
  {}

  lemma SameCrcSameBurst(pre: bytes, post: bytes, a1: byte, a2: byte, b1: byte, b2: byte)
    requires Crc(pre + ([a1, a2] + post), INIT) == Crc(pre + ([b1, b2] + post), INIT)
    ensures a1 == b1 && a2 == b2
  {
    CrcAppend(pre, [a1, a2] + post, INIT);
    CrcAppend(pre, [b1, b2] + post, INIT);
    SameCrcSamePair(Crc(pre, INIT), post, a1, a2, b1, b2);
  }

  /** Two byte pairs before the same rest, from one register, give one CRC only if they are the same pair. */
  lemma SameCrcSamePair(c: Reg, rest: bytes, a1: byte, a2: byte, b1: byte, b2: byte)
    requires Crc([a1, a2] + rest, c) == Crc([b1, b2] + rest, c)
    ensures a1 == b1 && a2 == b2
  {
    CrcTwo(c, a1, a2, rest);
    CrcTwo(c, b1, b2, rest);
    CrcInjective(rest, Absorb(Absorb(c, a1), a2), Absorb(Absorb(c, b1), b2));
    TwoBytesInjective(c, a1, a2, b1, b2);
  }

  /** Corruption confined to two consecutive body bytes of an accepted frame is always refused. */
  lemma BodyBurstRejected(data: bytes, bad: bytes, i: nat)
    requires Unpack(data).Ok? && |bad| == |data| && bad != data
    requires i + 2 <= |data| - CRC_SIZE
    requires forall j :: 0 <= j < |data| && j != i && j != i + 1 ==> bad[j] == data[j]
    ensures Unpack(bad).Err?
  {
    if Unpack(bad).Ok? {
      AcceptedBurstIsIdentity(data, bad, i);
    }
  }

  lemma CrcTwo(c: Reg, a: byte, b: byte, rest: bytes)
    ensures Crc([a, b] + rest, c) == Crc(rest, Absorb(Absorb(c, a), b))
  {
    assert ([a, b] + rest)[1..] == [b] + rest;
    assert ([b] + rest)[1..] == rest;
  }

  /** Corruption confined to the CRC field is refused, and for that reason. */
  lemma CrcFieldCorruptionRejected(data: bytes, bad: bytes)
    requires Unpack(data).Ok? && |bad| == |data| && bad != data
    requires bad[..|data| - CRC_SIZE] == data[..|data| - CRC_SIZE]
    ensures Unpack(bad) == Err(CrcMismatch)
  {
    var n := |data| - CRC_SIZE;
    assert data == data[..n] + data[n..] && bad == bad[..n] + bad[n..];
    LEOfLEValue(data[n..]);
    LEOfLEValue(bad[n..]);
    assert forall i :: 0 <= i < n ==> bad[i] == bad[..n][i] == data[..n][i] == data[i];
    assert bad[..2] == data[..2] && bad[25..27] == data[25..27];
  }

  /**
   A burst over the last body byte and the first CRC byte. The CRC is stored low byte first, so such a burst is
   not a run of consecutive code bits; it gets through exactly when there is a payload and the two byte
   differences are 0x89 and 0xA1.
   */
  lemma StraddlingBurst(data: bytes, bad: bytes)
    requires Unpack(data).Ok? && |bad| == |data| && bad != data
    requires forall j :: 0 <= j < |data| && j != |data| - 3 && j != |data| - 2 ==> bad[j] == data[j]
    ensures Unpack(bad).Ok? <==>
            && Unpack(data).frame.payload != []
            && Difference(Octets(data[|data| - 3]), Octets(bad[|data| - 3])) == BitsOf(0x89, 8)
            && Difference(Octets(data[|data| - 2]), Octets(bad[|data| - 2])) == BitsOf(0xA1, 8)
  {
    var n := |data| - CRC_SIZE;
    if Unpack(data).frame.payload == [] {
      assert n == HEADER_SIZE;
      if bad[26] == data[26] {
        assert bad[..n] == data[..n];
        CrcFieldCorruptionRejected(data, bad);
      } else {
        LengthByteChanged(data, bad);
      }
    } else {
      StraddlingCrc(data, bad);
    }
  }

  lemma LengthByteChanged(data: bytes, bad: bytes)
    requires Unpack(data).Ok? && |bad| == |data| && |data| == OVERHEAD
    requires bad[25] == data[25] && bad[26] != data[26]
    ensures Unpack(bad).Err?
  {
    assert data[25..27] == [data[25], data[26]] && bad[25..27] == [bad[25], bad[26]];
    LEOfLEValue(data[25..27]);
    LEOfLEValue(bad[25..27]);
  }

  lemma StraddlingCrc(data: bytes, bad: bytes)
    requires Unpack(data).Ok? && |bad| == |data| && bad != data && |data| > OVERHEAD
    requires forall j :: 0 <= j < |data| && j != |data| - 3 && j != |data| - 2 ==> bad[j] == data[j]
    ensures Unpack(bad).Ok? <==>
            && Difference(Octets(data[|data| - 3]), Octets(bad[|data| - 3])) == BitsOf(0x89, 8)
            && Difference(Octets(data[|data| - 2]), Octets(bad[|data| - 2])) == BitsOf(0xA1, 8)
  {
    var n := |data| - CRC_SIZE;
    SameHead(data, bad);
    var pre, a, b := data[..n - 1], data[n - 1], bad[n - 1];
    assert data[..n] == pre + [a] && bad[..n] == pre + [b];
    CrcAppend(pre, [a], INIT);
    CrcAppend(pre, [b], INIT);
    var c := Crc(pre, INIT);
    assert [a][1..] == [] && [b][1..] == [];
    var u, v := Absorb(c, a), Absorb(c, b);
    assert data[n..] == [data[n], data[n + 1]] && bad[n..] == [bad[n], data[n + 1]];
    FieldOfRegister(u, data[n], data[n + 1]);
    FieldOfRegister(v, bad[n], data[n + 1]);
    AbsorbedDifference(c, a, b);
    var d, e := Difference(Octets(a), Octets(b)), Difference(Octets(data[n]), Octets(bad[n]));
    StraddleDifference(d, e);
    RegisterDifference(u, v, data[n], bad[n], data[n + 1]);
    if d == Falses(8) && e == Falses(8) {
      NothingChanged(data, bad);
    }
  }

  lemma NothingChanged(data: bytes, bad: bytes)
    requires |bad| == |data| > OVERHEAD
    requires forall j :: 0 <= j < |data| && j != |data| - 3 && j != |data| - 2 ==> bad[j] == data[j]
    requires Difference(Octets(data[|data| - 3]), Octets(bad[|data| - 3])) == Falses(8)
    requires Difference(Octets(data[|data| - 2]), Octets(bad[|data| - 2])) == Falses(8)
    ensures bad == data
  {
    NoDifference(Octets(data[|data| - 3]), Octets(bad[|data| - 3]));
    NoDifference(Octets(data[|data| - 2]), Octets(bad[|data| - 2]));
    OctetsInjective(data[|data| - 3], bad[|data| - 3]);
    OctetsInjective(data[|data| - 2], bad[|data| - 2]);
  }

  lemma SameHead(data: bytes, bad: bytes)
    requires |bad| == |data| >= HEADER_SIZE
    requires forall j :: 0 <= j < HEADER_SIZE ==> bad[j] == data[j]
    ensures ReadHead(bad) == ReadHead(data)
  {
    assert bad[..2] == data[..2] && bad[5..13] == data[5..13] && bad[13..21] == data[13..21];
    assert bad[21..25] == data[21..25] && bad[25..27] == data[25..27];
  }

  lemma RegisterDifference(u: Reg, v: Reg, lo: byte, bad: byte, hi: byte)
    requires u == Octets(lo) + Octets(hi)
    ensures v == Octets(bad) + Octets(hi) <==> Xor(u, v) == Difference(Octets(lo), Octets(bad)) + Falses(8)
  {
    var t, r := Octets(bad) + Octets(hi), Difference(Octets(lo), Octets(bad)) + Falses(8);
    if Xor(u, v) == r {
      forall i | 0 <= i < 16
        ensures v[i] == t[i]
      {
        assert Xor(u, v)[i] == r[i];
      }
    }
  }
}

/** The table-driven CRC and the check value of CRC16-CCITT (poly 0x1021, init 0xFFFF). */
module CrcTable {
  import opened Bytes
  import opened Crc16

  /** One byte by the table: the entry of the high byte mixed with the data, on the low byte moved up. */
  function TableStep(lo: Octet, hi: Octet, b: Octet): Reg { Xor(High(lo), TableEntry(Difference(hi, b))) }

  lemma HalvesApply(lo: Octet, hi: Octet, b: Octet)
    ensures Xor(lo + hi, High(b)) == Xor(lo + Falses(8), High(Difference(hi, b)))
  {
    var l, r := Xor(lo + hi, High(b)), Xor(lo + Falses(8), High(Difference(hi, b)));
    forall i | 0 <= i < 16
      ensures l[i] == r[i]
    {}
  }

  /** The bitwise loop over a byte does what the table does, whatever the register. */
  lemma AbsorbIsTableStep(lo: Octet, hi: Octet, b: byte)
    ensures Absorb(lo + hi, b) == TableStep(lo, hi, Octets(b))
  {
    HalvesApply(lo, hi, Octets(b));
    RoundsLinear(8, lo + Falses(8), High(Difference(hi, Octets(b))));
    ShiftsOut(lo);
    TableIsEightRounds(Difference(hi, Octets(b)));
  }

  /** The two halves of a table entry. */
  predicate Entry(d: Octet, low: Octet, high: Octet) {
    && low == [d[0] != d[4], d[1] != d[5], d[2] != d[6], d[3] != d[7],
               d[4], (d[0] != d[4]) != d[5], (d[1] != d[5]) != d[6], (d[2] != d[6]) != d[7]]
    && high == [d[3] != d[7], d[4], d[5], d[6], (d[0] != d[4]) != d[7], d[1] != d[5], d[2] != d[6], d[3] != d[7]]
  }

  lemma EntryHalves(d: Octet, low: Octet, high: Octet)
    requires Entry(d, low, high)
    ensures TableEntry(d) == low + high
  {}

  predicate Differ(a: Octet, b: Octet, d: Octet) {
    && d[0] == (a[0] != b[0]) && d[1] == (a[1] != b[1]) && d[2] == (a[2] != b[2]) && d[3] == (a[3] != b[3])
    && d[4] == (a[4] != b[4]) && d[5] == (a[5] != b[5]) && d[6] == (a[6] != b[6]) && d[7] == (a[7] != b[7])
  }

  lemma DiffersBy(a: Octet, b: Octet, d: Octet)
    requires Differ(a, b, d)
    ensures Difference(a, b) == d
  {}

  lemma HalvesMix(lo: Octet, low: Octet, half: Octet, high: Octet)
    requires Differ(lo, half, high)
    ensures Xor(High(lo), low + half) == low + high
  {
    DiffersBy(lo, half, high);
    var r := Xor(High(lo), low + half);
    forall i | 0 <= i < 16
      ensures r[i] == (low + high)[i]
    {}
  }

  /** The register after byte b, from the difference d it makes with the high byte and the high half of d's entry. */
  lemma BytesAfter(lo: Octet, hi: Octet, b: byte, d: Octet, half: Octet, low: Octet, high: Octet)
    requires Differ(hi, Octets(b), d) && Entry(d, low, half) && Differ(lo, half, high)
    ensures Absorb(lo + hi, b) == low + high
  {
    AbsorbIsTableStep(lo, hi, b);
    DiffersBy(hi, Octets(b), d);
    EntryHalves(d, low, half);
    HalvesMix(lo, low, half, high);
  }

  // ------------------------------------------------------------------ the check value

  /** The registers while "123456789" is absorbed, and its bytes, least significant bit first. */
  const LOW0: Octet := [true, true, true, true, true, true, true, true]
  const HIGH0: Octet := [true, true, true, true, true, true, true, true]
  const LOW1: Octet := [false, true, false, false, false, false, false, true]
  const HIGH1: Octet := [true, true, true, false, false, false, true, true]
  const LOW2: Octet := [false, true, false, true, true, true, false, true]
  const HIGH2: Octet := [true, false, true, true, true, true, false, false]
  const LOW3: Octet := [false, true, true, true, false, false, true, true]
  const HIGH3: Octet := [true, true, false, true, true, false, true, false]
  const LOW4: Octet := [true, false, false, true, false, false, true, false]
  const HIGH4: Octet := [true, true, false, false, true, false, true, false]
  const LOW5: Octet := [false, false, false, false, false, true, true, false]
  const HIGH5: Octet := [true, false, true, false, false, false, true, false]
  const LOW6: Octet := [false, false, true, false, true, true, true, true]
  const HIGH6: Octet := [false, true, true, true, false, true, false, false]
  const LOW7: Octet := [false, false, false, true, true, false, false, false]
  const HIGH7: Octet := [true, true, true, false, true, true, true, false]
  const LOW8: Octet := [true, true, false, true, false, true, false, false]
  const HIGH8: Octet := [true, false, false, false, false, true, false, true]
  const LOW9: Octet := [true, false, false, false, true, true, false, true]
  const HIGH9: Octet := [true, false, false, true, false, true, false, false]

  lemma Check0()
    ensures Absorb(LOW0 + HIGH0, 0x31) == LOW1 + HIGH1
  {
    assert BitsOf(0x31, 8) == [true, false, false, false, true, true, false, false];
    BytesAfter(LOW0, HIGH0, 0x31, [false, true, true, true, false, false, true, true],
               [false, false, false, true, true, true, false, false], LOW1, HIGH1);
  }

  lemma Check1()
    ensures Absorb(LOW1 + HIGH1, 0x32) == LOW2 + HIGH2
  {
    assert BitsOf(0x32, 8) == [false, true, false, false, true, true, false, false];
    BytesAfter(LOW1, HIGH1, 0x32, [true, false, true, false, true, true, true, true],
               [true, true, true, true, true, true, false, true], LOW2, HIGH2);
  }

  lemma Check2()
    ensures Absorb(LOW2 + HIGH2, 0x33) == LOW3 + HIGH3
  {
    assert BitsOf(0x33, 8) == [true, true, false, false, true, true, false, false];
    BytesAfter(LOW2, HIGH2, 0x33, [false, true, true, true, false, false, false, false],
               [true, false, false, false, false, true, true, true], LOW3, HIGH3);
  }

  lemma Check3()
    ensures Absorb(LOW3 + HIGH3, 0x34) == LOW4 + HIGH4
  {
    assert BitsOf(0x34, 8) == [false, false, true, false, true, true, false, false];
    BytesAfter(LOW3, HIGH3, 0x34, [true, true, true, true, false, true, true, false],
               [true, false, true, true, true, false, false, true], LOW4, HIGH4);
  }

  lemma Check4()
    ensures Absorb(LOW4 + HIGH4, 0x35) == LOW5 + HIGH5
  {
    assert BitsOf(0x35, 8) == [true, false, true, false, true, true, false, false];
    BytesAfter(LOW4, HIGH4, 0x35, [false, true, true, false, false, true, true, false],
               [false, false, true, true, false, false, false, false], LOW5, HIGH5);
  }

  lemma Check5()
    ensures Absorb(LOW5 + HIGH5, 0x36) == LOW6 + HIGH6
  {
    assert BitsOf(0x36, 8) == [false, true, true, false, true, true, false, false];
    BytesAfter(LOW5, HIGH5, 0x36, [true, true, false, false, true, true, true, false],
               [false, true, true, true, false, false, true, false], LOW6, HIGH6);
  }

  lemma Check6()
    ensures Absorb(LOW6 + HIGH6, 0x37) == LOW7 + HIGH7
  {
    assert BitsOf(0x37, 8) == [true, true, true, false, true, true, false, false];
    BytesAfter(LOW6, HIGH6, 0x37, [true, false, false, true, true, false, false, false],
               [true, true, false, false, false, false, false, true], LOW7, HIGH7);
  }

  lemma Check7()
    ensures Absorb(LOW7 + HIGH7, 0x38) == LOW8 + HIGH8
  {
    assert BitsOf(0x38, 8) == [false, false, false, true, true, true, false, false];
    BytesAfter(LOW7, HIGH7, 0x38, [true, true, true, true, false, false, true, false],
               [true, false, false, true, true, true, false, true], LOW8, HIGH8);
  }

  lemma Check8()
    ensures Absorb(LOW8 + HIGH8, 0x39) == LOW9 + HIGH9
  {
    assert BitsOf(0x39, 8) == [true, false, false, true, true, true, false, false];
    BytesAfter(LOW8, HIGH8, 0x39, [false, false, false, true, true, false, false, true],
               [false, true, false, false, false, false, false, false], LOW9, HIGH9);
  }

  lemma First(data: bytes, c: Reg, d: Reg)
    requires data != [] && Absorb(c, data[0]) == d
    ensures Crc(data, c) == Crc(data[1..], d)
  {}

  lemma LowByte()
    ensures Octets(0xB1) == LOW9
  {}

  lemma HighByte()
    ensures Octets(0x29) == HIGH9
  {}

  lemma CheckWord(c: Reg, lo: byte, hi: byte)
    requires c == Octets(lo) + Octets(hi)
    ensures ValueOf(c) == lo + 256 * hi
  {
    FieldOfRegister(c, lo, hi);
    assert [lo, hi][1..] == [hi] && [hi][1..] == [];
    assert LEValue([hi]) == hi;
  }

  lemma StartsFull()
    ensures INIT == LOW0 + HIGH0
  {}

  /** The CRC of the nine bytes of "123456789" is 0x29B1. */
  lemma CheckValue(data: bytes)
    requires data == [0x31, 0x32, 0x33, 0x34, 0x35, 0x36, 0x37, 0x38, 0x39]
    ensures ValueOf(Crc(data, INIT)) == 0x29B1
  {
    StartsFull();
    CheckedFrom(data);
    assert Crc(data, INIT) == LOW9 + HIGH9;
    LowByte();
    HighByte();
    CheckWord(Crc(data, INIT), 0xB1, 0x29);
  }

  lemma CheckedFrom(data: bytes)
    requires data == [0x31, 0x32, 0x33, 0x34, 0x35, 0x36, 0x37, 0x38, 0x39]
    ensures Crc(data, LOW0 + HIGH0) == LOW9 + HIGH9
  {
    Check0();
    First(data[0..], LOW0 + HIGH0, LOW1 + HIGH1);
    Check1();
    First(data[1..], LOW1 + HIGH1, LOW2 + HIGH2);
    Check2();
    First(data[2..], LOW2 + HIGH2, LOW3 + HIGH3);
    Check3();
    First(data[3..], LOW3 + HIGH3, LOW4 + HIGH4);
    Check4();
    First(data[4..], LOW4 + HIGH4, LOW5 + HIGH5);
    Check5();
    First(data[5..], LOW5 + HIGH5, LOW6 + HIGH6);
    Check6();
    First(data[6..], LOW6 + HIGH6, LOW7 + HIGH7);
    Check7();
    First(data[7..], LOW7 + HIGH7, LOW8 + HIGH8);
    Check8();
    First(data[8..], LOW8 + HIGH8, LOW9 + HIGH9);
  }
}

/** Signed receipts of protocol/xkp/proofs.py: the 44-byte canonical form, the 108-byte wire form, and what is accepted. */
module Receipts {
  import opened Bytes

  datatype Receipt = Receipt(clientId: bytes, nodeId: bytes, session: bytes, cumulative: nat, seqNo: nat)

  datatype Error = BadSize | BadSignature | WrongClient | OutOfRange

  datatype Result<T> = Ok(value: T) | Err(error: Error)

  /** Ed25519 and the node id derivation: a key pair signs, the public half verifies. */
  datatype Signer = Signer(key: bytes, sign: bytes -> bytes, verify: (bytes, bytes) -> bool, idOf: bytes -> bytes)

  const CANONICAL := 44
  const WIRE := 108

  /** An ideal signature: 64 bytes, accepted exactly when the key holder made it for this message. */
  ghost predicate Ideal(k: Signer) {
    && (forall m: bytes :: |k.sign(m)| == 64)
    && (forall m: bytes, s: bytes :: k.verify(m, s) <==> s == k.sign(m))
    && |k.idOf(k.key)| == 8
  }

  /** struct's `ns`: cut or zero-filled to n bytes. */
  function Field(s: bytes, n: nat): (f: bytes)
    ensures |f| == n && (|s| == n ==> f == s)
  {
    if |s| >= n then s[..n] else s + Zeros(n - |s|)
  }

  predicate InRange(r: Receipt) { r.cumulative < Pow256(8) && r.seqNo < Pow256(4) }

  /** "<8s8s16sQI"; struct raises on integers that do not fit. */
  function Canonical(r: Receipt): (c: Result<bytes>)
    ensures c.Ok? <==> InRange(r)
    ensures c.Ok? ==> |c.value| == CANONICAL
  {
    if !InRange(r) then Err(OutOfRange)
    else Ok(Field(r.clientId, 8) + Field(r.nodeId, 8) + Field(r.session, 16) + LE(r.cumulative, 8) + LE(r.seqNo, 4))
  }

  function Parsed(c: bytes): Receipt
    requires |c| == CANONICAL
  {
    Receipt(c[..8], c[8..16], c[16..32], LEValue(c[32..40]), LEValue(c[40..44]))
  }

  /** The bytes of a canonical form, position by position; ids that are too short are filled with zeros, too long ones cut. */
  lemma CanonicalLayout(r: Receipt, i: nat)
    requires InRange(r)
    ensures var c := Canonical(r).value;
            && (i < 8 ==> c[i] == ByteOf(r.clientId, i) && c[8 + i] == ByteOf(r.nodeId, i))
            && (i < 16 ==> c[16 + i] == ByteOf(r.session, i))
            && LEValue(c[32..40]) == r.cumulative && LEValue(c[40..]) == r.seqNo
  {
    var c := Canonical(r).value;
    LEValueOfLE(r.cumulative, 8);
    LEValueOfLE(r.seqNo, 4);
    assert c[..8] == Field(r.clientId, 8) && c[8..16] == Field(r.nodeId, 8) && c[16..32] == Field(r.session, 16);
    assert c[32..40] == LE(r.cumulative, 8) && c[40..] == LE(r.seqNo, 4);
    if i < 8 {
      assert c[i] == c[..8][i] && c[8 + i] == c[8..16][i];
    }
    if i < 16 {
      assert c[16 + i] == c[16..32][i];
    }
  }

  function ByteOf(s: bytes, i: nat): byte { if i < |s| then s[i] else 0 }

  /** A wire form is the canonical form and then the key holder's signature of exactly that. */
  lemma WireLayout(r: Receipt, k: Signer)
    requires Ideal(k) && InRange(r)
    ensures ToWire(r, k).Ok? && |ToWire(r, k).value| == WIRE
    ensures ToWire(r, k).value[..CANONICAL] == Canonical(r).value && ToWire(r, k).value[CANONICAL..] == k.sign(Canonical(r).value)
  {}

  function ToWire(r: Receipt, k: Signer): Result<bytes> {
    var c := Canonical(r);
    if c.Err? then c else Ok(c.value + k.sign(c.value))
  }

  function FromWire(data: bytes, k: Signer): Result<Receipt> {
    if |data| != WIRE then Err(BadSize)
    else
      var r := Parsed(data[..CANONICAL]);
      if !k.verify(data[..CANONICAL], data[CANONICAL..]) then Err(BadSignature)
      else if r.clientId != k.idOf(k.key) then Err(WrongClient)
      else Ok(r)
  }

  /** The field widths of a receipt made at admission. */
  ghost predicate WellFormed(r: Receipt) { |r.clientId| == 8 && |r.nodeId| == 8 && |r.session| == 16 && InRange(r) }

  /** Every receipt of 44 canonical bytes comes back from them. */
  lemma ParseUndoesCanonical(r: Receipt)
    requires WellFormed(r)
    ensures Parsed(Canonical(r).value) == r
  {
    var c := Canonical(r).value;
    LEValueOfLE(r.cumulative, 8);
    LEValueOfLE(r.seqNo, 4);
    assert c[..8] == r.clientId && c[8..16] == r.nodeId && c[16..32] == r.session;
    assert c[32..40] == LE(r.cumulative, 8) && c[40..44] == LE(r.seqNo, 4);
  }

  /** And every 44 bytes are the canonical form of the receipt they parse to: no two byte strings mean one receipt. */
  lemma CanonicalUndoesParse(c: bytes)
    requires |c| == CANONICAL
    ensures WellFormed(Parsed(c)) && Canonical(Parsed(c)) == Ok(c)
  {
    LEOfLEValue(c[32..40]);
    LEOfLEValue(c[40..44]);
    assert c == c[..8] + c[8..16] + c[16..32] + c[32..40] + c[40..44];
  }

  /** The canonical layout is injective on well-formed receipts. */
  lemma CanonicalInjective(q: Receipt, r: Receipt)
    requires WellFormed(q) && WellFormed(r) && Canonical(q) == Canonical(r)
    ensures q == r
  {
    ParseUndoesCanonical(q);
    ParseUndoesCanonical(r);
  }

  /**
   A node accepts exactly the receipts its client signed: a byte string is accepted as r if and only if it is the wire
   form of r under the client's key and r names that client. Any tampering, truncation or other signer is rejected.
   */
  lemma AcceptsExactlyTheSigned(data: bytes, k: Signer, r: Receipt)
    requires Ideal(k)
    ensures FromWire(data, k) == Ok(r) <==> WellFormed(r) && r.clientId == k.idOf(k.key) && ToWire(r, k) == Ok(data)
  {
    if FromWire(data, k) == Ok(r) {
      CanonicalUndoesParse(data[..CANONICAL]);
      assert data == data[..CANONICAL] + data[CANONICAL..];
    }
    if WellFormed(r) && r.clientId == k.idOf(k.key) && ToWire(r, k) == Ok(data) {
      ParseUndoesCanonical(r);
      assert data[..CANONICAL] == Canonical(r).value && data[CANONICAL..] == k.sign(Canonical(r).value);
    }
  }

  /** Changing any of the 44 signed bytes under an accepted signature is noticed, unless the key signs both alike. */
  lemma TamperRejected(data: bytes, c: bytes, k: Signer)
    requires Ideal(k) && FromWire(data, k).Ok? && |c| == CANONICAL && c != data[..CANONICAL]
    ensures FromWire(c + data[CANONICAL..], k).Err? || k.sign(c) == k.sign(data[..CANONICAL])
  {
    var bad := c + data[CANONICAL..];
    assert bad[..CANONICAL] == c && bad[CANONICAL..] == data[CANONICAL..];
  }

  /** A receipt fits the 128-byte narrowband frame. */
  lemma WireFitsNarrowband(r: Receipt, k: Signer)
    requires Ideal(k) && InRange(r)
    ensures ToWire(r, k).Ok? && |ToWire(r, k).value| == WIRE <= 128
  {}
}

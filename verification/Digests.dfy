/**
 The EIP-712 digests and the channel id of web/src/demo/crypto.js (EIP-712, "Definition of encodeData" and
 "Definition of hashStruct"; the permit is EIP-2612). keccak256 is a parameter, as in HashChain: equal digests mean
 equal messages, or two named byte strings collide.
 */
module Digests {
  import opened Bytes
  import opened HashChain

  datatype Kind = TicketKind | PermitKind | WithdrawKind | TransferKind

  const TICKET_TYPE := "Ticket(address client,address nodeAdmin,uint64 sequenceNumber,uint128 cumulativeUnits,uint256 epochExpiry)"
  const PERMIT_TYPE := "Permit(address owner,address spender,uint256 value,uint256 nonce,uint256 deadline)"
  const WITHDRAW_TYPE := "Withdraw(address client,address to,uint256 amount,uint256 nonce,uint256 deadline)"
  const TRANSFER_TYPE := "TransferDeposit(address from,address to,uint256 amount,uint256 nonce,uint256 deadline)"

  function TypeText(k: Kind): string {
    match k
    case TicketKind => TICKET_TYPE
    case PermitKind => PERMIT_TYPE
    case WithdrawKind => WITHDRAW_TYPE
    case TransferKind => TRANSFER_TYPE
  }

  /** UTF-8 of a text all of whose characters are ASCII. */
  function Ascii(s: string): (b: bytes)
    ensures |b| == |s|
  {
    seq(|s|, i requires 0 <= i < |s| => (s[i] as int) % 256)
  }

  /** Two addresses and three integers: the shape all four signed messages share. */
  datatype Message = Message(kind: Kind, a: bytes, b: bytes, x: nat, y: nat, z: nat)

  ghost predicate InRange(m: Message) {
    |m.a| == 20 && |m.b| == 20 && m.x < Pow256(32) && m.y < Pow256(32) && m.z < Pow256(32)
  }

  function AddressWord(a: bytes): bytes { Zeros(12) + a }

  function Encoded(keccak: Keccak, m: Message): bytes {
    keccak(Ascii(TypeText(m.kind))) + AddressWord(m.a) + AddressWord(m.b) + UintWord(m.x) + UintWord(m.y) + UintWord(m.z)
  }

  function FinalPreimage(keccak: Keccak, separator: bytes, m: Message): bytes {
    [0x19, 0x01] + separator + keccak(Encoded(keccak, m))
  }

  function DigestOf(keccak: Keccak, separator: bytes, m: Message): bytes {
    keccak(FinalPreimage(keccak, separator, m))
  }

  /** Where things stand in what is hashed: type hash, two addresses behind twelve zeros each, three numbers, 32 bytes each. */
  lemma MessageLayout(keccak: Keccak, m: Message)
    requires Hashes32(keccak) && InRange(m)
    ensures var p := Encoded(keccak, m);
            && |p| == 192 && p[..32] == keccak(Ascii(TypeText(m.kind)))
            && p[32..44] == Zeros(12) && p[44..64] == m.a && p[64..76] == Zeros(12) && p[76..96] == m.b
            && BEValue(p[96..128]) == m.x && BEValue(p[128..160]) == m.y && BEValue(p[160..]) == m.z
  {
    var p := Encoded(keccak, m);
    WordLayout(p, 96, m.x);
    WordLayout(p, 128, m.y);
    WordLayout(p, 160, m.z);
  }

  lemma WordLayout(p: bytes, at: nat, n: nat)
    requires at + 32 <= |p| && n < Pow256(32) && p[at..at + 32] == UintWord(n)
    ensures BEValue(p[at..at + 32]) == n
  {
    BEValueOfBE(n, 32);
  }

  /** And in the preimage that is signed: 0x19 0x01, the domain separator, the message's hash. */
  lemma FinalLayout(keccak: Keccak, separator: bytes, m: Message)
    requires Hashes32(keccak) && |separator| == 32
    ensures var p := FinalPreimage(keccak, separator, m);
            |p| == 66 && p[0] == 0x19 && p[1] == 0x01 && p[2..34] == separator && p[34..] == keccak(Encoded(keccak, m))
  {}

  /** The four type strings have four different lengths. */
  lemma TypeTextsDiffer(j: Kind, k: Kind)
    requires Ascii(TypeText(j)) == Ascii(TypeText(k))
    ensures j == k
  {
    assert |TICKET_TYPE| == 106 && |PERMIT_TYPE| == 82 && |WITHDRAW_TYPE| == 81 && |TRANSFER_TYPE| == 86;
  }

  lemma WordsOfMessage(h: bytes, g: bytes, m: Message, n: Message)
    requires InRange(m) && InRange(n) && |h| == |g|
    requires h + AddressWord(m.a) + AddressWord(m.b) + UintWord(m.x) + UintWord(m.y) + UintWord(m.z)
             == g + AddressWord(n.a) + AddressWord(n.b) + UintWord(n.x) + UintWord(n.y) + UintWord(n.z)
    ensures h == g && m.(kind := n.kind) == n
  {
    var ma, mb, na, nb := AddressWord(m.a), AddressWord(m.b), AddressWord(n.a), AddressWord(n.b);
    var mx, my, nx, ny := UintWord(m.x), UintWord(m.y), UintWord(n.x), UintWord(n.y);
    ConcatInjective(h + ma + mb + mx + my, UintWord(m.z), g + na + nb + nx + ny, UintWord(n.z));
    ConcatInjective(h + ma + mb + mx, my, g + na + nb + nx, ny);
    ConcatInjective(h + ma + mb, mx, g + na + nb, nx);
    ConcatInjective(h + ma, mb, g + na, nb);
    ConcatInjective(h, ma, g, na);
    ConcatInjective(Zeros(12), m.a, Zeros(12), n.a);
    ConcatInjective(Zeros(12), m.b, Zeros(12), n.b);
    UintWordInjective(m.x, n.x);
    UintWordInjective(m.y, n.y);
    UintWordInjective(m.z, n.z);
  }

  /** A digest commits to the domain, the kind and every field; a ticket can never pass for an authorisation. */
  lemma DigestCommits(keccak: Keccak, s: bytes, m: Message, t: bytes, n: Message)
    requires Hashes32(keccak) && |s| == |t| == 32 && InRange(m) && InRange(n)
    requires DigestOf(keccak, s, m) == DigestOf(keccak, t, n)
    ensures || (s == t && m == n)
            || Collide(keccak, FinalPreimage(keccak, s, m), FinalPreimage(keccak, t, n))
            || Collide(keccak, Encoded(keccak, m), Encoded(keccak, n))
            || Collide(keccak, Ascii(TypeText(m.kind)), Ascii(TypeText(n.kind)))
  {
    var x, y := keccak(Encoded(keccak, m)), keccak(Encoded(keccak, n));
    if [0x19, 0x01] + s + x == [0x19, 0x01] + t + y {
      ConcatInjective([0x19, 0x01] + s, x, [0x19, 0x01] + t, y);
      ConcatInjective([0x19, 0x01], s, [0x19, 0x01], t);
      if Encoded(keccak, m) == Encoded(keccak, n) {
        WordsOfMessage(keccak(Ascii(TypeText(m.kind))), keccak(Ascii(TypeText(n.kind))), m, n);
        if Ascii(TypeText(m.kind)) == Ascii(TypeText(n.kind)) {
          TypeTextsDiffer(m.kind, n.kind);
        }
      }
    }
  }

  function ChannelId(keccak: Keccak, client: bytes, nodeAdmin: bytes): bytes { keccak(client + nodeAdmin) }

  /** One channel id, one (client, node) pair: the packed encoding is unambiguous because addresses are 20 bytes. */
  lemma ChannelIdCommits(keccak: Keccak, a: bytes, b: bytes, c: bytes, d: bytes)
    requires |a| == |c| == 20 && |b| == |d| == 20 && ChannelId(keccak, a, b) == ChannelId(keccak, c, d)
    ensures (a == c && b == d) || Collide(keccak, a + b, c + d)
  {
    if a + b == c + d {
      ConcatInjective(a, b, c, d);
    }
  }

  // ------------------------------------------------------------------ the domain

  const DOMAIN_TYPE := "EIP712Domain(string name,string version,uint256 chainId,address verifyingContract)"

  /** Name and version are UTF-8. */
  datatype Domain = Domain(name: bytes, version: bytes, chainId: nat, verifyingContract: bytes)

  ghost predicate DomainInRange(d: Domain) { d.chainId < Pow256(32) && |d.verifyingContract| == 20 }

  function EncodedDomain(keccak: Keccak, d: Domain): bytes {
    keccak(Ascii(DOMAIN_TYPE)) + keccak(d.name) + keccak(d.version) + UintWord(d.chainId) + AddressWord(d.verifyingContract)
  }

  function DomainSeparator(keccak: Keccak, d: Domain): bytes { keccak(EncodedDomain(keccak, d)) }

  lemma DomainLayout(keccak: Keccak, d: Domain)
    requires Hashes32(keccak) && DomainInRange(d)
    ensures var p := EncodedDomain(keccak, d);
            && |p| == 160 && p[..32] == keccak(Ascii(DOMAIN_TYPE)) && p[32..64] == keccak(d.name) && p[64..96] == keccak(d.version)
            && BEValue(p[96..128]) == d.chainId && p[128..140] == Zeros(12) && p[140..] == d.verifyingContract
  {
    WordLayout(EncodedDomain(keccak, d), 96, d.chainId);
  }

  lemma SeparatorCommits(keccak: Keccak, d: Domain, e: Domain)
    requires Hashes32(keccak) && DomainInRange(d) && DomainInRange(e) && DomainSeparator(keccak, d) == DomainSeparator(keccak, e)
    ensures d == e || DomainCollision(keccak, d, e)
  {
    if EncodedDomain(keccak, d) == EncodedDomain(keccak, e) {
      var h, dn, dv, en, ev := keccak(Ascii(DOMAIN_TYPE)), keccak(d.name), keccak(d.version), keccak(e.name), keccak(e.version);
      var dc, ec := UintWord(d.chainId), UintWord(e.chainId);
      ConcatInjective(h + dn + dv + dc, AddressWord(d.verifyingContract), h + en + ev + ec, AddressWord(e.verifyingContract));
      ConcatInjective(h + dn + dv, dc, h + en + ev, ec);
      ConcatInjective(h + dn, dv, h + en, ev);
      ConcatInjective(h, dn, h, en);
      ConcatInjective(Zeros(12), d.verifyingContract, Zeros(12), e.verifyingContract);
      UintWordInjective(d.chainId, e.chainId);
    }
  }

  ghost predicate DomainCollision(keccak: Keccak, d: Domain, e: Domain) {
    || Collide(keccak, EncodedDomain(keccak, d), EncodedDomain(keccak, e))
    || Collide(keccak, d.name, e.name) || Collide(keccak, d.version, e.version)
  }

  /**
   A signature is good for one message in one domain: equal digests mean the same kind, the same fields, and the same
   contract name, version, chain and address, or two named byte strings collide.
   */
  lemma DigestCommitsToDomain(keccak: Keccak, d: Domain, m: Message, e: Domain, n: Message)
    requires Hashes32(keccak) && DomainInRange(d) && DomainInRange(e) && InRange(m) && InRange(n)
    requires DigestOf(keccak, DomainSeparator(keccak, d), m) == DigestOf(keccak, DomainSeparator(keccak, e), n)
    ensures || (d == e && m == n) || DomainCollision(keccak, d, e)
            || Collide(keccak, FinalPreimage(keccak, DomainSeparator(keccak, d), m),
                       FinalPreimage(keccak, DomainSeparator(keccak, e), n))
            || Collide(keccak, Encoded(keccak, m), Encoded(keccak, n))
            || Collide(keccak, Ascii(TypeText(m.kind)), Ascii(TypeText(n.kind)))
  {
    DigestCommits(keccak, DomainSeparator(keccak, d), m, DomainSeparator(keccak, e), n);
    if DomainSeparator(keccak, d) == DomainSeparator(keccak, e) {
      SeparatorCommits(keccak, d, e);
    }
  }
}

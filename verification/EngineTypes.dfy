/** The plain data of the world in web/src/demo/engine.js: parties, contracts, signatures, tickets. */
module EngineTypes {
  import opened Options
  import opened Totals

  /** ACTORS: everyone who can call, sign, hold ETH, deposit or earn. */
  datatype Actor = Owner | Kiosk | Relayer | Node | Amina | Baraka | Founder | Mallory

  /** The keys of token.bal. */
  datatype Holder = Wallet(who: Actor) | EscrowContract | TreasuryContract

  /** A mapping of balances: every key the source zero-fills reads 0 until it is written. */
  datatype Purse<!K(==)> = Purse(m: map<K, int>) {
    function At(k: K): int { if k in m then m[k] else 0 }
    /** The source's `m[k] += n`. */
    function Plus(k: K, n: int): Purse<K> { Purse(m[k := At(k) + n]) }
    function Minus(k: K, n: int): Purse<K> { Plus(k, -n) }
  }

  ghost function TotalOf<K(!new)>(p: Purse<K>): int { Total(p.m) }

  lemma PlusAt<K>(p: Purse<K>, a: K, n: int, b: K)
    ensures p.Plus(a, n).At(b) == p.At(b) + if b == a then n else 0
  {}

  lemma PlusSum<K(!new)>(p: Purse<K>, a: K, n: int)
    ensures TotalOf(p.Plus(a, n)) == TotalOf(p) + n
  {
    if a in p.m {
      TotalUpdate(p.m, a, p.m[a] + n);
    } else {
      TotalInsert(p.m, a, n);
    }
  }

  ghost predicate NonNegative<K(!new)>(p: Purse<K>) { forall k: K :: p.At(k) >= 0 }

  ghost predicate SameAmounts<K(!new)>(p: Purse<K>, q: Purse<K>) { forall k: K :: p.At(k) == q.At(k) }

  lemma SameAmountsSameSum<K(!new)>(p: Purse<K>, q: Purse<K>)
    requires SameAmounts(p, q)
    ensures TotalOf(p) == TotalOf(q)
  {
    forall k
      ensures (if k in p.m then p.m[k] else 0) == if k in q.m then q.m[k] else 0
    {
      assert p.At(k) == q.At(k);
    }
    TotalAgree(p.m, q.m);
  }

  lemma NonNegativeSum<K(!new)>(p: Purse<K>, k: K)
    requires NonNegative(p)
    ensures TotalOf(p) >= p.At(k) >= 0
  {
    forall j | j in p.m
      ensures p.m[j] >= 0
    {
      assert p.At(j) >= 0;
    }
    if k in p.m {
      TotalRemove(p.m, k);
      TotalNonNegative(p.m - {k});
    } else {
      TotalNonNegative(p.m);
    }
    assert p.At(k) >= 0;
  }

  /** Nonces, zero until first used. */
  datatype Counters = Counters(m: map<Actor, nat>) {
    function At(a: Actor): nat { if a in m then m[a] else 0 }
    function Next(a: Actor): Counters { Counters(m[a := At(a) + 1]) }
  }

  /** Native balances in gwei. */
  datatype Ether = Ether(m: map<Actor, real>) {
    function At(a: Actor): real { if a in m then m[a] else 0.0 }
    function Plus(a: Actor, n: real): Ether { Ether(m[a := At(a) + n]) }
  }

  ghost function TotalEther(e: Ether): real { TotalReal(e.m) }

  lemma EtherPlus(e: Ether, a: Actor, n: real)
    ensures TotalEther(e.Plus(a, n)) == TotalEther(e) + n
  {
    if a in e.m {
      TotalRealUpdate(e.m, a, e.m[a] + n);
    } else {
      TotalRealRemove(e.m[a := n], a);
      assert e.m[a := n] - {a} == e.m;
    }
  }

  /**
   Digests are the signed messages themselves: module Digests shows that equal digests mean equal messages unless two
   byte strings collide under keccak256.
   */
  datatype Digest =
    | TicketDigest(client: Actor, nodeAdmin: Actor, sequenceNumber: nat, cumulativeUnits: nat, epochExpiry: nat)
    | PermitDigest(owner: Actor, spender: Holder, value: nat, nonce: nat, deadline: nat)
    | WithdrawDigest(from: Actor, to: Holder, amount: nat, nonce: nat, deadline: nat)
    | TransferDigest(from: Actor, dest: Actor, amount: nat, nonce: nat, deadline: nat)

  /** An ideal signature recovers to its signer on the digest it was made for, and to nobody on another. */
  datatype Signature = SignedBy(signer: Actor, digest: Digest) | Garbage

  function Recover(d: Digest, s: Signature): Option<Actor> {
    if s.SignedBy? && s.digest == d then Some(s.signer) else None
  }

  datatype Ticket = Ticket(client: Actor, nodeAdmin: Actor, sequenceNumber: nat, cumulativeUnits: nat,
                           epochExpiry: nat, signature: Signature)

  datatype Permit = Permit(owner: Actor, spender: Holder, value: nat, deadline: nat, signature: Signature)

  /** `auth` of withdrawWithSig and transferDeposit; the destination is a separate argument of those calls. */
  datatype Auth = Auth(from: Actor, amount: nat, deadline: nat, signature: Signature)

  datatype Channel = Channel(lastSequence: nat, settledUnits: nat)

  datatype ChannelId = Between(client: Actor, nodeAdmin: Actor)

  datatype Bridge = Bridge(allowed: bool, cap: nat, minted: nat, windowStart: nat)

  datatype Grant = Grant(owner: Holder, spender: Holder)

  datatype Token = Token(owner: Option<Actor>, pendingOwner: Option<Actor>, supply: int, bal: Purse<Holder>,
                         allow: map<Grant, nat>, nonces: Counters, bridges: map<Actor, Bridge>)

  datatype Escrow = Escrow(owner: Option<Actor>, pendingOwner: Option<Actor>, deposits: Purse<Actor>, earnings: Purse<Actor>,
                           channels: map<ChannelId, Channel>, authNonces: Counters,
                           pricePerUnit: nat, lastPriceChange: nat)

  datatype Treasury = Treasury(owner: Option<Actor>, pendingOwner: Option<Actor>, feeBps: nat,
                               beneficiary: Option<Holder>, pending: Option<Holder>, activation: nat)

  datatype Error =
    | OwnableUnauthorizedAccount | NotBridge | MintCapExceeded | ERC20InsufficientBalance | ERC20InsufficientAllowance
    | ERC2612ExpiredSignature | ERC2612InvalidSigner | ZeroAmount | ZeroAddress | InsufficientDeposit
    | InsufficientEarnings | EmptyBatch | ExpiredTicket | StaleSequence | NoNewUnits | BadSignature
    | PriceOutOfBand | PriceCooldownActive | AuthorizationExpired | BadAuthorization | NothingToClaim | FeeTooHigh
    | NoPendingChange | TimelockActive | NotAuthorized | DeviceUnavailable | STKCancelled | MpesaInsufficientFunds
    | B2CFailed | FloatShort | InsufficientEth

  datatype Result<T> = Ok(value: T) | Err(error: Error) {
    predicate IsFailure() { Err? }
    function PropagateFailure<U>(): Result<U>
      requires Err?
    { Err(error) }
    function Extract(): T
      requires Ok?
    { value }
  }

  datatype Outcome = Pass | Fail(error: Error)

  /** need(cond, name). */
  function Need(cond: bool, error: Error): Outcome { if cond then Pass else Fail(error) }

  function ChannelOf(e: Escrow, id: ChannelId): Channel {
    if id in e.channels then e.channels[id] else Channel(0, 0)
  }

  function Min(a: int, b: int): int { if a <= b then a else b }
}

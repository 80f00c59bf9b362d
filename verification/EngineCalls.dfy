/**
 The calldata of web/src/demo/engine.js (table ABI, and seal): which function each call is encoded for and with which
 arguments, and so what equal calldata says about the calls.
 */
module EngineCalls {
  import opened Bytes
  import opened HashChain
  import opened Options
  import opened EngineTypes
  import opened EngineRules
  import opened EngineRuns
  import opened EngineChain
  import Abi

  /** The functions of the three contracts that the table knows. Creations and ether transfers have no calldata. */
  datatype Fn =
    | SetBridgeFn | BridgeMintFn | BridgeBurnFn | ApproveFn | TransferFn | TransferFromFn | PermitFn
    | DepositFn | DepositWithPermitFn | WithdrawDepositFn | WithdrawWithSigFn | TransferDepositFn | SettleFn
    | ClaimEarningsFn | SetPriceFn | ClaimFn | SetFeeFn | QueueFn | ActivateFn | CancelFn
    | TransferOwnershipFn | AcceptOwnershipFn

  /** The signature text of each function, and the 65 bytes of each signature. */
  datatype Codec = Codec(text: Fn -> bytes, signature: Signature -> bytes)

  function FnOf(c: Call): Option<Fn> {
    match c
    case SetBridge(_, _, _) => Some(SetBridgeFn)
    case BridgeMint(_, _) => Some(BridgeMintFn)
    case BridgeBurn(_) => Some(BridgeBurnFn)
    case Approve(_, _) => Some(ApproveFn)
    case Transfer(_, _) => Some(TransferFn)
    case TransferFrom(_, _, _) => Some(TransferFromFn)
    case UsePermit(_) => Some(PermitFn)
    case Deposit(_) => Some(DepositFn)
    case DepositWithPermit(_, _, _) => Some(DepositWithPermitFn)
    case WithdrawDeposit(_) => Some(WithdrawDepositFn)
    case WithdrawWithSig(_, _) => Some(WithdrawWithSigFn)
    case TransferDeposit(_, _) => Some(TransferDepositFn)
    case SettleTicketBatch(_) => Some(SettleFn)
    case ClaimEarnings(_, _) => Some(ClaimEarningsFn)
    case SetPricePerUnit(_) => Some(SetPriceFn)
    case Claim => Some(ClaimFn)
    case SetFeeBps(_) => Some(SetFeeFn)
    case QueueBeneficiary(_) => Some(QueueFn)
    case ActivateBeneficiary => Some(ActivateFn)
    case CancelBeneficiaryChange => Some(CancelFn)
    case TransferOwnership(_, _) => Some(TransferOwnershipFn)
    case AcceptOwnership(_) => Some(AcceptOwnershipFn)
    case _ => None
  }

  const WORD := Abi.UintT(256)
  const VRS: seq<Abi.Type> := [Abi.UintT(8), Abi.Bytes32T, Abi.Bytes32T]
  const TICKET := Abi.TupleT([Abi.AddressT, Abi.AddressT, Abi.UintT(64), Abi.UintT(128), WORD])

  function TypesOf(f: Fn): seq<Abi.Type> {
    match f
    case SetBridgeFn => [Abi.AddressT, Abi.BoolT, Abi.UintT(128)]
    case BridgeMintFn => [Abi.AddressT, WORD, Abi.Bytes32T]
    case BridgeBurnFn => [WORD, Abi.Bytes32T]
    case TransferFromFn => [Abi.AddressT, Abi.AddressT, WORD]
    case PermitFn => [Abi.AddressT, Abi.AddressT, WORD, WORD] + VRS
    case DepositWithPermitFn => [Abi.AddressT, WORD, WORD] + VRS
    case WithdrawWithSigFn => [Abi.AddressT, Abi.AddressT, WORD, WORD, Abi.BytesT]
    case TransferDepositFn => [Abi.AddressT, Abi.AddressT, WORD, WORD, Abi.BytesT]
    case SettleFn => [Abi.ArrayT(TICKET), Abi.ArrayT(Abi.BytesT)]
    case ApproveFn => [Abi.AddressT, WORD]
    case TransferFn => [Abi.AddressT, WORD]
    case ClaimEarningsFn => [Abi.AddressT, WORD]
    case SetFeeFn => [Abi.UintT(16)]
    case DepositFn => [WORD]
    case WithdrawDepositFn => [WORD]
    case SetPriceFn => [WORD]
    case ClaimFn => [Abi.AddressT]
    case QueueFn => [Abi.AddressT]
    case TransferOwnershipFn => [Abi.AddressT]
    case ActivateFn => []
    case CancelFn => []
    case AcceptOwnershipFn => []
  }

  // ------------------------------------------------------------------ arguments

  function Party(env: Env, h: Holder): bytes {
    match h
    case Wallet(who) => env.wallet(who)
    case EscrowContract => env.contract(TheEscrow)
    case TreasuryContract => env.contract(TheTreasury)
  }

  /** A destination nobody named is the zero address. */
  function Destination(env: Env, h: Option<Holder>): bytes { if h.Some? then Party(env, h.value) else ZERO20 }

  function Vrs(sig: bytes): seq<Abi.Value>
    requires |sig| == 65
  {
    [Abi.Num(sig[64]), Abi.Raw(sig[..32]), Abi.Raw(sig[32..64])]
  }

  function TicketValue(env: Env, t: Ticket): Abi.Value {
    Abi.Items([Abi.Raw(env.wallet(t.client)), Abi.Raw(env.wallet(t.nodeAdmin)), Abi.Num(t.sequenceNumber),
               Abi.Num(t.cumulativeUnits), Abi.Num(t.epochExpiry)])
  }

  function TicketValues(env: Env, ts: seq<Ticket>): seq<Abi.Value> { seq(|ts|, i requires 0 <= i < |ts| => TicketValue(env, ts[i])) }

  function Signatures(k: Codec, ts: seq<Ticket>): seq<Abi.Value> {
    seq(|ts|, i requires 0 <= i < |ts| => Abi.Raw(k.signature(ts[i].signature)))
  }

  ghost predicate Sound(env: Env, k: Codec) {
    && Addresses(env)
    && (forall s: Signature :: |k.signature(s)| == 65)
    && (forall a, b :: env.wallet(a) == env.wallet(b) ==> a == b)
    && (forall c, d :: env.contract(c) == env.contract(d) ==> c == d)
    && (forall a, c :: env.wallet(a) != env.contract(c)) && (forall a :: env.wallet(a) != ZERO20)
    && (forall c :: env.contract(c) != ZERO20)
  }

  /** The argument values of a call. `ref` is the hash of the fiat reference that mints and burns carry. */
  function ArgsOf(env: Env, k: Codec, c: Call, ref: bytes): seq<Abi.Value>
    requires forall s: Signature :: |k.signature(s)| == 65
  {
    match c
    case SetBridge(bridge, allowed, cap) => [Abi.Raw(env.wallet(bridge)), Abi.Flag(allowed), Abi.Num(cap)]
    case BridgeMint(to, amount) => [Abi.Raw(Party(env, to)), Abi.Num(amount), Abi.Raw(ref)]
    case BridgeBurn(amount) => [Abi.Num(amount), Abi.Raw(ref)]
    case Approve(spender, amount) => [Abi.Raw(Party(env, spender)), Abi.Num(amount)]
    case Transfer(to, amount) => [Abi.Raw(Party(env, to)), Abi.Num(amount)]
    case TransferFrom(owner, to, amount) => [Abi.Raw(Party(env, owner)), Abi.Raw(Party(env, to)), Abi.Num(amount)]
    case UsePermit(p) =>
      [Abi.Raw(env.wallet(p.owner)), Abi.Raw(Party(env, p.spender)), Abi.Num(p.value), Abi.Num(p.deadline)]
      + Vrs(k.signature(p.signature))
    case Deposit(amount) => [Abi.Num(amount)]
    case DepositWithPermit(client, amount, p) =>
      [Abi.Raw(env.wallet(client)), Abi.Num(amount), Abi.Num(p.deadline)] + Vrs(k.signature(p.signature))
    case WithdrawDeposit(amount) => [Abi.Num(amount)]
    case WithdrawWithSig(a, dest) =>
      [Abi.Raw(env.wallet(a.from)), Abi.Raw(Destination(env, dest)), Abi.Num(a.amount), Abi.Num(a.deadline),
       Abi.Raw(k.signature(a.signature))]
    case TransferDeposit(a, receiver) =>
      [Abi.Raw(env.wallet(a.from)), Abi.Raw(Destination(env, if receiver.Some? then Some(Wallet(receiver.value)) else None)),
       Abi.Num(a.amount), Abi.Num(a.deadline), Abi.Raw(k.signature(a.signature))]
    case SettleTicketBatch(ts) => [Abi.Items(TicketValues(env, ts)), Abi.Items(Signatures(k, ts))]
    case ClaimEarnings(to, amount) => [Abi.Raw(Party(env, to)), Abi.Num(amount)]
    case SetPricePerUnit(price) => [Abi.Num(price)]
    case Claim => [Abi.Raw(env.contract(TheToken))]
    case SetFeeBps(feeBps) => [Abi.Num(feeBps)]
    case QueueBeneficiary(next) => [Abi.Raw(Party(env, next))]
    case TransferOwnership(_, newOwner) => [Abi.Raw(env.wallet(newOwner))]
    case _ => []
  }

  // ------------------------------------------------------------------ what the arguments say

  predicate SameBytes(k: Codec, s: Signature, t: Signature) { k.signature(s) == k.signature(t) }

  predicate SameTicket(k: Codec, t: Ticket, u: Ticket) { t.(signature := u.signature) == u && SameBytes(k, t.signature, u.signature) }

  predicate SameTickets(k: Codec, ts: seq<Ticket>, us: seq<Ticket>) {
    |ts| == |us| && forall i :: 0 <= i < |ts| ==> SameTicket(k, ts[i], us[i])
  }

  predicate SameAuth(k: Codec, a: Auth, b: Auth) { a.(signature := b.signature) == b && SameBytes(k, a.signature, b.signature) }

  /**
   The same call, as far as a transaction shows it: signatures by their bytes; of a deposit with permit the permit's
   deadline and signature, not what it grants; of a creation or an ether transfer nothing.
   */
  predicate SameCall(k: Codec, c: Call, d: Call) {
    match (c, d)
    case (UsePermit(p), UsePermit(q)) => p.(signature := q.signature) == q && SameBytes(k, p.signature, q.signature)
    case (DepositWithPermit(client, amount, p), DepositWithPermit(payer, sum, q)) =>
      client == payer && amount == sum && p.deadline == q.deadline && SameBytes(k, p.signature, q.signature)
    case (WithdrawWithSig(a, dest), WithdrawWithSig(b, to)) => dest == to && SameAuth(k, a, b)
    case (TransferDeposit(a, receiver), TransferDeposit(b, to)) => receiver == to && SameAuth(k, a, b)
    case (SettleTicketBatch(ts), SettleTicketBatch(us)) => SameTickets(k, ts, us)
    case _ => c == d || (FnOf(c).None? && FnOf(d).None?)
  }

  lemma SameParty(env: Env, k: Codec, h: Holder, j: Holder)
    requires Sound(env, k) && Party(env, h) == Party(env, j)
    ensures h == j
  {}

  lemma SameDestination(env: Env, k: Codec, h: Option<Holder>, j: Option<Holder>)
    requires Sound(env, k) && Destination(env, h) == Destination(env, j)
    ensures h == j
  {
    if h.Some? && j.Some? {
      SameParty(env, k, h.value, j.value);
    }
  }

  lemma SameVrs(x: bytes, y: bytes)
    requires |x| == 65 == |y| && Vrs(x) == Vrs(y)
    ensures x == y
  {
    assert Vrs(x)[0] == Vrs(y)[0] && Vrs(x)[1] == Vrs(y)[1] && Vrs(x)[2] == Vrs(y)[2];
    assert x == x[..32] + x[32..64] + [x[64]] && y == y[..32] + y[32..64] + [y[64]];
  }

  lemma TicketsAgree(env: Env, k: Codec, ts: seq<Ticket>, us: seq<Ticket>)
    requires Sound(env, k) && TicketValues(env, ts) == TicketValues(env, us) && Signatures(k, ts) == Signatures(k, us)
    ensures SameTickets(k, ts, us)
  {
    assert |ts| == |TicketValues(env, ts)| == |us|;
    forall i | 0 <= i < |ts|
      ensures SameTicket(k, ts[i], us[i])
    {
      assert TicketValues(env, ts)[i] == TicketValues(env, us)[i] && Signatures(k, ts)[i] == Signatures(k, us)[i];
      OneTicket(env, k, ts[i], us[i]);
    }
  }

  lemma OneTicket(env: Env, k: Codec, t: Ticket, u: Ticket)
    requires Sound(env, k) && TicketValue(env, t) == TicketValue(env, u) && k.signature(t.signature) == k.signature(u.signature)
    ensures SameTicket(k, t, u)
  {
    var x, y := TicketValue(env, t).vs, TicketValue(env, u).vs;
    assert x[0] == y[0] && x[1] == y[1] && x[2] == y[2] && x[3] == y[3] && x[4] == y[4];
  }

  lemma PermitArgs(env: Env, k: Codec, c: Call, d: Call, ref: bytes, seal: bytes)
    requires Sound(env, k) && ArgsOf(env, k, c, ref) == ArgsOf(env, k, d, seal)
    requires (c.UsePermit? && d.UsePermit?) || (c.DepositWithPermit? && d.DepositWithPermit?)
    ensures SameCall(k, c, d)
  {
    var u, v := ArgsOf(env, k, c, ref), ArgsOf(env, k, d, seal);
    var n := if c.UsePermit? then 4 else 3;
    var s, t := c.permit.signature, d.permit.signature;
    assert u[n..] == Vrs(k.signature(s)) && v[n..] == Vrs(k.signature(t));
    SameVrs(k.signature(s), k.signature(t));
    assert u[0] == v[0] && u[1] == v[1] && u[2] == v[2] && u[3] == v[3];
    if c.UsePermit? {
      SameParty(env, k, c.permit.spender, d.permit.spender);
    }
  }

  lemma SignedArgs(env: Env, k: Codec, c: Call, d: Call, ref: bytes, seal: bytes)
    requires Sound(env, k) && ArgsOf(env, k, c, ref) == ArgsOf(env, k, d, seal)
    requires (c.WithdrawWithSig? && d.WithdrawWithSig?) || (c.TransferDeposit? && d.TransferDeposit?)
    ensures SameCall(k, c, d)
  {
    var u, v := ArgsOf(env, k, c, ref), ArgsOf(env, k, d, seal);
    assert u[0] == v[0] && u[1] == v[1] && u[2] == v[2] && u[3] == v[3] && u[4] == v[4];
    if c.WithdrawWithSig? {
      SameDestination(env, k, c.dest, d.dest);
    } else {
      SameDestination(env, k, if c.receiver.Some? then Some(Wallet(c.receiver.value)) else None,
                      if d.receiver.Some? then Some(Wallet(d.receiver.value)) else None);
    }
  }

  lemma BatchArgs(env: Env, k: Codec, c: Call, d: Call, ref: bytes, seal: bytes)
    requires Sound(env, k) && c.SettleTicketBatch? && d.SettleTicketBatch?
    requires ArgsOf(env, k, c, ref) == ArgsOf(env, k, d, seal)
    ensures SameCall(k, c, d)
  {
    var u, v := ArgsOf(env, k, c, ref), ArgsOf(env, k, d, seal);
    assert u[0] == v[0] && u[1] == v[1];
    TicketsAgree(env, k, c.tickets, d.tickets);
  }

  /** Calls that name a holder first: a destination, a spender, an owner. */
  predicate NamesHolder(c: Call) {
    c.BridgeMint? || c.Approve? || c.Transfer? || c.TransferFrom? || c.ClaimEarnings? || c.QueueBeneficiary?
  }

  predicate CarriesSignature(c: Call) {
    c.UsePermit? || c.DepositWithPermit? || c.WithdrawWithSig? || c.TransferDeposit? || c.SettleTicketBatch?
  }

  lemma HolderArgs(env: Env, k: Codec, c: Call, d: Call, ref: bytes, seal: bytes)
    requires Sound(env, k) && FnOf(c) == FnOf(d) && NamesHolder(c)
    requires ArgsOf(env, k, c, ref) == ArgsOf(env, k, d, seal)
    ensures c == d
  {
    var u, v := ArgsOf(env, k, c, ref), ArgsOf(env, k, d, seal);
    assert u[0] == v[0] && (|u| > 1 ==> u[1] == v[1]) && (|u| > 2 ==> u[2] == v[2]);
    match c {
      case BridgeMint(to, _) => SameParty(env, k, to, d.to);
      case Approve(spender, _) => SameParty(env, k, spender, d.spender);
      case Transfer(to, _) => SameParty(env, k, to, d.to);
      case TransferFrom(owner, to, _) => SameParty(env, k, owner, d.owner); SameParty(env, k, to, d.to);
      case ClaimEarnings(to, _) => SameParty(env, k, to, d.to);
      case QueueBeneficiary(next) => SameParty(env, k, next, d.next);
    }
  }

  /** The others; an owner's call still names its contract by the target. */
  lemma PlainArgs(env: Env, k: Codec, c: Call, d: Call, ref: bytes, seal: bytes)
    requires Sound(env, k) && FnOf(c).Some? && FnOf(c) == FnOf(d) && Target(env, c) == Target(env, d)
    requires !NamesHolder(c) && !CarriesSignature(c) && ArgsOf(env, k, c, ref) == ArgsOf(env, k, d, seal)
    ensures c == d
  {
    var u, v := ArgsOf(env, k, c, ref), ArgsOf(env, k, d, seal);
    assert (|u| > 0 ==> u[0] == v[0]) && (|u| > 1 ==> u[1] == v[1]) && (|u| > 2 ==> u[2] == v[2]);
  }

  lemma SignatureArgs(env: Env, k: Codec, c: Call, d: Call, ref: bytes, seal: bytes)
    requires Sound(env, k) && FnOf(c) == FnOf(d) && CarriesSignature(c) && ArgsOf(env, k, c, ref) == ArgsOf(env, k, d, seal)
    ensures SameCall(k, c, d)
  {
    if c.SettleTicketBatch? {
      BatchArgs(env, k, c, d, ref, seal);
    } else if c.UsePermit? || c.DepositWithPermit? {
      PermitArgs(env, k, c, d, ref, seal);
    } else {
      SignedArgs(env, k, c, d, ref, seal);
    }
  }

  lemma SameCallRefl(k: Codec, c: Call)
    ensures SameCall(k, c, c)
  {}

  /** Calls of one function on one contract with one argument list are one call. */
  lemma SameArgs(env: Env, k: Codec, c: Call, d: Call, ref: bytes, seal: bytes)
    requires Sound(env, k) && FnOf(c).Some? && FnOf(c) == FnOf(d) && Target(env, c) == Target(env, d)
    requires ArgsOf(env, k, c, ref) == ArgsOf(env, k, d, seal)
    ensures SameCall(k, c, d)
  {
    if CarriesSignature(c) {
      SignatureArgs(env, k, c, d, ref, seal);
    } else if NamesHolder(c) {
      HolderArgs(env, k, c, d, ref, seal);
      SameCallRefl(k, c);
    } else {
      PlainArgs(env, k, c, d, ref, seal);
      SameCallRefl(k, c);
    }
  }

  // ------------------------------------------------------------------ calldata

  /** The four-byte selectors of the functions are different, as they are under the real keccak256. */
  ghost predicate SelectorsDiffer(keccak: Keccak, k: Codec)
    requires Hashes32(keccak)
  {
    forall f, g :: keccak(k.text(f))[..4] == keccak(k.text(g))[..4] ==> f == g
  }

  /** The input that seal writes for a call, with reference hash `ref`. */
  ghost predicate Encodes(env: Env, k: Codec, r: Request, ref: bytes)
    requires Sound(env, k)
  {
    match FnOf(r.call)
    case None => r.input == []
    case Some(f) =>
      var args := Abi.Items(ArgsOf(env, k, r.call, ref));
      && Abi.Fit(TypesOf(f), args) && |Abi.EncodeArgs(TypesOf(f), args)| < Pow256(32)
      && r.input == Abi.Calldata(env.keccak, k.text(f), TypesOf(f), args)
  }

  lemma InputLength(env: Env, k: Codec, r: Request, ref: bytes)
    requires Sound(env, k) && Encodes(env, k, r, ref)
    ensures FnOf(r.call).Some? <==> |r.input| >= 4
  {}

  lemma SameSelector(env: Env, k: Codec, r: Request, q: Request, ref: bytes, seal: bytes)
    requires Sound(env, k) && SelectorsDiffer(env.keccak, k) && Encodes(env, k, r, ref) && Encodes(env, k, q, seal)
    requires r.input == q.input && FnOf(r.call).Some? && FnOf(q.call).Some?
    ensures FnOf(r.call) == FnOf(q.call)
  {
    var f, g := FnOf(r.call).value, FnOf(q.call).value;
    ConcatInjective(env.keccak(k.text(f))[..4], Abi.EncodeArgs(TypesOf(f), Abi.Items(ArgsOf(env, k, r.call, ref))),
                    env.keccak(k.text(g))[..4], Abi.EncodeArgs(TypesOf(g), Abi.Items(ArgsOf(env, k, q.call, seal))));
  }

  lemma SameTarget(env: Env, c: Call, d: Call)
    requires FnOf(c).Some? && FnOf(d).Some? && ToBytes(Target(env, c)) == ToBytes(Target(env, d))
    ensures Target(env, c) == Target(env, d)
  {}

  lemma SameValues(env: Env, k: Codec, r: Request, q: Request, ref: bytes, seal: bytes, f: Fn)
    requires Sound(env, k) && Encodes(env, k, r, ref) && Encodes(env, k, q, seal) && r.input == q.input
    requires FnOf(r.call) == Some(f) == FnOf(q.call)
    ensures ArgsOf(env, k, r.call, ref) == ArgsOf(env, k, q.call, seal)
  {
    Abi.CalldataCommits(env.keccak, k.text(f), k.text(f), TypesOf(f), Abi.Items(ArgsOf(env, k, r.call, ref)),
                        Abi.Items(ArgsOf(env, k, q.call, seal)));
  }

  /** Equal calldata sent to one target is one call. */
  lemma SameInputSameCall(env: Env, k: Codec, r: Request, q: Request, ref: bytes, seal: bytes)
    requires Sound(env, k) && SelectorsDiffer(env.keccak, k) && Encodes(env, k, r, ref) && Encodes(env, k, q, seal)
    requires r.input == q.input && ToBytes(Target(env, r.call)) == ToBytes(Target(env, q.call))
    ensures SameCall(k, r.call, q.call)
  {
    InputLength(env, k, r, ref);
    InputLength(env, k, q, seal);
    if FnOf(r.call).Some? {
      SameSelector(env, k, r, q, ref, seal);
      SameValues(env, k, r, q, ref, seal, FnOf(r.call).value);
      SameTarget(env, r.call, q.call);
      SameArgs(env, k, r.call, q.call, ref, seal);
    }
  }

  // ------------------------------------------------------------------ runs

  /** The requests of a run that were sealed into blocks, in order. */
  function SealedOf(w: World, env: Env, rs: seq<Request>): seq<Request>
    decreases |rs|
  {
    if rs == [] then []
    else
      var front, r := rs[..|rs| - 1], rs[|rs| - 1];
      SealedOf(w, env, front) + if OnChain(r.call) && StatusOf(Run(w, env, front), r) != Rejected then [r] else []
  }

  /** Block by block, who asked for what. */
  ghost predicate Records(env: Env, blocks: seq<Block>, sealed: seq<Request>) {
    |blocks| == |sealed| && forall i :: 0 <= i < |blocks| ==> BlockRecords(env, blocks[i], sealed[i], CountOf(sealed[..i], sealed[i].from))
  }

  /** How many of these requests a payer made. */
  function CountOf(rs: seq<Request>, a: Actor): nat {
    if rs == [] then 0 else CountOf(rs[..|rs| - 1], a) + if rs[|rs| - 1].from == a then 1 else 0
  }

  ghost predicate BlockRecords(env: Env, b: Block, r: Request, nonce: nat) {
    && b.tx.from == env.wallet(r.from) && b.tx.to == Target(env, r.call) && b.tx.input == r.input
    && b.tx.nonce == nonce && b.stateRoot == r.root && b.tx.hash == b.txHash
  }

  /** Every payer's next nonce is the number of its sealed requests. */
  ghost predicate NoncesOf(w: World, sealed: seq<Request>) { forall a: Actor :: w.txNonces.At(a) == CountOf(sealed, a) }

  lemma StepRecords(w: World, env: Env, r: Request, sealed: seq<Request>)
    requires Records(env, w.blocks, sealed) && NoncesOf(w, sealed)
    ensures var more := sealed + if OnChain(r.call) && StatusOf(w, r) != Rejected then [r] else [];
            Records(env, Step(w, env, r).blocks, more) && NoncesOf(Step(w, env, r), more)
  {
    if OnChain(r.call) && StatusOf(w, r) != Rejected {
      SealedRecords(w, env, r, Out(w, r).t);
      OneMoreRecord(env, w.blocks, SealedBlock(w, env, r, Out(w, r).t), sealed, r);
      OneMoreNonce(w, Step(w, env, r), sealed, r);
    } else {
      NotSealed(w, env, r, sealed);
    }
  }

  lemma NotSealed(w: World, env: Env, r: Request, sealed: seq<Request>)
    requires !(OnChain(r.call) && StatusOf(w, r) != Rejected)
    ensures Step(w, env, r).blocks == w.blocks && Step(w, env, r).txNonces == w.txNonces && sealed + [] == sealed
  {}

  lemma SealedRecords(w: World, env: Env, r: Request, t: nat)
    ensures BlockRecords(env, SealedBlock(w, env, r, t), r, w.txNonces.At(r.from))
  {}

  lemma OneMoreRecord(env: Env, blocks: seq<Block>, b: Block, sealed: seq<Request>, r: Request)
    requires Records(env, blocks, sealed) && BlockRecords(env, b, r, CountOf(sealed, r.from))
    ensures Records(env, blocks + [b], sealed + [r])
  {
    var more := sealed + [r];
    forall i | 0 <= i < |more|
      ensures BlockRecords(env, (blocks + [b])[i], more[i], CountOf(more[..i], more[i].from))
    {
      assert i < |sealed| ==> more[..i] == sealed[..i];
      assert more[..|sealed|] == sealed;
    }
  }

  lemma OneMoreNonce(w: World, y: World, sealed: seq<Request>, r: Request)
    requires NoncesOf(w, sealed) && y.txNonces == w.txNonces.Next(r.from)
    ensures NoncesOf(y, sealed + [r])
  {
    assert (sealed + [r])[..|sealed|] == sealed;
    forall a: Actor
      ensures y.txNonces.At(a) == CountOf(sealed + [r], a)
    {
      assert w.txNonces.At(a) == CountOf(sealed, a);
    }
  }

  lemma {:induction false} RunRecords(w: World, env: Env, rs: seq<Request>)
    requires Fresh(w)
    ensures Records(env, Run(w, env, rs).blocks, SealedOf(w, env, rs)) && NoncesOf(Run(w, env, rs), SealedOf(w, env, rs))
    decreases |rs|
  {
    if rs != [] {
      RunRecords(w, env, rs[..|rs| - 1]);
      StepRecords(Run(w, env, rs[..|rs| - 1]), env, rs[|rs| - 1], SealedOf(w, env, rs[..|rs| - 1]));
    }
  }

  ghost predicate Encoded(env: Env, k: Codec, rs: seq<Request>)
    requires Sound(env, k)
  {
    forall i :: 0 <= i < |rs| ==> exists ref :: Encodes(env, k, rs[i], ref)
  }

  /** Request by request the same caller and the same call. */
  ghost predicate SameRequests(k: Codec, rs: seq<Request>, qs: seq<Request>) {
    |rs| == |qs| && forall i :: 0 <= i < |rs| ==> rs[i].from == qs[i].from && SameCall(k, rs[i].call, qs[i].call)
  }

  lemma SameBlocksSameRequests(env: Env, k: Codec, a: seq<Block>, b: seq<Block>, rs: seq<Request>, qs: seq<Request>)
    requires Sound(env, k) && SelectorsDiffer(env.keccak, k) && Encoded(env, k, rs) && Encoded(env, k, qs)
    requires Records(env, a, rs) && Records(env, b, qs) && |a| == |b|
    requires forall i :: 0 <= i < |a| ==> SameCommitted(a[i], b[i])
    ensures SameRequests(k, rs, qs)
  {
    forall i | 0 <= i < |rs|
      ensures rs[i].from == qs[i].from && SameCall(k, rs[i].call, qs[i].call)
    {
      assert BlockRecords(env, a[i], rs[i], CountOf(rs[..i], rs[i].from));
      assert BlockRecords(env, b[i], qs[i], CountOf(qs[..i], qs[i].from)) && SameCommitted(a[i], b[i]);
      var ref :| Encodes(env, k, rs[i], ref);
      var seal :| Encodes(env, k, qs[i], seal);
      SameInputSameCall(env, k, rs[i], qs[i], ref, seal);
    }
  }

  ghost predicate Collides(keccak: Keccak, a: seq<Block>, b: seq<Block>)
    requires |a| == |b|
  {
    exists i :: 0 <= i < |a| && CollisionAt(keccak, a[i], b[i])
  }

  /**
   Two runs that sealed as many blocks and ended in one hash sealed the same calls by the same payers in the same order,
   or keccak collides.
   */
  lemma SameHashSameCalls(w: World, rs: seq<Request>, v: World, qs: seq<Request>, env: Env, k: Codec)
    requires Fresh(w) && Fresh(v) && Sound(env, k) && SelectorsDiffer(env.keccak, k) && Roots(rs) && Roots(qs)
    requires InWords(Run(w, env, rs)) && InWords(Run(v, env, qs)) && SameEnd(Run(w, env, rs).blocks, Run(v, env, qs).blocks)
    requires Encoded(env, k, SealedOf(w, env, rs)) && Encoded(env, k, SealedOf(v, env, qs))
    ensures SameRequests(k, SealedOf(w, env, rs), SealedOf(v, env, qs))
            || Collides(env.keccak, Run(w, env, rs).blocks, Run(v, env, qs).blocks)
  {
    SameHashSameHistory(w, rs, v, qs, env);
    RunRecords(w, env, rs);
    RunRecords(v, env, qs);
    HistoryDecides(env, k, Run(w, env, rs).blocks, Run(v, env, qs).blocks, SealedOf(w, env, rs), SealedOf(v, env, qs));
  }

  lemma HistoryDecides(env: Env, k: Codec, a: seq<Block>, b: seq<Block>, rs: seq<Request>, qs: seq<Request>)
    requires Sound(env, k) && SelectorsDiffer(env.keccak, k) && Encoded(env, k, rs) && Encoded(env, k, qs)
    requires Records(env, a, rs) && Records(env, b, qs) && |a| == |b| && SameHistory(env.keccak, a, b)
    ensures SameRequests(k, rs, qs) || Collides(env.keccak, a, b)
  {
    if !Collides(env.keccak, a, b) {
      SameBlocksSameRequests(env, k, a, b, rs, qs);
    }
  }
}

/**
 From the engine's ideal digests to bytes: which message each one is, and that no two of them are signed as one digest unless
 byte strings collide. This is what lets the engine's model treat a digest as the message itself.
 */
module EngineDigests {
  import opened Bytes
  import opened HashChain
  import opened EngineTypes
  import opened EngineRuns
  import opened EngineCalls
  import opened Digests

  /** ticketDigest, permitDigest, withdrawDigest and transferDigest: the fields in the order of their type texts. */
  function MessageOf(env: Env, d: Digest): Message {
    match d
    case TicketDigest(client, nodeAdmin, sequenceNumber, cumulativeUnits, epochExpiry) =>
      Message(TicketKind, env.wallet(client), env.wallet(nodeAdmin), sequenceNumber, cumulativeUnits, epochExpiry)
    case PermitDigest(owner, spender, value, nonce, deadline) =>
      Message(PermitKind, env.wallet(owner), Party(env, spender), value, nonce, deadline)
    case WithdrawDigest(from, to, amount, nonce, deadline) =>
      Message(WithdrawKind, env.wallet(from), Party(env, to), amount, nonce, deadline)
    case TransferDigest(from, dest, amount, nonce, deadline) =>
      Message(TransferKind, env.wallet(from), env.wallet(dest), amount, nonce, deadline)
  }

  /** Permits are signed for the token, everything else for the escrow. */
  function DomainOf(token: Domain, escrow: Domain, d: Digest): Domain { if d.PermitDigest? then token else escrow }

  lemma MessagesDiffer(env: Env, k: Codec, d: Digest, e: Digest)
    requires Sound(env, k) && MessageOf(env, d) == MessageOf(env, e)
    ensures d == e
  {
    match d {
      case PermitDigest(_, spender, _, _, _) => SameParty(env, k, spender, e.spender);
      case WithdrawDigest(_, to, _, _, _) => SameParty(env, k, to, e.to);
      case _ =>
    }
  }

  /** The digest as the engine computes it. */
  function BytesOf(env: Env, token: Domain, escrow: Domain, d: Digest): bytes {
    DigestOf(env.keccak, DomainSeparator(env.keccak, DomainOf(token, escrow, d)), MessageOf(env, d))
  }

  /** One digest, one message: a signature for a ticket, a permit, a withdrawal or a transfer is good for that one alone. */
  lemma EngineDigestsCommit(env: Env, k: Codec, token: Domain, escrow: Domain, d: Digest, e: Digest)
    requires Sound(env, k) && DomainInRange(token) && DomainInRange(escrow)
    requires InRange(MessageOf(env, d)) && InRange(MessageOf(env, e))
    requires BytesOf(env, token, escrow, d) == BytesOf(env, token, escrow, e)
    ensures d == e || DigestCollision(env.keccak, DomainOf(token, escrow, d), MessageOf(env, d), DomainOf(token, escrow, e), MessageOf(env, e))
  {
    DigestCommitsToDomain(env.keccak, DomainOf(token, escrow, d), MessageOf(env, d), DomainOf(token, escrow, e), MessageOf(env, e));
    if MessageOf(env, d) == MessageOf(env, e) {
      MessagesDiffer(env, k, d, e);
    }
  }

  ghost predicate DigestCollision(keccak: Keccak, c: Domain, m: Message, d: Domain, n: Message) {
    || DomainCollision(keccak, c, d)
    || Collide(keccak, FinalPreimage(keccak, DomainSeparator(keccak, c), m), FinalPreimage(keccak, DomainSeparator(keccak, d), n))
    || Collide(keccak, Digests.Encoded(keccak, m), Digests.Encoded(keccak, n))
    || Collide(keccak, Ascii(TypeText(m.kind)), Ascii(TypeText(n.kind)))
  }
}

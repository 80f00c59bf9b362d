# Verification of the xKoin demo, transport and payout logic

A Dafny 4.11 model of the parts of this repository that move money or carry proof of service, with proofs of what they
promise over whole runs. To check it:

    dafny verify dfyconfig.toml

Five components are modelled, each in the form the program gives it: call bodies, simulator objects and ledger handlers
are classes updated in place and proved equal to a specification function; pure code is functions. The theorems are about
those functions and about runs of them.

**Escrow, token and treasury engine** (`web/src/demo/engine.js`, `gas.js`). `EngineRules` gives the rule of every call body
and the gas it costs, `EngineRuns` the wrapper that commits, reverts with gas or rejects, and runs of any requests by anyone
in any order. `Engine.LiveWorld` is the same engine in place: `Execute` runs a body on a copy, throws the copy away on a
revert, and is proved equal to one step. `Commits` says when each call commits, `Failures` what the errors of the others
say, and `Movements` is the double entry of a commit: what moves, from whom and to whom. On runs: `EngineMoney` and
`EngineRuns` (conservation, solvency, ETH, ledger, chain), `EngineLedger` (what entries tell, fiat, permits),
`EscrowSurplus`, `MintCap`, `RollingCap`, `Timelock`, `Authorisation`, `Custody`, `Governance`, `Peg`, `EngineChain`,
`EngineCalls` (what a sealed transaction's calldata says about the call). `Setup` is the deployment that the concrete runs
start from. `Settlement`, `SettlementTheorems`, `Earnings` (whose earnings a ticket credits), `Quote` and `Relay` are about
ticket batches; `Session` is the metered data session of `flows.js`, `SessionCredit` and `SessionPrice` what its credit
limit covers and where it stops.

**Reliable transport** (`protocol/xkp/sim.py`). `Transport` is the protocol as a state machine over an event bag,
`TransportInvariant`, `TransportTheorems` and `TransportReceipts` what every reachable world satisfies, `TransportFrames`
where every frame went, `TransportTiming` timers and whom they blame, `TransportRuns` two short runs in the order of their
times, `Mediums` link selection, and `Simulator.Simulation` the objects updated in place, with `Sim.run` proved to end.

**Codecs**: frames and CRC (`Frames`, `CrcTable`), receipts (`Receipts`), the ABI encoder with the decoder that undoes it
(`Abi`), the canonical form of what it writes (`AbiCanonical`), type texts (`AbiText`), digests (`Digests`, `EngineDigests`).

**Hash chain** (`HashChain`): what the last hash commits to, where tampering shows, what re-hashing repairs.

**Payout ledger** (`gateway-api/app/payout/worker.py`): `PayoutRules` are the steps between the worker's await points,
`PayoutTheorems`, `PayoutResults`, `PayoutHistory` and `PollCoverage` what any order of them keeps, `PayoutCallbacks` which
row a callback reaches, `PayoutWorkers.PayoutWorker` the handlers in place.

How the outside is treated: keccak256, SHA-256 and Ed25519 are parameters. No hash is assumed injective; where a hash
comparison decides, the conclusion is "equal, or these two byte strings collide". In the engine a digest is the signed
message itself, and a signature recovers to its signer on the digest it was made for; `Digests` and `EngineDigests` show
that equal digests mean equal messages unless named byte strings collide. Losses are a stream of draws, times, ETH and
scores are reals, opening balances, addresses, signature bytes and state roots are inputs of a run.

Properties that fail in general are stated with the condition under which they hold and an input that breaks them:

- A 16-bit burst across the body/CRC boundary passes for exactly one pair of differences (`Frames.StraddlingBurst`).
- A committed call keeps the escrow's balance equal to its debts if and only if it sends the escrow's address nothing
  without credit, and a run does if and only if each of its calls does (`EscrowSurplus.CallKeepsExactIff`,
  `EscrowSurplus.RunExactIff`); a mint to the escrow's address breaks it (`EscrowSurplus.MintToEscrowBreaksExact`).
- The mint cap is a fixed window, not a rolling day as `contracts/README.md:7` says. Whatever the bridge can mint next keeps
  the rolling day within the cap if and only if it minted nothing in that day before its window
  (`RollingCap.RollingCapIff`). Otherwise two caps fit in two seconds (`RollingCap.TwoCapsInTwoSeconds`), and no more than
  two in less than a day (`MintCap.TwoCapsWithinADay`).
- `buy` keeps the fiat peg if and only if nothing is bought, the payment does not go through, or the kiosk can mint: its
  bridge listed, room in the window two seconds on, and ether for the gas (`Peg.BuyKeepsPegIff`). Buying past the cap and
  buying from a kiosk without ether break it (`Peg.BuyOverCapBreaksPeg`, `Peg.BuyWithoutGasBreaksPeg`).
- A session stops within one receipt interval if and only if the phone could sign or no receipt boundary fell in the chunk
  (`Session.UnsignedWithinInterval`, `Session.WholeChunkUnsigned`).
- A session's limit covers what it is owed as long as the price never rises between opening and settlement and nobody else
  signs on the channel, whoever settles it meanwhile (`SessionCredit.GapWithinLimit`); after any rise, however small, a
  session of one unit is owed more than its limit (`SessionPrice.PriceRiseOutrunsCredit`). For its ticket to be settled in
  full the price may moreover fall only while nothing the session served has been settled
  (`SessionCredit.CreditCoversSettlement`); after any later fall a session ends with a good ticket and an empty deposit
  (`SessionPrice.PriceFallAfterSettlement`).
- A payout row's burns are one if it is settled, plus one for every write of the loop to the row while settled; so it burns
  exactly when it is settled if and only if there was no such write, and at most once if and only if these add up to at most
  one (`PayoutHistory.BurnsOnceIffNeverOverturned`). A callback during the loop's await can bring a second burn about
  (`PayoutResults.SecondBurnExists`); callbacks between polls cannot (`PayoutResults.SequentialBurnsOnce`).
- A payout row is pending with no send in the air, and stays so for ever, if and only if an abort caught its first send
  before the answer (`PayoutHistory.OrphanIffAborted`, `PayoutHistory.AbortForgetsPayout`,
  `PayoutResults.OrphanStaysPending`). Likewise a row is sent at most `max_attempts` times, and once more for every
  abort that caught one of its sends (`PayoutHistory.SendsBounded`).
- Law 3 as `docs/how-it-works.md:61` puts it bounds unproven credit by two receipt intervals. The code bounds what is
  unsigned: delivered bytes beyond the last signature are fewer than one interval plus the window times the largest chunk
  (`TransportTheorems.ReceiptWindow`), which is within two intervals when the window holds at most one
  (`TransportReceipts.UnsignedWithinTwoIntervals`). Unproven bytes keep the same bounds whenever nothing is signed yet or
  the receipt sent last has reached the node (`TransportReceipts.ProvenIffNewestSeen`,
  `TransportReceipts.MaxUnprovenBounded`). A lost receipt does not stop the pump, so without that they do not
  (`TransportRuns.LostReceiptOutrunsWindow`).
- A retransmission timer waits for its exchange if and only if the time until the frame has left the air plus the timer's
  slack exceeds the ack's airtime (`TransportTiming.TimerOutlastsIff`). Over mediums that send the four bytes an ack may be
  longer than its frame within the slack, no timer acts before a loss (`TransportTiming.TimersActOnLossOnly`).
- A chunk fits the medium it goes over first (`TransportTheorems.ChunkFitsItsMedium`); a failover carries it whole over a
  medium of any MTU (`TransportTheorems.FailoverKeepsChunk`).
- A drained transfer is done or marked failed if and only if its final receipt was not given up on
  (`TransportReceipts.DrainedTransferOutcome`); a run gives it up with every byte delivered
  (`TransportRuns.FinalReceiptGivenUp`).

## Model

| member | source | states |
|---|---|---|
| Crc16.AbsorbByte | protocol/xkp/frames.py:52-55 | The eight shift-or-xor rounds of one byte compute the specified register. |
| Crc16.Crc16Ccitt | protocol/xkp/frames.py:49-56 | The nested loop computes the CRC of the whole byte string, by any prefix. |
| Crc16.RoundsLinear | protocol/xkp/frames.py:54-55 | Any number of rounds is linear over xor, the property burst detection rests on. |
| Crc16.CrcInjective | protocol/xkp/frames.py:49-56 | Over the same data two starting registers give one CRC only if they are equal. |
| Crc16.TwoBytesInjective | protocol/xkp/frames.py:49-56 | From one register, two consecutive bytes are determined by the register after them. |
| CrcTable.AbsorbIsTableStep | protocol/xkp/frames.py:52-55 | The eight rounds over a byte are one step of the table-driven CRC, from any register. |
| CrcTable.CheckValue | protocol/tests/test_xkp.py:20-22 | The CRC of "123456789" is 0x29B1, the check value of poly 0x1021 and init 0xFFFF. |
| Frames.UnpackPack | protocol/xkp/frames.py:77-115 | unpack gives back every well-formed version-1 frame from its packed bytes. |
| Frames.OtherVersionRefused | protocol/xkp/frames.py:98-99 | A frame packed with any other version number is refused with the version error. |
| Frames.WireLayout | protocol/xkp/frames.py:77-89 | Every byte of a packed frame: magic 58 4B, version and type nibbles, flags, ttl, ids, little-endian number and length, payload, and the CRC over all before it. |
| Frames.PackUnpack | protocol/xkp/frames.py:92-115 | Whatever unpack accepts, pack reproduces byte for byte: no two byte strings mean one frame. |
| Frames.BodyBurstRejected | protocol/xkp/frames.py:104-106 | Any corruption of a packed frame within two consecutive body bytes is rejected. |
| Frames.CrcFieldCorruptionRejected | protocol/xkp/frames.py:104-106 | Any corruption of the CRC field alone is rejected. |
| Frames.StraddlingBurst | protocol/xkp/frames.py:88-106 | A corruption of the last body byte and the first CRC byte is accepted exactly for the differences 0x89 and 0xA1 in a frame with payload. |
| Receipts.ParseUndoesCanonical | protocol/xkp/proofs.py:24-35 | Parsing the 44 canonical bytes of a well-formed receipt gives the receipt back. |
| Receipts.CanonicalLayout | protocol/xkp/proofs.py:15-35 | Every byte of the canonical form: both ids and the session in their places, filled with zeros if too short and cut if too long, and the two counters little-endian. |
| Receipts.WireLayout | protocol/xkp/proofs.py:38-43 | The wire form is the 44 canonical bytes and then the key holder's signature of exactly those. |
| Receipts.CanonicalUndoesParse | protocol/xkp/proofs.py:50-51 | Every 44 bytes are the canonical form of exactly the receipt they parse to. |
| Receipts.CanonicalInjective | protocol/xkp/proofs.py:15-35 | Two well-formed receipts with one canonical form are one receipt. |
| Receipts.AcceptsExactlyTheSigned | protocol/xkp/proofs.py:42-58 | A byte string is accepted as r if and only if it is r's wire form under the client's key and r names that client. |
| Receipts.TamperRejected | protocol/xkp/proofs.py:46-58 | Other signed bytes under an accepted signature are rejected, unless the key signs both alike. |
| Receipts.WireFitsNarrowband | protocol/xkp/proofs.py:3-16 | An in-range receipt has a wire form of 108 bytes, within the 128-byte narrowband frame. |
| Mediums.SelectBest | protocol/xkp/sim.py:124-126 | The selected medium is live, none live scores better, and it is the first of its equals; none only if none is live. |
| Mediums.BestUnique | protocol/xkp/sim.py:124-126 | That description fits one choice only. |
| Mediums.EstimateStaysProbability | protocol/xkp/sim.py:87-118 | Over any observations, whenever made, the loss estimate stays in [0, 1], so no score drops below a hundredth of the bandwidth. |
| Mediums.ObservationMoves | protocol/xkp/sim.py:90-98 | A success lowers the loss estimate and a failure raises it, strictly unless it is already 0 or 1, and nothing physical changes. |
| Mediums.StreaksDecay | protocol/xkp/sim.py:90-91 | After n failures in a row one less the estimate has shrunk by 0.85^n, after n successes the estimate has. |
| Mediums.FailuresCostScore | protocol/xkp/sim.py:87-91 | Of two mediums alike but for what was observed, one that failed wherever the other did never scores better. |
| Mediums.QuarantineAtEveryThird | protocol/xkp/sim.py:90-98 | Over any observations, one quarantines the medium for two seconds if it is the third failure in a row, or sixth, and so on; every other leaves the quarantine alone. |
| TransportTheorems.OneLiveTimer | protocol/xkp/sim.py:177-266 | In every reachable world a pending send has exactly one live timer or wait, at most 30 tries and 4001 waits, one dispatch, and one exit taken once if resolved. |
| TransportTheorems.LateReadIsHarmless | protocol/xkp/sim.py:214-219 | The timeout guard compares the try counter with itself; comparing with the try the timer was set for would do the same in every reachable world. |
| TransportTheorems.EventLoopDrains | protocol/xkp/sim.py:51-54 | The events a run can fire are bounded by its bytes and heartbeats. |
| TransportTheorems.DrainedMeansResolved | protocol/xkp/sim.py:168-266 | When no event is left every send took exactly one of its ack and fail paths, once, and an acked one was dispatched once. |
| TransportTheorems.CountersOrdered | protocol/xkp/sim.py:270-370 | proven <= last signed <= acked <= delivered <= offset <= total in every reachable world. |
| TransportTheorems.DoneMeansProven | protocol/xkp/sim.py:350-379 | A transfer with done_at set was delivered, acked and proven in full and did not fail. |
| TransportTheorems.ReceiptWindow | protocol/xkp/sim.py:336-370 | offset = acked + in flight + failed, outstanding within the window, and delivered beyond the last signature below one interval plus window times the largest chunk. |
| TransportTheorems.ChunkFitsItsMedium | protocol/xkp/sim.py:336-348 | A new chunk goes over the best medium, fits its MTU, and is a whole MTU or all that is left; with no live medium at most 128 bytes, and it waits. |
| TransportTheorems.FailoverKeepsChunk | protocol/xkp/sim.py:177-204 | A chunk is never cut again: after a failover the best medium carries it whole, however small its MTU. |
| TransportFrames.RunAccounts | protocol/xkp/sim.py:192-247 | In every run each medium's frames and acks are its lost ones, its delivered ones and those in the air; each took one draw; and as many are lost as draws fall below the loss probability, exactly so if the mediums share one. |
| TransportFrames.DrainedFramesLanded | protocol/xkp/sim.py:192-247 | When no event is left every frame of every medium was delivered or lost. |
| TransportTiming.OnlyTheCarrierLearns | protocol/xkp/sim.py:216-259 | A medium's loss estimate, streak and quarantine move only when the exchange it carried ends: down on the acting timer, up on the first ack, by no other event. |
| TransportTiming.TimerOutlastsIff | protocol/xkp/sim.py:195-214 | A frame and its ack, undisturbed, come in before the retransmission timer if and only if the time until the frame has left the air plus the timer's slack exceeds the ack's airtime. |
| TransportTiming.TimersActOnLossOnly | protocol/xkp/sim.py:192-242 | In a run that fires its events earliest first, over mediums that send four bytes within the slack: while a frame of a pending send or an ack for it is in the air, it comes in before the send's timer and over the medium of its last try; so a timer acts, and a medium is blamed, only after a loss. |
| TransportTiming.FramesQueueUp | protocol/xkp/sim.py:84-198 | Frames go out over a medium one after the other at its rate, from when they are handed over or the medium is free, whichever is later. |
| TransportTiming.GivenUpAfter1000Seconds | protocol/xkp/sim.py:130-191 | With no medium up, a send is given up exactly 1000 seconds after it was made, at the 4000th event, and not before. |
| TransportTheorems.RunKeeps | protocol/xkp/sim.py:133-387 | Every step of every run keeps the transport invariant and spends its measure. |
| TransportReceipts.RunReceipts | protocol/xkp/sim.py:284-309 | In every reachable world receipts sign for ever more, the last signature is the newest receipt's, what is proven was proven by a receipt the node has, and a failed chunk marks the transfer failed. |
| TransportReceipts.ProvenIffNewestSeen | protocol/xkp/sim.py:288-299 | Everything signed is proven if and only if nothing is signed yet or the receipt sent last has reached the node; then fewer bytes than an interval plus window times largest chunk are unproven. |
| TransportReceipts.UnsignedWithinTwoIntervals | protocol/xkp/sim.py:357-370 | If the window holds at most one interval, fewer than two intervals are delivered beyond the last signature, and unproven too when the receipt sent last has arrived. |
| TransportReceipts.MaxUnprovenIsPeak | protocol/xkp/sim.py:281-286 | max_unproven is the largest delivered less proven of any moment of the run. |
| TransportReceipts.MaxUnprovenInRange | protocol/xkp/sim.py:281-286 | 0 <= delivered less proven <= max_unproven <= total in every reachable world. |
| TransportReceipts.MaxUnprovenBounded | protocol/xkp/sim.py:281-299 | If the receipt sent last has arrived whenever the node takes a chunk, max_unproven stays below an interval plus window times largest chunk. |
| TransportReceipts.DrainedTransferOutcome | protocol/xkp/sim.py:332-380 | A drained transfer is marked failed if and only if a chunk was given up on, has at most one final receipt, and is done or marked failed if and only if that receipt was not given up on. |
| TransportRuns.LostReceiptOutrunsWindow | protocol/xkp/sim.py:281-370 | A timed run that loses one receipt leaves 256 bytes unproven, past an interval plus the window (129) and past two intervals (2). |
| TransportRuns.FinalReceiptGivenUp | protocol/xkp/sim.py:177-266 | A timed run in which the only medium goes down: all bytes delivered and acked, the final receipt given up on after 4000 waits, neither done nor marked failed. |
| TransportInvariant.FireKeeps | protocol/xkp/sim.py:177-307 | Firing any event keeps the invariant and lowers the measure. |
| Simulator.Simulation.Schedule | protocol/xkp/sim.py:44-46 | at: the event enters the bag with the next order number. |
| Simulator.Simulation.GiveUp | protocol/xkp/sim.py:221-225 | A send given up on leaves the pending ones and runs its failure callback. |
| Simulator.Simulation.Transmission | protocol/xkp/sim.py:177-191 | _tx: the best medium transmits; without one the send waits, or fails after 4000 waits. |
| Simulator.Simulation.TransmitOn | protocol/xkp/sim.py:192-214 | One try: airtime charged, arrival drawn, retransmission timer set. |
| Simulator.Simulation.TimerFires | protocol/xkp/sim.py:216-226 | _timeout: the medium is blamed, the send retried or given up on. |
| Simulator.Simulation.SendFrame | protocol/xkp/sim.py:168-175 | send: a pending entry with the next sequence number, and its first transmission. |
| Simulator.Simulation.SendAck | protocol/xkp/sim.py:228-244 | _ack: an acknowledgement over the arriving medium, lost by draw. |
| Simulator.Simulation.ReceiveFrame | protocol/xkp/sim.py:246-266 | _rx: acknowledged every time, dispatched the first time. |
| Simulator.Simulation.ReceiveAck | protocol/xkp/sim.py:252-259 | _rx of an ack: the pending send resolves once and its callback runs. |
| Simulator.Simulation.PumpWindow | protocol/xkp/sim.py:336-348 | _pump: chunks are cut and sent until the window or the data ends. |
| Simulator.Simulation.CountChunk | protocol/xkp/sim.py:350-358 | _on_chunk_ack: counters, a receipt if one is due, and the window refilled. |
| Simulator.Simulation.SignIfDue | protocol/xkp/sim.py:356-370 | A receipt is signed once an interval or the whole transfer is acked. |
| Simulator.Simulation.FindEarliest | protocol/xkp/sim.py:51-53 | The popped event is the earliest, ties by order. |
| Simulator.Simulation.PopAndFire | protocol/xkp/sim.py:51-54 | One turn of the loop is one firing of the state machine. |
| Simulator.Simulation.RunUntil | protocol/xkp/sim.py:51-54 | The event loop ends, keeps the invariant and leaves only events after the limit. |
| HashChain.FailingRowsAreAltered | web/src/demo/chain.js:18-44 | Against a sound chain with the same block hashes, verify gives one row per block under its number; a row passes if its block is the sound one in every committed field, and fails if it is not, unless keccak collides. |
| HashChain.TxLayout | web/src/demo/chain.js:25-28 | Every byte of a transaction's preimage. |
| HashChain.HeaderLayout | web/src/demo/chain.js:30-32 | Every byte of a header's preimage. |
| HashChain.TxLayoutInjective | web/src/demo/chain.js:25-28 | A transaction preimage determines payer, target, nonce and calldata. |
| HashChain.HeaderLayoutInjective | web/src/demo/chain.js:30-32 | A header preimage determines parent, number, time, transaction hash and state root. |
| HashChain.LastHashCommits | web/src/demo/chain.js:10-44 | Two verified chains of one length with one last hash agree on every committed field of every block, or show a collision. |
| HashChain.TamperLocalised | web/src/demo/chain.js:37-63 | Changed calldata at block i fails row i's transaction check and nothing else, or collides. |
| HashChain.Tamper | web/src/demo/chain.js:47-63 | tamper changes the calldata of block i and nothing else, and does change it when the amounts differ. |
| HashChain.Rehash | web/src/demo/chain.js:70-82 | The loop recomputes each block from i on, linked to its rebuilt predecessor. |
| HashChain.SpanVerifies | web/src/demo/chain.js:70-82 | A re-hashed span verifies, keeps its contents, carries the hashes of its transactions, and leaves the rest untouched. |
| HashChain.RehashAllVerifies | web/src/demo/chain.js:65-82 | Re-hashing from i makes every row verify again with the same calldata. |
| HashChain.RehashOneMovesTheFailure | web/src/demo/chain.js:65-82 | Re-hashing only i moves the failure to exactly the link of row i + 1, or collides. |
| HashChain.SealVerifies | web/src/demo/engine.js:317-344 | A sealed block extends a verified chain to a verified chain. |
| Digests.DigestCommits | web/src/demo/crypto.js:106-168 | Behind any 32-byte separators, a digest commits to separator, kind and every field, or a named pair of byte strings collides: a ticket never passes for an authorisation. |
| Digests.SeparatorCommits | web/src/demo/crypto.js:98-104 | A domain separator commits to name, version, chain id and contract, or named byte strings collide. |
| Digests.DigestCommitsToDomain | web/src/demo/crypto.js:98-168 | Equal digests mean one message in one domain: kind, fields, contract name, version, chain and address, or a collision. |
| Digests.ChannelIdCommits | web/src/demo/crypto.js:170-171 | A channel id belongs to one client and node pair, or collides. |
| Digests.MessageLayout | web/src/demo/crypto.js:106-168 | What is hashed for a ticket, permit, withdrawal or transfer: the hash of its type text and the five fields in their order, one word each. |
| Digests.FinalLayout | web/src/demo/crypto.js:106-168 | The signed digest is the hash of 19 01, the separator and the message's hash. |
| Digests.DomainLayout | web/src/demo/crypto.js:98-104 | What is hashed for a domain: type, name and version hashes, chain id and contract, one word each. |
| EngineDigests.EngineDigestsCommit | web/src/demo/crypto.js:98-168 | Two digests the engine would compute are equal bytes only if they are the same digest of the model, or named byte strings collide: treating a digest as its message is sound. |
| Abi.BuildArgs | web/src/demo/abi.js:64-79 | The head and tail loop with its running offset builds the specified encoding, which is canonical byte for byte. |
| Abi.MeasureHeads | web/src/demo/abi.js:67 | Measuring zero values gives the head size, which depends on the types alone. |
| Abi.EncodeStatic | web/src/demo/abi.js:40-47 | A static value takes exactly the size its type says. |
| Abi.OffsetsExact | web/src/demo/abi.js:64-79 | Every offset word is the exact start of its tail, and heads stand where the types say, whatever follows. |
| Abi.ArgsWhole | web/src/demo/abi.js:49-79 | Every encoding is a whole number of 32-byte words. |
| Abi.DecodesDynamic | web/src/demo/abi.js:49-61 | A dynamic value of any nesting is decoded from its encoding, whatever follows it. |
| Abi.DecodeUndoesEncode | web/src/demo/abi.js:64-79 | Every argument list is decoded from its encoding, whatever follows it. |
| Abi.EncodingInjective | web/src/demo/abi.js:64-79 | Equal bytes mean equal in-range arguments. |
| Abi.CalldataCommits | web/src/demo/abi.js:87-91 | Equal calldata means equal selector and equal arguments. |
| AbiCanonical.ArgumentsCanonical | web/src/demo/abi.js:40-79 | A byte string is the encoding of an argument list if and only if it meets the format: every word a big-endian number below its range, every offset exact, and zero in every byte that is no value, offset or length, however deep the types nest. |
| AbiCanonical.DynamicCanonical | web/src/demo/abi.js:49-61 | The same for one dynamic value: bytes are their length, themselves and zeros to the word. |
| AbiCanonical.StaticCanonical | web/src/demo/abi.js:40-47 | The same for one static value: twelve zeros before an address, and nothing but 0 or 1 for a bool. |
| AbiCanonical.StrictDecoding | web/src/demo/abi.js:64-79 | A decoder that refuses whatever is not canonical accepts every encoding and gives its value back, and whatever it accepts is byte for byte the encoding of what it returns. |
| AbiCanonical.OneByte | web/src/demo/abi.js:49-54 | The encoding of one byte: the length word, the byte, and 31 zeros. |
| AbiText.SplitText | web/src/demo/abi.js:21-38 | The character loop is the specified split. |
| AbiText.SplitUndoesPrinting | web/src/demo/abi.js:21-38 | Splitting a printed tuple gives exactly its components' texts, however deep they nest. |
| AbiText.DynamicTextAgrees | web/src/demo/abi.js:19 | The text test says dynamic exactly for the dynamic types. |
| Settlement.ComputeSettleGas | web/src/demo/gas.js:77-85 | The loop is batch overhead plus the per-ticket gas of each shape. |
| Settlement.BatchPrefix | web/src/demo/engine.js:576-607 | A ticket that fails makes the batch fail with its error, whatever follows. |
| Settlement.GasPerSlot | web/src/demo/gas.js:67-85 | Settlement gas is 71,467 and 59,924 per ticket, less 17,100 for every slot that is already non-zero. |
| SettlementTheorems.BatchTakesDebtCappedByDeposit | web/src/demo/engine.js:571-607 | A committed batch takes from every client exactly min(deposit, price times the growth of its settled units). |
| SettlementTheorems.BatchConserves | web/src/demo/engine.js:589-607 | Deposits fall by gross, earnings rise by gross less fees, no deposit rises, no earning falls, and 0 <= fees <= gross. |
| SettlementTheorems.PathIndependence | web/src/demo/engine.js:571-607 | Two batches that leave the same channel records took the same from every client and paid the same gross. |
| SettlementTheorems.OneChannelBatch | web/src/demo/engine.js:576-592 | Tickets of one channel leave the last one's record, which the untouched escrow would have accepted too. |
| SettlementTheorems.OnlyTheLastTicketMatters | web/src/demo/engine.js:571-607 | The last ticket alone is accepted, pays the same gross, leaves the same deposits and record, and loses at most n - 1 base units of fee to rounding. |
| SettlementTheorems.FeeFloors | web/src/demo/engine.js:594-607 | Per-ticket fee floors lose less than one base unit per ticket against the fee on the whole gross. |
| Earnings.BatchEarns | web/src/demo/engine.js:589-607 | After a committed batch every actor's earnings have grown by exactly what the tickets naming it as node took from their clients' deposits, less the fees on those payments. |
| Earnings.NobodyElseEarns | web/src/demo/engine.js:594-607 | For an actor that no ticket names as node, what is taken for it and the fees on it are nothing. |
| Earnings.OneNodeEarnsAll | web/src/demo/engine.js:594-607 | If all tickets name one node, what is taken for it is the gross, and the fees on it are the batch's fee. |
| Earnings.EarningsOfBatch | web/src/demo/engine.js:589-612 | An actor no ticket names keeps its earnings; the node that all tickets name earns exactly gross less fee. |
| Earnings.FeeIsRateRoundedDown | web/src/demo/engine.js:594-596 | The fee is the largest whole amount within the rate. |
| Quote.ListPending | web/src/demo/engine.js:882-893 | The loop lists the newest unsettled ticket of each channel asked for. |
| Quote.BatchQuote | web/src/demo/engine.js:896-911 | The quote's gross, fee and gas, each ticket priced against the untouched world. |
| Quote.PendingOnePerChannel | web/src/demo/engine.js:882-893 | Pending tickets are unsettled newest tickets, one per channel, with their exact unit growth. |
| Quote.PendingIff | web/src/demo/engine.js:882-893 | A ticket is pending, with its counts, if and only if it is the newest of a list, names the node asked for, and is ahead of its channel in number and in units. |
| Quote.ChannelAfterBatch | web/src/demo/engine.js:589 | After a committed batch a channel has its newest ticket's record, or is untouched. |
| Quote.QuoteBoundsSettlement | web/src/demo/engine.js:571-616 | Settling the pending tickets never exceeds the quoted gross, fee or gas, is exact with one ticket per client, burns exactly the quoted gas with one ticket per node, and leaves nothing pending. |
| Relay.RelayWithinQuote | web/src/demo/flows.js:133-137 | In any run of the engine, a committed settlement of everything pending stays within its quote and leaves nothing pending. |
| EngineTypes.PlusSum | web/src/demo/engine.js:148-151 | One update of one balance moves the sum by exactly that amount. |
| EngineRules.FiledOnTop | web/src/demo/engine.js:739-748 | A signed ticket is filed on top of its channel's one list. |
| EngineRules.SettleGasPositive | web/src/demo/gas.js:77-85 | No storage discount brings a settlement below 54,367 plus 25,724 per ticket. |
| EngineRules.RevertIsCheaperIff | web/src/demo/gas.js:21-65 | A call that reverts burns less gas than one that commits, if and only if it is no ether transfer: that burns 25,000 instead of 21,000. |
| EngineRules.UsedSlotsSave | web/src/demo/engine.js:507-569 | Of two worlds a deposit, signed withdrawal or transfer is cheaper in the one where more of the slots it writes are in use. |
| EngineMoney.MovedKeeps | web/src/demo/engine.js:483-487 | A transfer keeps the supply equal to the balances and none negative, also to oneself. |
| EngineMoney.SpendAndMoveMoney | web/src/demo/engine.js:469-493 | Spending an allowance never moves a contract's tokens. |
| EngineMoney.ReleaseMoney | web/src/demo/engine.js:530-553 | Paying out a deposit never overdraws the escrow. |
| EngineMoney.SettleMoney | web/src/demo/engine.js:608-612 | The fee transfer at the end of a batch cannot underflow and keeps the escrow solvent. |
| EngineMoney.ApplyMoney | web/src/demo/engine.js:420-708 | Every committed call keeps supply equal to balances, none negative, and raises the escrow's surplus by exactly what was donated to its address. |
| EngineRuns.CreateWorld | web/src/demo/engine.js:83-115 | A created world has nothing deployed, minted, queued, signed or sealed. |
| EngineRuns.FailureChangesNothing | web/src/demo/engine.js:211-237 | A reverted or rejected call leaves contracts, fiat, tickets and devices as they were: at most the clock and the payer's gas change. |
| EngineRuns.CommitAppliesBody | web/src/demo/engine.js:187-243 | A committed call does to the contracts exactly what its body does. |
| Commits.GoesThroughIff | web/src/demo/engine.js:420-862 | Every call's body goes through if and only if the world allows it: owner, allowance, balance, deposit, window, signature, deadline, timelock, device, call by call. |
| Commits.BatchGoesThroughIff | web/src/demo/engine.js:576-607 | A batch passes its checks if and only if every ticket is signed by its client, unexpired, and ahead of its channel in number and units as the tickets before it leave that. |
| Commits.GrossPositiveIff | web/src/demo/engine.js:589-609 | A batch moves something if and only if units cost something and one of its clients has a deposit. |
| Commits.CommitsIff | web/src/demo/engine.js:187-243 | A request commits if and only if the world two seconds on allows its call and its caller can then pay the gas. |
| Failures.ErrorsAreTrue | web/src/demo/engine.js:388-862 | No error lies: whatever a call fails with, of all 31 errors, is true of that call in that world. |
| Failures.BatchBlamesFirst | web/src/demo/engine.js:576-587 | A batch that fails names what is wrong with its first ticket that is not ahead: expired, stale, no new units or badly signed, in that order. |
| EngineRuns.ClockAdvances | web/src/demo/engine.js:195-198 | Time never runs back, and a sealed transaction takes at least two seconds. |
| EngineRuns.EveryRunIsWellFormed | web/src/demo/engine.js:317-386 | After any run: block count is block number, ledger ids are 1..n, times are in order, every payer's nonce is its sealed transactions, and verify accepts every row. |
| EngineRuns.RunEther | web/src/demo/engine.js:215-241 | Over any run total ETH falls by exactly the gas in the ledger at the gas price, and nobody's balance goes negative. |
| EngineRuns.RunMoney | web/src/demo/engine.js:148-168 | After any run the balances sum to the supply, none is negative, and the escrow holds deposits plus earnings plus exactly what was donated to it. |
| EngineRuns.NoDonationUnlessNamed | web/src/demo/engine.js:463-474 | A run that never names the escrow as token destination or beneficiary donates nothing. |
| EngineRuns.EscrowExact | web/src/demo/engine.js:152-160 | In such runs the escrow's balance equals deposits plus earnings. |
| EscrowSurplus.CallKeepsExactIff | web/src/demo/engine.js:152-160 | A committed call keeps balance == deposits + earnings if and only if it sends the escrow's address nothing without credit. |
| EscrowSurplus.RunExactIff | web/src/demo/engine.js:152-160 | A run from a fresh world ends with the equation if and only if none of its committed calls gave the escrow anything. |
| EscrowSurplus.MintToEscrowBreaksExact | web/src/demo/engine.js:429-445 | Deploy, list the kiosk, mint to the escrow: the equation fails by the amount. |
| MintCap.NewWindow | web/src/demo/engine.js:433-438 | Opening a window accounts for all earlier mints with one cap per day begun. |
| MintCap.StepAccounts | web/src/demo/engine.js:429-445 | Every call keeps a bridge's record accounting for all it minted since any moment. |
| MintCap.MintBound | web/src/demo/engine.js:429-445 | In any run with caps at most C, a bridge mints at most (floor(T / 86400) + 2) C in any interval of length T. |
| MintCap.TwoCapsWithinADay | web/src/demo/engine.js:433-437 | That bound is twice the cap for any interval shorter than a day. |
| RollingCap.RunCounts | web/src/demo/engine.js:433-441 | In every run a bridge's counter is exactly what it minted since its window opened. |
| RollingCap.RollingCapIff | web/src/demo/engine.js:433-437 | The day up to t holds what the window counts plus what it forgets; every amount mintable at t keeps that day within the cap if and only if nothing was minted in it before the window. |
| RollingCap.MintAddsToDay | web/src/demo/engine.js:429-445 | A mint that commits adds its amount to the rolling day it ends. |
| RollingCap.TwoCapsInTwoSeconds | web/src/demo/engine.js:433-437 | A run of six calls from any fresh world a day past the epoch mints twice the cap within two seconds. |
| Timelock.StepMovesLock | web/src/demo/engine.js:682-707 | Only queue, activate and cancel touch the pending change; activation needs its time to have come. |
| Timelock.PendingWasQueued | web/src/demo/engine.js:682-688 | Whatever is pending was queued, still stands, and activates seven days after. |
| Timelock.ChangeWasQueuedSevenDaysBefore | web/src/demo/engine.js:690-698 | Every beneficiary change installs an address queued at least seven days earlier, with no cancel, re-queue or activation between. |
| Timelock.VetoHolds | web/src/demo/engine.js:700-707 | A beneficiary that gets every queue cancelled within seven days is never replaced. |
| Authorisation.EveryTicketAcceptable | web/src/demo/engine.js:576-587 | Every ticket of a committed batch was signed by its client, unexpired and ahead of its channel. |
| Authorisation.NoRepeatInBatch | web/src/demo/engine.js:579-580 | No ticket appears twice in a committed batch. |
| Authorisation.DepositFallsOnlyByRight | web/src/demo/engine.js:530-616 | A deposit falls only by its client's withdrawal, by an authorisation signed for exactly that destination, amount and nonce, or by the client's ticket ahead of its channel. |
| Authorisation.StepLowersDepositsByRight | web/src/demo/engine.js:187-243 | The same of every step of a run, and no failed call lowers a deposit. |
| Authorisation.NeverBack | web/src/demo/engine.js:589-649 | Over a run authorisation nonces and channel records only move forward. |
| Authorisation.AuthorisationExecutesOnce | web/src/demo/engine.js:640-649 | One signature executes at most once in a run, across both entry points that share the nonce. |
| Authorisation.TicketSettlesOnce | web/src/demo/engine.js:579-589 | One ticket settles at most once in a run. |
| Authorisation.SignedTicketIsNext | web/src/demo/engine.js:736-748 | A signed ticket is numbered past the chain and every ticket held, expires an epoch from now, and is acceptable, then and until it expires, exactly if its client signed for new units. |
| Authorisation.RunFiled | web/src/demo/engine.js:739-748 | In every run held tickets are filed one list per channel. |
| Authorisation.FrontRunPermitIsHarmless | web/src/demo/engine.js:517-526 | Relaying a permit ahead of depositWithPermit does not change the deposit's outcome. |
| Custody.WalletFallsOnlyByRight | web/src/demo/engine.js:447-493 | A wallet shrinks only by its owner's transfer or burn, or by a spender within the allowance it was given; no bridge burns a user's balance. |
| Custody.AllowanceGrowsOnlyByRight | web/src/demo/engine.js:457-505 | An allowance grows only by its owner's approve or by a permit the owner signed for exactly that grant at the current nonce. |
| Custody.EarningsFallOnlyByClaim | web/src/demo/engine.js:618-626 | A node's earnings fall only when it claims them, by what it claims. |
| Custody.StepSpendsByRight | web/src/demo/engine.js:187-243 | In every step of a run a wallet is debited only by a committed call with the right to it. |
| Movements.CallMovesTokens | web/src/demo/engine.js:429-672 | Double entry: every committed call pays one amount from one holder to one holder, named call by call, or mints or burns it, and moves nobody else's tokens. |
| Movements.CallMovesDeposits | web/src/demo/engine.js:507-616 | Whose deposit every committed call credits and whose it debits, and by how much; nobody else's moves. |
| Movements.CallMovesEarnings | web/src/demo/engine.js:594-626 | Earnings move by settled tickets naming their owner and by the owner's claims, by exactly that much. |
| Movements.EarningsRiseOnlyByTicket | web/src/demo/engine.js:594-607 | Whoever's earnings rise is named as node by a ticket of the settled batch. |
| Movements.CallMovesGrants | web/src/demo/engine.js:457-528 | Every allowance and permit nonce after a committed call: what was granted, what was spent of it, and nothing else. |
| Movements.PermitGoodIff | web/src/demo/engine.js:495-505 | A permit passes if and only if its owner signed exactly it at the current nonce and it is not too late. |
| Movements.CallMovesAuthNonces | web/src/demo/engine.js:541-649 | An authorisation spends exactly one nonce, its signer's; nothing else does. |
| Movements.CallMovesOffChain | web/src/demo/engine.js:793-853 | M-Pesa balances, the float and lost phones after any committed call. |
| Movements.StepMovesEther | web/src/demo/engine.js:187-243 | In every step each actor's ether moves by the gas it pays and by what fundGas sends, exactly. |
| EngineLedger.EntryTells | web/src/demo/engine.js:346-386 | In every run the i-th ledger entry tells the i-th request: caller, call, time, outcome, block, gas and fee; entries are never changed. |
| EngineLedger.RunKeepsFiat | web/src/demo/engine.js:793-812 | Over any run M-Pesa balances and the float add up to what there was. |
| EngineLedger.PermitExecutesOnce | web/src/demo/engine.js:495-528 | One permit signature executes at most once in a run, on its own or with a deposit. |
| EngineLedger.SettingsTakeEffect | web/src/demo/engine.js:421-680 | When the owners' calls commit, and that price, bridge and fee are then what was asked. |
| EngineLedger.OthersKeepFee | web/src/demo/engine.js:674-680 | The fee rate moves only when the treasury is created or its owner sets it. |
| Governance.PriceChangesADayApart | web/src/demo/engine.js:628-636 | In a run two price changes lie at least a day apart and stay within the band. |
| Governance.StepMovesOwners | web/src/demo/engine.js:711-726 | In every step owner and nominee of a contract change only by the owner's nomination and by the nominee's acceptance. |
| Governance.NomineeWasNominated | web/src/demo/engine.js:711-726 | In every run that deploys nothing and starts without a nominee, whoever may accept a contract was nominated by its present owner at an earlier call, and no nomination or acceptance came since. |
| Governance.OwnerChangeWasNominated | web/src/demo/engine.js:711-726 | Every change of owner in such a run is an acceptance by an address that the owner it replaces nominated at an earlier call, with no other nomination or acceptance between. |
| Governance.OwnersOnly | web/src/demo/engine.js:388-388 | Bridge, price, fee and beneficiary queue commit for the contract's owner only, fees within 1000 basis points. |
| Peg.RunShifts | web/src/demo/engine.js:169-175 | Over any run supply less float moves by what was minted and paid out less what was burned and paid in. |
| Peg.MintCommitsIff | web/src/demo/engine.js:213-243 | A kiosk's mint commits if and only if its bridge is listed, the window has room and its ether covers the gas. |
| Peg.BuyKeepsPegIff | web/src/demo/flows.js:54-66 | buy, as two requests of which the second follows only if the first commits, leaves the peg as it was if and only if nothing was bought, the payment did not go through, or the kiosk can mint; else the float is ahead by the amount. |
| Peg.BuyOverCapBreaksPeg | web/src/demo/flows.js:54-66 | After deploying and listing the kiosk, buying one base unit more than the cap is paid for and never minted. |
| Peg.BuyWithoutGasBreaksPeg | web/src/demo/flows.js:54-66 | A kiosk that may mint but has no ether has its mint rejected, and the peg is off by the amount. |
| EngineChain.SameHashSameHistory | web/src/demo/engine.js:317-344 | Two runs with equally many blocks and one last hash made the same transactions block by block, or keccak collides. |
| EngineCalls.SameInputSameCall | web/src/demo/engine.js:288-328 | Equal calldata sent to one target is one call of one function with one argument list, signatures by their bytes, provided the selectors differ. |
| EngineCalls.RunRecords | web/src/demo/engine.js:317-344 | In every run the i-th block records payer, target, calldata, state root and transaction hash of the i-th sealed request, with the count of its payer's earlier ones as nonce. |
| EngineCalls.SameHashSameCalls | web/src/demo/engine.js:288-344 | Two runs with equally many blocks and one last hash sealed the same calls by the same payers in the same order, or keccak collides. |
| Engine.LiveWorld.Create | web/src/demo/engine.js:83-115 | The created world's fields. |
| Engine.LiveWorld.CopyOf | web/src/demo/engine.js:249-255 | A copy equals its original and shares nothing mutable. |
| Engine.LiveWorld.SetBridge | web/src/demo/engine.js:421-427 | Only the owner; allowance and cap change, the window stays. |
| Engine.LiveWorld.BridgeMint | web/src/demo/engine.js:429-445 | Listed bridge, window reset after a day, cap checked, then supply and balance rise. |
| Engine.LiveWorld.BridgeBurn | web/src/demo/engine.js:447-455 | A listed bridge burns its own balance only. |
| Engine.LiveWorld.Move | web/src/demo/engine.js:483-487 | Both balances move, or insufficient balance. |
| Engine.LiveWorld.SpendAllowance | web/src/demo/engine.js:489-493 | The allowance falls, or insufficient allowance. |
| Engine.LiveWorld.TransferFrom | web/src/demo/engine.js:469-474 | Allowance first, then the transfer. |
| Engine.LiveWorld.ApplyPermit | web/src/demo/engine.js:495-505 | Deadline, signer at the current nonce, then nonce and allowance; a failure changes nothing. |
| Engine.LiveWorld.Credit | web/src/demo/engine.js:651-657 | Allowance, transfer to the escrow, deposit credited. |
| Engine.LiveWorld.DepositWithPermit | web/src/demo/engine.js:517-528 | A failing permit is caught and the deposit goes on. |
| Engine.LiveWorld.WithdrawDeposit | web/src/demo/engine.js:530-538 | The client's deposit comes back as tokens. |
| Engine.LiveWorld.SpendAuth | web/src/demo/engine.js:640-649 | Deadline, then signer at the current nonce, then the nonce is spent. |
| Engine.LiveWorld.WithdrawWithSig | web/src/demo/engine.js:541-554 | The signed amount goes to the signed destination. |
| Engine.LiveWorld.TransferDeposit | web/src/demo/engine.js:556-569 | Two deposits change and nothing else. |
| Engine.LiveWorld.SettleOne | web/src/demo/engine.js:576-607 | One ticket checked, recorded, capped by the deposit and credited less its fee. |
| Engine.LiveWorld.SettleTicketBatch | web/src/demo/engine.js:571-616 | The loop over the tickets and the one fee transfer; any failure carries its ticket's error. |
| Engine.LiveWorld.ClaimEarnings | web/src/demo/engine.js:618-626 | Earnings leave to the named destination. |
| Engine.LiveWorld.SetPricePerUnit | web/src/demo/engine.js:628-636 | Owner, band and cooldown, in that order. |
| Engine.LiveWorld.Claim | web/src/demo/engine.js:664-672 | The treasury's whole balance goes to the beneficiary. |
| Engine.LiveWorld.SetFeeBps | web/src/demo/engine.js:674-680 | Owner only, at most 1000. |
| Engine.LiveWorld.QueueBeneficiary | web/src/demo/engine.js:682-688 | Owner only; a new queue restarts the seven days. |
| Engine.LiveWorld.ActivateBeneficiary | web/src/demo/engine.js:690-698 | Pending and due, by anyone. |
| Engine.LiveWorld.CancelBeneficiaryChange | web/src/demo/engine.js:700-707 | Owner or beneficiary. |
| Engine.LiveWorld.SignTicket | web/src/demo/engine.js:736-757 | Device needed; the next sequence number; filed on top. |
| Engine.LiveWorld.StkPush | web/src/demo/engine.js:793-802 | M-Pesa to float, or cancelled, or insufficient. |
| Engine.LiveWorld.B2cPayout | web/src/demo/engine.js:805-812 | Float to M-Pesa, or failed, or short. |
| Engine.LiveWorld.FundGas | web/src/demo/engine.js:856-861 | ETH moves from the kiosk to the named actor. |
| Engine.LiveWorld.Body | web/src/demo/engine.js:420-862 | Any body in place does what its rule says, or fails with the rule's error. |
| Engine.LiveWorld.Finish | web/src/demo/engine.js:346-386 | The entry, and for a mined transaction its nonce and block. |
| Engine.LiveWorld.Attempt | web/src/demo/engine.js:187-224 | The body on a copy; after a revert a fresh copy with only clock and block moved. |
| Engine.LiveWorld.Execute | web/src/demo/engine.js:187-243 | One call is one step: the old world unchanged, the new one committed, rolled back with gas, or rejected. |
| Session.ServeChunk | web/src/demo/flows.js:221-274 | The chunk, its receipt boundaries and signatures, as the loops compute them. |
| Session.ListPoints | web/src/demo/flows.js:244-248 | Every receipt boundary crossed, and the end or throttle point. |
| Session.OpenMeters | web/src/demo/flows.js:170-204 | An opened session starts within its terms: its limit is at most the deposit and the online cap, offline at most the voucher and the offline cap, and equals one of the two. |
| Session.OpenStarts | web/src/demo/flows.js:170-204 | It starts with nothing served, from the larger of the units signed and the units settled, and sets aside the difference at the price of now. |
| Session.CreditNotOverdrawn | web/src/demo/flows.js:207-236 | Right after serving, credit is not negative at the price of now, whatever the price was before. |
| Session.ServeMeters | web/src/demo/flows.js:221-274 | At the price of now serving loses no bytes, signs every boundary it can, and keeps charges within the limit. |
| Session.ServesAllItCan | web/src/demo/flows.js:221-236 | Serving stops short of the chunk asked for only when not one more whole unit fits the credit. |
| Session.ServedBytes | web/src/demo/flows.js:221-236 | What is served is the chunk, the rest of the target, or every whole unit the credit covers. |
| Session.ElapsedNearest | web/src/demo/flows.js:236-238 | The clock moves by the nearest whole second at two megabits a second, and by one at least. |
| SessionCredit.SettlingIsUndisturbed | web/src/demo/engine.js:571-604 | Settling the newest ticket held is among the things that may happen during a session, and takes its worth from a deposit that covers it. |
| SessionCredit.GapWithinLimit | web/src/demo/flows.js:170-236 | While the price never rises and nobody else signs on the channel: online or offline, whoever settles the channel meanwhile, with the deposit drained or the phone gone, a session exposes the node to at most the voucher, or online the deposit it opened on, and at most the cap. |
| SessionCredit.CreditCoversSettlement | web/src/demo/flows.js:170-274 | While the price never rises, falls only before units of the session are settled, and nobody else signs on the channel: an online session that served anything and ended signed holds a ticket that, unexpired and with the deposit lowered by no more than settlements of the channel took, settles in full; something is left to settle unless units of the session were settled. |
| Session.UnsignedWithinInterval | web/src/demo/flows.js:235-266 | Fewer bytes than one interval stay unsigned if and only if the phone can sign or no boundary fell in the chunk. |
| Session.WholeChunkUnsigned | web/src/demo/flows.js:235-266 | Three intervals served to a lost phone, all unsigned. |
| SessionPrice.PriceRiseOutrunsCredit | web/src/demo/flows.js:170-236 | After any price rise the owner is entitled to, a session opened and served for one unit on a deposit of one unit is owed more than its limit, settles for the old price only, and with the deposit withdrawn exposes the node beyond the limit. |
| SessionPrice.PriceFallAfterSettlement | web/src/demo/flows.js:170-274 | For every fall from high to low: on a deposit of high * low, serve low units, settle, let the price fall, and serve up to high units; the ticket is good, worth (high - low) * low, and pays nothing. |
| PayoutTheorems.StepKeeps | gateway-api/app/payout/worker.py:188-355 | Every step keeps rows sound, at most one send per row in the air or waiting, and burns accounted for. |
| PayoutTheorems.RetriesDistinct | gateway-api/app/payout/worker.py:305-307 | The retry list holds retryable rows only, each once, with its attempts. |
| PayoutCallbacks.QueueIsComplete | gateway-api/app/payout/worker.py:305-307 | After a completed poll a row waits for a retry if and only if it failed or timed out. |
| PayoutCallbacks.RetriesInOrder | gateway-api/app/payout/worker.py:124-131 | The retry list is in ledger order. |
| PayoutTheorems.TransferIsRecorded | gateway-api/app/payout/worker.py:188-226 | A transfer seen before changes nothing; a new one gets one row with its figures, ignored, held or pending exactly as sender, receiver and the minimum say, and a request goes out at once exactly for a pending one. |
| PayoutTheorems.FoundIsPayable | gateway-api/app/payout/worker.py:87-99 | A callback never finds an ignored or held row. |
| PayoutCallbacks.FindReaches | gateway-api/app/payout/worker.py:87-99 | The row found bears the conversation id asked for or, only if no row does, the originator id; it is the first such in ledger order, and none is found only if no row bears either. Nothing else meets that description. |
| PayoutCallbacks.StepWritesItsRow | gateway-api/app/payout/worker.py:228-317 | What every operation makes of every row: answers reach the row in the air, exhaustion the head of the retries, callbacks the row with their ids unless settled, and every other row stays as it is. |
| PayoutCallbacks.CallbackSparesOthers | gateway-api/app/payout/worker.py:270-301 | A result or timeout changes no row that bears neither of its ids. |
| PayoutCallbacks.BurnsAreReleased | gateway-api/app/payout/worker.py:270-290 | Over any run a row's burns are the success results that reached it by its own ids while it was not settled. |
| PayoutCallbacks.BurnNamedItsRow | gateway-api/app/payout/worker.py:270-290 | A row that has burned did so on a success result bearing one of the ids it had then. |
| PayoutCallbacks.PaidIsBurned | gateway-api/app/payout/worker.py:228-290 | A send acknowledged under a new id and reported paid under it settles that row and burns its whole KES, and changes no other row. |
| PayoutResults.EveryRunAccounts | gateway-api/app/payout/worker.py:188-317 | A row's burns are its overwritten settlements plus one if settled; each burn is its whole KES; amount and dust make up its value; attempts stay within the maximum. |
| PayoutHistory.BurnsOnceIffNeverOverturned | gateway-api/app/payout/worker.py:228-317 | A row's burns are one if settled plus one for every operation of the loop that wrote to it while settled: equal to settled if and only if there is none, at most one if and only if these add up to at most one. |
| PayoutResults.RunConserves | gateway-api/app/payout/worker.py:270-290 | Total burned is 10^6 times the KES of settled rows and overwritten settlements. |
| PayoutResults.SequentialBurnsOnce | gateway-api/app/payout/worker.py:270-317 | With callbacks between polls no settled row is overwritten and each burns at most once. |
| PayoutResults.SecondBurnExists | gateway-api/app/payout/worker.py:228-290 | A late success during a retry's await lets one row burn twice. |
| PayoutResults.RunPreserves | gateway-api/app/payout/worker.py:188-226 | Rows are never deleted, their transfer never changes, and ignored or held rows never change at all. |
| PayoutResults.OrphanStaysPending | gateway-api/app/payout/worker.py:188-249 | A row left pending with nothing in the air or waiting is never sent, retried or burned again. |
| PayoutHistory.PendingFliesOrIsOrphan | gateway-api/app/payout/worker.py:188-249 | In every run a pending row has its send in the air, or is forgotten by the loop. |
| PayoutHistory.OrphanIffAborted | gateway-api/app/payout/worker.py:188-249 | After any run a row is forgotten while pending if and only if some abort of the run caught its first send. |
| PayoutHistory.AbortForgetsPayout | gateway-api/app/payout/worker.py:188-233 | A payable transfer and an abort before Daraja answers leave such a row. |
| PayoutHistory.SendsBounded | gateway-api/app/payout/worker.py:228-249 | Requests sent for a row are its attempts, the one in the air and those aborted: at most max_attempts plus the aborted. |
| PollCoverage.PollsCover | gateway-api/app/payout/worker.py:343-355 | Completed polls tile the blocks up to the cursor and every log in them has its row, whatever aborted. |
| PayoutCallbacks.PollWindow | gateway-api/app/payout/worker.py:343-350 | A poll scans if and only if the head is past the cursor: on from the cursor, or the last span blocks without one, up to the head or span blocks on, whichever comes first. |
| PollCoverage.TilesCoverBlock | gateway-api/app/payout/worker.py:343-353 | A covered block lies in exactly one window. |
| PollCoverage.CoveredLogHasItsRow | gateway-api/app/payout/worker.py:188-226 | A covered log has one row, which records it: its sender and value, and ignored, held or payable as they say. |
| PayoutWorkers.PayoutWorker.HandleTransfer | gateway-api/app/payout/worker.py:188-226 | Duplicate, ignored, held or pending with its send started. |
| PayoutWorkers.PayoutWorker.FinishSend | gateway-api/app/payout/worker.py:228-249 | The answer to a send overwrites its row. |
| PayoutWorkers.PayoutWorker.Lookup | gateway-api/app/payout/worker.py:87-99 | The first row bearing the conversation id, only if there is none the first bearing the originator id, and none only if no row bears either. |
| PayoutWorkers.PayoutWorker.HandleResult | gateway-api/app/payout/worker.py:270-290 | Burn and settle on success, fail otherwise, nothing if settled or unknown. |
| PayoutWorkers.PayoutWorker.HandleTimeout | gateway-api/app/payout/worker.py:292-301 | Timed out unless settled or unknown. |
| PayoutWorkers.PayoutWorker.ListRetries | gateway-api/app/payout/worker.py:305-307 | The retryable rows in ledger order. |
| PayoutWorkers.PayoutWorker.RetryNext | gateway-api/app/payout/worker.py:307-316 | Exhausted at the maximum, else sent again. |
| PayoutWorkers.PayoutWorker.StartPoll | gateway-api/app/payout/worker.py:343-350 | The window after the cursor, or behind the head, and its logs. |
| PayoutWorkers.PayoutWorker.EndPoll | gateway-api/app/payout/worker.py:353-354 | The cursor moves to the window's end and the retry list is read. |

## Left out

- Real cryptography (keccak256, secp256k1, Ed25519, SHA-256): parameters and ideal signatures, see above.
- `web/src/demo/crypto.js` hex text, EIP-55 checksums and demo keys: bytes and actors stand for them.
- Amounts below zero or with fractions, and `NaN` entries for unknown names: the demo's callers pass whole numbers.
- `claim` before the treasury exists: the source would write an undefined key, the model fails the call.
- Fee rates above 10,000 basis points in the deployment parameters: `setFeeBps` enforces 1,000, the constructor nothing.
- `gasSpent`, KES and USD figures, events, notes, diffs, titles and timings of ledger entries: they report, nothing reads them back.
- `payer` of a call: no call passes one, so the caller pays.
- Vouchers, `signPermit` and `signAuth` as ledger steps: they change no state the rules read; signatures are arbitrary inputs of runs.
- Composite journeys of `flows.js` other than `buy`, `relayBatch` and the session, and the drills: sequences of modelled calls.
- A session before the escrow has a price: the source divides by zero.
- Sessions on whose channel the client signs other tickets while they run: covered only by `Session.CreditNotOverdrawn`.
- The concrete runs of `Setup`, `RollingCap`, `Peg` and `EscrowSurplus` start from fresh worlds with cheap gas and 0.01 ETH.
- `EngineCalls`: four-byte selectors of the table are taken to be different, as they are under keccak256; a creation's code
  and an ether transfer's amount are in no calldata, and a deposit with permit does not show what the permit grants.
- `first_ack_hook`, traces, byte and airtime counters of mediums: they observe, nothing reads them back.
- Serving nodes without a kiosk key, tampered join payloads, clients that never joined: one admitted client and one serving node.
- Sequence numbers past 2^32, where the simulator's `struct` would raise.
- `heapq` internals: the event bag is a sequence whose earliest entry is chosen by time and order.
- The MTU bound of `TransportTheorems.ReceiptWindow` is a parameter not below 128 and any medium's MTU.
- ABI `string`, fixed-size arrays and short `bytes32` values, and lists longer than 2^256 bytes.
- The payout worker's text normalisation (lower-casing, error texts, timestamps), its pin check and Daraja's messages.
- What a B2C request says (number, amount, remarks) and the receipt a burn carries: a send is known by its row.
- Two payout loops at once, or callbacks from another process in the middle of a ledger update.
- A burn transaction that raises after it was broadcast: `burned` is false only if nothing was burned.
- Solidity contracts, firmware, gateway routes, order book, website, hardware: not part of this model.

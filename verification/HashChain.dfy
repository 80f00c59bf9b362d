/**
 The simplified chain of web/src/demo/chain.js. keccak256 is a parameter: any function from byte strings to
 32 bytes. Where a hash comparison could be fooled, the conclusion names the two byte strings that collide.
 */
module HashChain {
  import opened Bytes

  type Keccak = bytes -> bytes

  ghost predicate Hashes32(keccak: Keccak) { forall x :: |keccak(x)| == 32 }

  predicate Collide(keccak: Keccak, x: bytes, y: bytes) { x != y && keccak(x) == keccak(y) }

  /** uintWord: 32 bytes, the value modulo 2^256. */
  function UintWord(v: nat): (w: bytes)
    ensures |w| == 32
  {
    BE(v, 32)
  }

  datatype Recipient = Creation | Address(bytes: bytes)

  datatype Tx = Tx(hash: bytes, from: bytes, to: Recipient, nonce: nat, input: bytes)

  datatype Block = Block(number: nat, timestamp: nat, parentHash: bytes, txHash: bytes, stateRoot: bytes,
                         hash: bytes, tx: Tx)

  const ZERO32: bytes := Zeros(32)
  const ZERO20: bytes := Zeros(20)

  function ToBytes(to: Recipient): bytes { if to.Address? then to.bytes else ZERO20 }

  function TxPreimage(tx: Tx): bytes { tx.from + ToBytes(tx.to) + UintWord(tx.nonce) + tx.input }

  function HeaderPreimage(b: Block): bytes {
    b.parentHash + UintWord(b.number) + UintWord(b.timestamp) + b.txHash + b.stateRoot
  }

  function TxHashOf(keccak: Keccak, tx: Tx): bytes { keccak(TxPreimage(tx)) }
  function BlockHashOf(keccak: Keccak, b: Block): bytes { keccak(HeaderPreimage(b)) }

  /** The widths the engine seals with. */
  ghost predicate Sized(b: Block) {
    && |b.tx.from| == 20 && |ToBytes(b.tx.to)| == 20 && b.tx.nonce < Pow256(32)
    && |b.parentHash| == 32 && b.number < Pow256(32) && b.timestamp < Pow256(32)
    && |b.txHash| == 32 && |b.stateRoot| == 32
  }

  datatype Row = Row(number: nat, tx: bool, header: bool, link: bool) {
    predicate Ok() { tx && header && link }
  }

  function ParentOf(blocks: seq<Block>, i: nat): bytes
    requires i <= |blocks|
  {
    if i == 0 then ZERO32 else blocks[i - 1].hash
  }

  function RowOf(keccak: Keccak, blocks: seq<Block>, i: nat): Row
    requires i < |blocks|
  {
    var b := blocks[i];
    Row(b.number, TxHashOf(keccak, b.tx) == b.txHash, BlockHashOf(keccak, b) == b.hash, b.parentHash == ParentOf(blocks, i))
  }

  function Verify(keccak: Keccak, blocks: seq<Block>): (rows: seq<Row>)
    ensures |rows| == |blocks|
    ensures forall i :: 0 <= i < |blocks| ==> rows[i] == RowOf(keccak, blocks, i)
  {
    seq(|blocks|, i requires 0 <= i < |blocks| => RowOf(keccak, blocks, i))
  }

  ghost predicate Verified(keccak: Keccak, blocks: seq<Block>) {
    forall i :: 0 <= i < |blocks| ==> RowOf(keccak, blocks, i).Ok()
  }

  // ------------------------------------------------------------------ layouts

  lemma UintWordInjective(v: nat, w: nat)
    requires v < Pow256(32) && w < Pow256(32) && UintWord(v) == UintWord(w)
    ensures v == w
  {
    BEValueOfBE(v, 32);
    BEValueOfBE(w, 32);
  }

  /** The transaction preimage determines every field it holds. */
  lemma TxLayoutInjective(a: Block, b: Block)
    requires Sized(a) && Sized(b) && TxPreimage(a.tx) == TxPreimage(b.tx)
    ensures a.tx.from == b.tx.from && ToBytes(a.tx.to) == ToBytes(b.tx.to)
    ensures a.tx.nonce == b.tx.nonce && a.tx.input == b.tx.input
  {
    var x, y := a.tx, b.tx;
    ConcatInjective(x.from + ToBytes(x.to) + UintWord(x.nonce), x.input, y.from + ToBytes(y.to) + UintWord(y.nonce), y.input);
    ConcatInjective(x.from + ToBytes(x.to), UintWord(x.nonce), y.from + ToBytes(y.to), UintWord(y.nonce));
    ConcatInjective(x.from, ToBytes(x.to), y.from, ToBytes(y.to));
    UintWordInjective(x.nonce, y.nonce);
  }

  lemma HeaderLayoutInjective(a: Block, b: Block)
    requires Sized(a) && Sized(b) && HeaderPreimage(a) == HeaderPreimage(b)
    ensures a.parentHash == b.parentHash && a.number == b.number && a.timestamp == b.timestamp
    ensures a.txHash == b.txHash && a.stateRoot == b.stateRoot
  {
    var an, at, bn, bt := UintWord(a.number), UintWord(a.timestamp), UintWord(b.number), UintWord(b.timestamp);
    ConcatInjective(a.parentHash + an + at + a.txHash, a.stateRoot, b.parentHash + bn + bt + b.txHash, b.stateRoot);
    ConcatInjective(a.parentHash + an + at, a.txHash, b.parentHash + bn + bt, b.txHash);
    ConcatInjective(a.parentHash + an, at, b.parentHash + bn, bt);
    ConcatInjective(a.parentHash, an, b.parentHash, bn);
    UintWordInjective(a.number, b.number);
    UintWordInjective(a.timestamp, b.timestamp);
  }

  /** Where the fields stand in what is hashed: payer, target, nonce and calldata; 20 + 20 + 32 bytes, then the rest. */
  lemma TxLayout(b: Block)
    requires Sized(b)
    ensures var p := TxPreimage(b.tx);
            && p[..20] == b.tx.from && p[20..40] == ToBytes(b.tx.to) && BEValue(p[40..72]) == b.tx.nonce && p[72..] == b.tx.input
            && (b.tx.to == Creation ==> p[20..40] == Zeros(20))
  {
    var p := TxPreimage(b.tx);
    BEValueOfBE(b.tx.nonce, 32);
    assert p[40..72] == UintWord(b.tx.nonce);
  }

  /** And of a header: parent, number, time, transaction hash and state root, 32 bytes each. */
  lemma HeaderLayout(b: Block)
    requires Sized(b)
    ensures var p := HeaderPreimage(b);
            && |p| == 160 && p[..32] == b.parentHash && BEValue(p[32..64]) == b.number && BEValue(p[64..96]) == b.timestamp
            && p[96..128] == b.txHash && p[128..] == b.stateRoot
  {
    var p := HeaderPreimage(b);
    BEValueOfBE(b.number, 32);
    BEValueOfBE(b.timestamp, 32);
    assert p[32..64] == UintWord(b.number) && p[64..96] == UintWord(b.timestamp);
  }

  // ------------------------------------------------------------------ commitment

  /** Agreement on everything a block's hash commits to. */
  ghost predicate SameCommitted(a: Block, b: Block) {
    && a.number == b.number && a.timestamp == b.timestamp && a.parentHash == b.parentHash
    && a.stateRoot == b.stateRoot && a.txHash == b.txHash && a.hash == b.hash
    && a.tx.from == b.tx.from && ToBytes(a.tx.to) == ToBytes(b.tx.to)
    && a.tx.nonce == b.tx.nonce && a.tx.input == b.tx.input
  }

  ghost predicate CollisionAt(keccak: Keccak, a: Block, b: Block) {
    Collide(keccak, TxPreimage(a.tx), TxPreimage(b.tx)) || Collide(keccak, HeaderPreimage(a), HeaderPreimage(b))
  }

  lemma SameHashSameBlock(keccak: Keccak, a: Block, b: Block)
    requires Sized(a) && Sized(b) && a.hash == b.hash
    requires BlockHashOf(keccak, a) == a.hash && BlockHashOf(keccak, b) == b.hash
    requires TxHashOf(keccak, a.tx) == a.txHash && TxHashOf(keccak, b.tx) == b.txHash
    ensures SameCommitted(a, b) || CollisionAt(keccak, a, b)
  {
    if HeaderPreimage(a) == HeaderPreimage(b) {
      HeaderLayoutInjective(a, b);
      if TxPreimage(a.tx) == TxPreimage(b.tx) {
        TxLayoutInjective(a, b);
      }
    }
  }

  /**
   Two verified chains of one length that end in one hash agree, block by block, on every committed field, or some
   pair of blocks at one height exhibits two different byte strings with one keccak.
   */
  lemma {:induction false} LastHashCommits(keccak: Keccak, a: seq<Block>, b: seq<Block>)
    requires |a| == |b| > 0 && a[|a| - 1].hash == b[|b| - 1].hash
    requires Verified(keccak, a) && Verified(keccak, b)
    requires forall i :: 0 <= i < |a| ==> Sized(a[i]) && Sized(b[i])
    ensures || (forall i :: 0 <= i < |a| ==> SameCommitted(a[i], b[i]))
            || (exists i :: 0 <= i < |a| && CollisionAt(keccak, a[i], b[i]))
  {
    var n := |a| - 1;
    assert RowOf(keccak, a, n).Ok() && RowOf(keccak, b, n).Ok();
    SameHashSameBlock(keccak, a[n], b[n]);
    if n > 0 && !CollisionAt(keccak, a[n], b[n]) {
      PrefixVerified(keccak, a);
      PrefixVerified(keccak, b);
      LastHashCommits(keccak, a[..n], b[..n]);
      AgreementExtends(keccak, a, b);
    }
  }

  /**
   What verify tells its reader. Against a sound chain that shows the same block hashes, a row passes if its block is the
   sound one in every committed field, and fails if it is not, unless keccak collides: the failing rows are exactly the
   altered blocks.
   */
  lemma FailingRowsAreAltered(keccak: Keccak, sound: seq<Block>, shown: seq<Block>, i: nat)
    requires Verified(keccak, sound) && |sound| == |shown| && i < |shown|
    requires forall j :: 0 <= j < |shown| ==> shown[j].hash == sound[j].hash
    requires Sized(sound[i]) && Sized(shown[i])
    ensures |Verify(keccak, shown)| == |shown| && Verify(keccak, shown)[i].number == shown[i].number
    ensures SameCommitted(sound[i], shown[i]) ==> Verify(keccak, shown)[i].Ok()
    ensures Verify(keccak, shown)[i].Ok() ==> SameCommitted(sound[i], shown[i]) || CollisionAt(keccak, sound[i], shown[i])
  {
    assert RowOf(keccak, sound, i).Ok();
    assert ParentOf(shown, i) == ParentOf(sound, i);
    if Verify(keccak, shown)[i].Ok() {
      SameHashSameBlock(keccak, sound[i], shown[i]);
    }
  }

  lemma PrefixVerified(keccak: Keccak, a: seq<Block>)
    requires Verified(keccak, a) && |a| > 0
    ensures Verified(keccak, a[..|a| - 1])
  {
    var x := a[..|a| - 1];
    forall i | 0 <= i < |x|
      ensures RowOf(keccak, x, i).Ok()
    {
      assert RowOf(keccak, a, i).Ok();
    }
  }

  lemma AgreementExtends(keccak: Keccak, a: seq<Block>, b: seq<Block>)
    requires |a| == |b| > 0 && SameCommitted(a[|a| - 1], b[|a| - 1])
    requires var x, y := a[..|a| - 1], b[..|a| - 1];
             || (forall i :: 0 <= i < |x| ==> SameCommitted(x[i], y[i]))
             || (exists i :: 0 <= i < |x| && CollisionAt(keccak, x[i], y[i]))
    ensures || (forall i :: 0 <= i < |a| ==> SameCommitted(a[i], b[i]))
            || (exists i :: 0 <= i < |a| && CollisionAt(keccak, a[i], b[i]))
  {
    var x, y := a[..|a| - 1], b[..|a| - 1];
    if i :| 0 <= i < |x| && CollisionAt(keccak, x[i], y[i]) {
      assert CollisionAt(keccak, a[i], b[i]);
    } else {
      assert forall i :: 0 <= i < |x| ==> SameCommitted(x[i], y[i]) && x[i] == a[i] && y[i] == b[i];
    }
  }

  // ------------------------------------------------------------------ tampering and re-hashing

  function WithInput(b: Block, input: bytes): Block { b.(tx := b.tx.(input := input)) }

  /** Changing the calldata of block i shows in the tx check of row i and nowhere else. */
  lemma TamperLocalised(keccak: Keccak, blocks: seq<Block>, i: nat, input: bytes)
    requires Verified(keccak, blocks) && i < |blocks| && input != blocks[i].tx.input
    ensures var bad := blocks[i := WithInput(blocks[i], input)];
            forall j :: 0 <= j < |blocks| ==>
              var row := RowOf(keccak, bad, j);
              && row.header && row.link
              && (row.tx <==> j != i || Collide(keccak, TxPreimage(blocks[i].tx), TxPreimage(bad[i].tx)))
  {
    var bad := blocks[i := WithInput(blocks[i], input)];
    InputChangesPreimage(blocks[i].tx, input);
    forall j | 0 <= j < |blocks|
      ensures var row := RowOf(keccak, bad, j);
              && row.header && row.link
              && (row.tx <==> j != i || Collide(keccak, TxPreimage(blocks[i].tx), TxPreimage(bad[i].tx)))
    {
      assert RowOf(keccak, blocks, j).Ok();
      assert ParentOf(bad, j) == ParentOf(blocks, j);
    }
  }

  lemma InputChangesPreimage(tx: Tx, input: bytes)
    requires input != tx.input
    ensures TxPreimage(tx) != TxPreimage(tx.(input := input))
  {
    var head := tx.from + ToBytes(tx.to) + UintWord(tx.nonce);
    if head + tx.input == head + input {
      ConcatInjective(head, tx.input, head, input);
    }
  }

  /** One turn of rehash: recompute block k, linking it to its predecessor except at the first. */
  function Refreshed(keccak: Keccak, blocks: seq<Block>, k: nat, first: nat): Block
    requires first <= k < |blocks|
  {
    var txHash := TxHashOf(keccak, blocks[k].tx);
    var b := blocks[k].(txHash := txHash, tx := blocks[k].tx.(hash := txHash),
                        parentHash := if k > first then blocks[k - 1].hash else blocks[k].parentHash);
    b.(hash := BlockHashOf(keccak, b))
  }

  function RehashSpan(keccak: Keccak, blocks: seq<Block>, first: nat, k: nat, end: nat): (out: seq<Block>)
    requires first <= k <= end <= |blocks|
    ensures |out| == |blocks|
    decreases end - k
  {
    if k == end then blocks
    else RehashSpan(keccak, blocks[k := Refreshed(keccak, blocks, k, first)], first, k + 1, end)
  }

  method Rehash(keccak: Keccak, blocks: seq<Block>, i: nat, onlyThis: bool) returns (out: seq<Block>)
    requires i < |blocks|
    ensures out == RehashSpan(keccak, blocks, i, i, if onlyThis then i + 1 else |blocks|)
  {
    out := blocks;
    var last := if onlyThis then i else |out| - 1;
    var k := i;
    while k <= last
      invariant i <= k <= last + 1 && |out| == |blocks|
      invariant RehashSpan(keccak, out, i, k, last + 1) == RehashSpan(keccak, blocks, i, i, last + 1)
    {
      var b := out[k];
      b := b.(txHash := TxHashOf(keccak, b.tx));
      b := b.(tx := b.tx.(hash := b.txHash));
      if k > i {
        b := b.(parentHash := out[k - 1].hash);
      }
      b := b.(hash := BlockHashOf(keccak, b));
      out := out[k := b];
      k := k + 1;
    }
  }

  /** What re-hashing a span leaves: untouched outside, and inside every row verifies. */
  lemma {:induction false} SpanVerifies(keccak: Keccak, blocks: seq<Block>, first: nat, k: nat, end: nat)
    requires first <= k <= end <= |blocks| && first < |blocks|
    requires forall j :: 0 <= j < k ==> RowOf(keccak, blocks, j).Ok()
    requires blocks[first].parentHash == ParentOf(blocks, first)
    ensures var out := RehashSpan(keccak, blocks, first, k, end);
            && (forall j :: 0 <= j < end ==> RowOf(keccak, out, j).Ok())
            && (forall j :: 0 <= j < |blocks| && !(k <= j < end) ==> out[j] == blocks[j])
            && (forall j :: k <= j < end ==> out[j].tx.(hash := blocks[j].tx.hash) == blocks[j].tx
                                              && out[j].tx.hash == out[j].txHash && out[j].number == blocks[j].number
                                              && out[j].timestamp == blocks[j].timestamp
                                              && out[j].stateRoot == blocks[j].stateRoot)
    decreases end - k
  {
    if k < end {
      var next := blocks[k := Refreshed(keccak, blocks, k, first)];
      RefreshedRows(keccak, blocks, first, k);
      SpanVerifies(keccak, next, first, k + 1, end);
    }
  }

  lemma RefreshedRows(keccak: Keccak, blocks: seq<Block>, first: nat, k: nat)
    requires first <= k < |blocks| && (forall j :: 0 <= j < k ==> RowOf(keccak, blocks, j).Ok())
    requires blocks[first].parentHash == ParentOf(blocks, first)
    ensures var next := blocks[k := Refreshed(keccak, blocks, k, first)];
            forall j :: 0 <= j < k + 1 ==> RowOf(keccak, next, j).Ok()
  {
    var next := blocks[k := Refreshed(keccak, blocks, k, first)];
    forall j | 0 <= j < k + 1
      ensures RowOf(keccak, next, j).Ok()
    {
      if j < k {
        assert RowOf(keccak, blocks, j).Ok();
      }
      assert ParentOf(next, j) == ParentOf(blocks, j);
    }
  }

  /** Re-hashing from block i on makes any chain that was sound before i verify again, with the same contents. */
  lemma RehashAllVerifies(keccak: Keccak, blocks: seq<Block>, i: nat)
    requires i < |blocks| && (forall j :: 0 <= j < i ==> RowOf(keccak, blocks, j).Ok())
    requires blocks[i].parentHash == ParentOf(blocks, i)
    ensures var out := RehashSpan(keccak, blocks, i, i, |blocks|);
            && Verified(keccak, out)
            && (forall j :: 0 <= j < |blocks| ==> out[j].tx.input == blocks[j].tx.input)
            && (forall j :: 0 <= j < i ==> out[j] == blocks[j])
  {
    SpanVerifies(keccak, blocks, i, i, |blocks|);
  }

  /**
   Re-hashing only the tampered block i: its own row verifies again, and exactly the link of row i + 1 fails, unless
   the new hash equals the old one, which takes a collision.
   */
  lemma RehashOneMovesTheFailure(keccak: Keccak, blocks: seq<Block>, i: nat, input: bytes)
    requires Verified(keccak, blocks) && i < |blocks| && input != blocks[i].tx.input
    requires Sized(blocks[i]) && Hashes32(keccak)
    ensures var bad := blocks[i := WithInput(blocks[i], input)];
            var out := RehashSpan(keccak, bad, i, i, i + 1);
            && (forall j :: 0 <= j < |blocks| ==> RowOf(keccak, out, j).tx && RowOf(keccak, out, j).header)
            && (forall j :: 0 <= j < |blocks| && j != i + 1 ==> RowOf(keccak, out, j).link)
            && (i + 1 < |blocks| ==> (RowOf(keccak, out, i + 1).link <==> out[i].hash == blocks[i].hash))
            && (out[i].hash == blocks[i].hash ==> CollisionAt(keccak, blocks[i], out[i]))
  {
    var bad := blocks[i := WithInput(blocks[i], input)];
    var out := RehashSpan(keccak, bad, i, i, i + 1);
    var once := bad[i := Refreshed(keccak, bad, i, i)];
    assert RehashSpan(keccak, once, i, i + 1, i + 1) == once;
    assert out == once;
    forall j | 0 <= j < |blocks|
      ensures RowOf(keccak, out, j).tx && RowOf(keccak, out, j).header
      ensures j != i + 1 ==> RowOf(keccak, out, j).link
    {
      assert RowOf(keccak, blocks, j).Ok();
      assert j != i + 1 ==> ParentOf(out, j) == ParentOf(blocks, j);
    }
    if i + 1 < |blocks| {
      assert RowOf(keccak, blocks, i + 1).Ok();
    }
    if out[i].hash == blocks[i].hash {
      assert RowOf(keccak, blocks, i).Ok();
      SameHashSameBlock(keccak, blocks[i], out[i]);
    }
  }

  // ------------------------------------------------------------------ the tamper button

  /** Hex digits of a byte string, two per byte: the text the search runs over. */
  function Digits(s: bytes): (d: seq<int>)
    ensures |d| == 2 * |s|
  {
    if s == [] then []
    else
      var n := |s| - 1;
      Digits(s[..n]) + [s[n] / 16, s[n] % 16]
  }

  lemma {:induction false} DigitsOfByte(s: bytes, k: nat)
    requires k < |s|
    ensures Digits(s)[2 * k] == s[k] / 16 && Digits(s)[2 * k + 1] == s[k] % 16
  {
    if k < |s| - 1 {
      DigitsOfByte(s[..|s| - 1], k);
    }
  }

  predicate FoundAt(text: seq<int>, word: seq<int>, p: int) {
    0 <= p && p + |word| <= |text| && text[p..p + |word|] == word
  }

  ghost predicate FirstAt(text: seq<int>, word: seq<int>, p: int) {
    FoundAt(text, word, p) && forall q :: 0 <= q < p ==> !FoundAt(text, word, q)
  }

  /** What indexOf returns: the first occurrence, at any digit, or -1. */
  ghost predicate Located(text: seq<int>, word: seq<int>, at: int) {
    if at >= 0 then FirstAt(text, word, at) else at == -1 && forall p :: !FoundAt(text, word, p)
  }

  /** String.indexOf. */
  method IndexOf(text: seq<int>, word: seq<int>) returns (at: int)
    ensures Located(text, word, at)
  {
    at := 0;
    while at + |word| <= |text|
      invariant forall p :: 0 <= p < at ==> !FoundAt(text, word, p)
    {
      if text[at..at + |word|] == word {
        return;
      }
      at := at + 1;
    }
    at := -1;
  }

  /** The calldata without its last byte, and that byte with every bit flipped. */
  function LastByteFlipped(input: bytes): bytes {
    if input == [] then [255] else input[..|input| - 1] + [255 - input[|input| - 1]]
  }

  /** The word of one amount, at a word boundary of the calldata body, became the word of another. */
  ghost predicate WordSwapped(input: bytes, changed: bytes, at: nat, x: nat, y: nat) {
    && 4 + at + 32 <= |input| && at % 32 == 0
    && input[4 + at..4 + at + 32] == UintWord(x)
    && changed == input[..4 + at] + UintWord(y) + input[4 + at + 32..]
  }

  /** The calldata after the selector. */
  function BodyOf(input: bytes): bytes { if |input| >= 4 then input[4..] else [] }

  /** tamper on calldata: the amount's first occurrence is replaced if it stands on a word boundary, else the last byte flips. */
  ghost predicate AmountChanged(input: bytes, changed: bytes, x: nat, y: nat) {
    var text, word := Digits(BodyOf(input)), Digits(UintWord(x));
    if exists p :: FirstAt(text, word, p) && p % 64 == 0
    then exists p :: FirstAt(text, word, p) && WordSwapped(input, changed, p / 2, x, y)
    else changed == LastByteFlipped(input)
  }

  lemma Spliced(input: bytes, k: nat, x: nat, y: nat, changed: bytes)
    requires FoundAt(Digits(BodyOf(input)), Digits(UintWord(x)), 2 * k) && k % 32 == 0 && |input| >= 4
    requires k + 32 <= |BodyOf(input)|
    requires changed == input[..4] + BodyOf(input)[..k] + UintWord(y) + BodyOf(input)[k + 32..]
    ensures WordSwapped(input, changed, k, x, y)
  {
    DigitsAt(BodyOf(input), UintWord(x), k);
    BodySlices(input, BodyOf(input), k, UintWord(y));
  }

  lemma WordFits(input: bytes, k: nat, x: nat)
    requires FoundAt(Digits(BodyOf(input)), Digits(UintWord(x)), 2 * k)
    ensures k + 32 <= |BodyOf(input)| && |input| >= 4
  {
    DigitsAt(BodyOf(input), UintWord(x), k);
  }

  lemma FirstIsOne(text: seq<int>, word: seq<int>, p: int, q: int)
    requires FirstAt(text, word, p) && FirstAt(text, word, q) && 0 <= p && 0 <= q
    ensures p == q
  {}

  lemma SplicedChange(input: bytes, changed: bytes, x: nat, y: nat, k: nat)
    requires FirstAt(Digits(BodyOf(input)), Digits(UintWord(x)), 2 * k) && WordSwapped(input, changed, k, x, y)
    ensures AmountChanged(input, changed, x, y)
  {
    assert (2 * k) / 2 == k && (2 * k) % 64 == 0;
  }

  lemma FlippedChange(input: bytes, x: nat, y: nat)
    requires forall p :: FirstAt(Digits(BodyOf(input)), Digits(UintWord(x)), p) ==> p % 64 != 0
    ensures AmountChanged(input, LastByteFlipped(input), x, y)
  {}

  lemma OffBoundary(text: seq<int>, word: seq<int>, at: int)
    requires Located(text, word, at) && (at >= 0 ==> at % 64 != 0)
    ensures forall p :: FirstAt(text, word, p) ==> p % 64 != 0
  {
    forall p | FirstAt(text, word, p)
      ensures p % 64 != 0
    {
      if p >= 0 {
        FirstIsOne(text, word, at, p);
      }
    }
  }

  /** The word found at digit `at`, on a boundary: where its bytes are. */
  lemma OnBoundary(input: bytes, x: nat, at: int, k: nat)
    requires Located(Digits(BodyOf(input)), Digits(UintWord(x)), at) && at >= 0 && at % 64 == 0 && k == at / 2
    ensures FirstAt(Digits(BodyOf(input)), Digits(UintWord(x)), 2 * k) && k % 32 == 0
    ensures k + 32 <= |BodyOf(input)| && |input| >= 4
  {
    WordFits(input, k, x);
  }

  lemma AmountReplaced(input: bytes, body: bytes, x: nat, y: nat, k: nat, changed: bytes)
    requires body == BodyOf(input) && FirstAt(Digits(body), Digits(UintWord(x)), 2 * k) && k % 32 == 0
    requires |input| >= 4 && k + 32 <= |body| && changed == input[..4] + body[..k] + UintWord(y) + body[k + 32..]
    ensures AmountChanged(input, changed, x, y)
  {
    Spliced(input, k, x, y, changed);
    SplicedChange(input, changed, x, y, k);
  }

  /** The search and the replacement of tamper, on calldata bytes. */
  method ChangeAmount(input: bytes, x: nat, y: nat) returns (changed: bytes)
    ensures AmountChanged(input, changed, x, y)
  {
    var body := BodyOf(input);
    var at := IndexOf(Digits(body), Digits(UintWord(x)));
    if at < 0 || at % 64 != 0 {
      OffBoundary(Digits(body), Digits(UintWord(x)), at);
      FlippedChange(input, x, y);
      return LastByteFlipped(input);
    }
    var k: nat := at / 2;
    OnBoundary(input, x, at, k);
    changed := input[..4] + body[..k] + UintWord(y) + body[k + 32..];
    AmountReplaced(input, body, x, y, k, changed);
  }

  lemma BodySlices(input: bytes, body: bytes, k: nat, word: bytes)
    requires |input| >= 4 && body == input[4..] && k + 32 <= |body|
    ensures input[..4] + body[..k] + word + body[k + 32..] == input[..4 + k] + word + input[4 + k + 32..]
    ensures body[k..k + 32] == input[4 + k..4 + k + 32]
  {}

  /**
   tamper: replace the first occurrence of the amount's word in the body if it starts at a word boundary, otherwise
   flip the last byte. Either way the calldata of block i, and only that, is different afterwards.
   */
  method Tamper(blocks: seq<Block>, i: nat, fromAmount: nat, toAmount: nat) returns (out: seq<Block>)
    requires i < |blocks|
    ensures |out| == |blocks| && out == blocks[i := WithInput(blocks[i], out[i].tx.input)]
    ensures AmountChanged(blocks[i].tx.input, out[i].tx.input, fromAmount, toAmount)
    ensures fromAmount < Pow256(32) && toAmount < Pow256(32) && fromAmount != toAmount ==>
              out[i].tx.input != blocks[i].tx.input
  {
    var input := blocks[i].tx.input;
    var changed := ChangeAmount(input, fromAmount, toAmount);
    FlipChanges(input);
    SwapChanges(input, changed, fromAmount, toAmount);
    out := blocks[i := WithInput(blocks[i], changed)];
  }

  lemma FlipChanges(input: bytes)
    ensures LastByteFlipped(input) != input
  {
    if input != [] {
      assert LastByteFlipped(input)[|input| - 1] != input[|input| - 1];
    }
  }

  lemma SwapChanges(input: bytes, changed: bytes, x: nat, y: nat)
    requires x < Pow256(32) && y < Pow256(32) && x != y ==>
               changed == LastByteFlipped(input) || exists at: nat :: WordSwapped(input, changed, at, x, y)
    ensures x < Pow256(32) && y < Pow256(32) && x != y ==> changed != input
  {
    FlipChanges(input);
    if x < Pow256(32) && y < Pow256(32) && x != y && changed != LastByteFlipped(input) {
      var at: nat :| WordSwapped(input, changed, at, x, y);
      assert changed[4 + at..4 + at + 32] == UintWord(y);
      if UintWord(x) == UintWord(y) {
        UintWordInjective(x, y);
      }
    }
  }

  lemma {:induction false} SliceAt<T>(d: seq<T>, p: nat, w: seq<T>, j: nat)
    requires p + |w| <= |d| && d[p..p + |w|] == w && j < |w|
    ensures d[p + j] == w[j]
  {}

  /** Digit strings at an even position are byte strings at half of it. */
  lemma {:induction false} DigitsAt(body: bytes, word: bytes, k: nat)
    requires FoundAt(Digits(body), Digits(word), 2 * k)
    ensures k + |word| <= |body| && body[k..k + |word|] == word
  {
    forall j | 0 <= j < |word|
      ensures body[k + j] == word[j]
    {
      DigitAt(body, word, k, j);
    }
  }

  lemma {:induction false} DigitAt(body: bytes, word: bytes, k: nat, j: nat)
    requires FoundAt(Digits(body), Digits(word), 2 * k) && j < |word|
    ensures k + j < |body| && body[k + j] == word[j]
  {
    var d, w := Digits(body), Digits(word);
    SliceAt(d, 2 * k, w, 2 * j);
    SliceAt(d, 2 * k, w, 2 * j + 1);
    DigitsOfByte(body, k + j);
    DigitsOfByte(word, j);
  }

  // ------------------------------------------------------------------ sealing

  /** The block engine.js seals for one transaction, linked to the last block. */
  function Sealed(keccak: Keccak, blocks: seq<Block>, number: nat, timestamp: nat, tx: Tx, stateRoot: bytes): Block {
    var txHash := TxHashOf(keccak, tx);
    var b := Block(number, timestamp, ParentOf(blocks, |blocks|), txHash, stateRoot, [], tx.(hash := txHash));
    b.(hash := BlockHashOf(keccak, b))
  }

  /** Sealing extends a verified chain to a verified chain. */
  lemma SealVerifies(keccak: Keccak, blocks: seq<Block>, number: nat, timestamp: nat, tx: Tx, stateRoot: bytes)
    requires Verified(keccak, blocks)
    ensures Verified(keccak, blocks + [Sealed(keccak, blocks, number, timestamp, tx, stateRoot)])
  {
    var b := Sealed(keccak, blocks, number, timestamp, tx, stateRoot);
    var out := blocks + [b];
    forall i | 0 <= i < |out|
      ensures RowOf(keccak, out, i).Ok()
    {
      if i < |blocks| {
        assert RowOf(keccak, blocks, i).Ok();
        assert ParentOf(out, i) == ParentOf(blocks, i);
      }
    }
  }
}

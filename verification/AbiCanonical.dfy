/**
 The canonical form of ABI data, read off its bytes and not off the encoder: which bytes are values, lengths and offsets, and
 that all the others are zero (Solidity Contract ABI Specification, "Formal Specification of the Encoding").
 */
module AbiCanonical {
  import opened Bytes
  import opened HashChain
  import opened Abi

  ghost predicate AllZero(s: bytes) { forall i :: 0 <= i < |s| ==> s[i] == 0 }

  /** A static value: numbers right-aligned and big-endian, an address behind twelve zero bytes, components one after another. */
  ghost predicate StaticIs(t: Type, v: Value, s: bytes)
    requires HasType(t, v)
    decreases v, 2, 0
  {
    |s| == StaticSize(t) &&
    match t
    case AddressT => |s| == 32 && AllZero(s[..12]) && s[12..] == v.data
    case BoolT => BEValue(s) == if v.b then 1 else 0
    case UintT(_) => BEValue(s) == v.n
    case Bytes32T => s == v.data
    case TupleT(_) => ComponentsAre(t, v, 0, s)
    case _ => false
  }

  ghost predicate ComponentsAre(t: Type, v: Value, k: nat, s: bytes)
    requires t.TupleT? && HasType(t, v) && k <= |t.items|
    decreases v, 1, |t.items| - k
  {
    if k == |t.items| then s == []
    else
      var n := StaticSize(t.items[k]);
      |s| >= n && StaticIs(t.items[k], v.vs[k], s[..n]) && ComponentsAre(t, v, k + 1, s[n..])
  }

  /** A dynamic value: a byte string is its length, its bytes and zeros up to the next word; an array its count and elements. */
  ghost predicate DynamicIs(t: Type, v: Value, s: bytes)
    requires HasType(t, v)
    decreases v, 6, 0
  {
    match t
    case BytesT =>
      var n := |v.data|;
      && |s| >= 32 + n && BEValue(s[..32]) == n && s[32..32 + n] == v.data
      && AllZero(s[32 + n..]) && |s| % 32 == 0 && |s| < 32 + n + 32
    case ArrayT(elem) => |s| >= 32 && BEValue(s[..32]) == |v.vs| && ArgumentsAre(Repeat(elem, |v.vs|), v, s[32..])
    case TupleT(items) => ArgumentsAre(items, v, s)
    case _ => false
  }

  /** An argument list: its heads, and behind them its tails. */
  ghost predicate ArgumentsAre(types: seq<Type>, v: Value, s: bytes)
    requires Fit(types, v)
    decreases v, 5, 0
  {
    |s| >= HeadSize(types) && PartsAre(types, v, |types|, s[..HeadSize(types)], s[HeadSize(types)..])
  }

  /**
   The heads and tails of the first k arguments, taken apart from the back: the head of a dynamic argument says where, from
   the start of the list, its tail begins, and that tail reaches to the end.
   */
  ghost predicate PartsAre(types: seq<Type>, v: Value, k: nat, heads: bytes, tails: bytes)
    requires Fit(types, v) && k <= |types|
    decreases v, 4, k
  {
    if k == 0 then heads == [] && tails == []
    else
      var t, w := types[k - 1], HeadWidth(types[k - 1]);
      && |heads| >= w
      && var n := |heads| - w;
         if IsDynamic(t) then
           var at := BEValue(heads[n..]) - HeadSize(types);
           && 0 <= at <= |tails| && DynamicIs(t, v.vs[k - 1], tails[at..])
           && PartsAre(types, v, k - 1, heads[..n], tails[..at])
         else StaticIs(t, v.vs[k - 1], heads[n..]) && PartsAre(types, v, k - 1, heads[..n], tails)
  }

  // ------------------------------------------------------------------ words

  lemma WordIs(n: nat, s: bytes)
    requires |s| == 32 && n < Pow256(32)
    ensures BEValue(s) == n <==> s == UintWord(n)
  {
    if BEValue(s) == n {
      BEOfBEValue(s);
    }
    BEValueOfBE(n, 32);
  }

  lemma Pow32()
    ensures Pow256(32) > 1
  {}

  lemma ZerosAre(s: bytes)
    requires AllZero(s)
    ensures s == Zeros(|s|)
  {}

  lemma AddressIs(data: bytes, s: bytes)
    requires |data| == 20 && |s| == 32
    ensures AllZero(s[..12]) && s[12..] == data <==> s == Zeros(12) + data
  {
    if AllZero(s[..12]) && s[12..] == data {
      ZerosAre(s[..12]);
      assert s == s[..12] + s[12..];
    }
    if s == Zeros(12) + data {
      assert s[..12] == Zeros(12);
    }
  }

  /** The padding of a byte string, between one whole word and the next. */
  lemma PaddingIs(n: nat, size: nat)
    requires size >= 32 + n
    ensures size % 32 == 0 && size < 32 + n + 32 <==> size == 32 + n + Padding(n)
  {}

  lemma BytesAre(data: bytes, s: bytes)
    requires |data| < Pow256(32)
    ensures (&& |s| >= 32 + |data| && BEValue(s[..32]) == |data| && s[32..32 + |data|] == data
             && AllZero(s[32 + |data|..]) && |s| % 32 == 0 && |s| < 32 + |data| + 32)
            <==> s == UintWord(|data|) + data + Zeros(Padding(|data|))
  {
    var n := |data|;
    if |s| >= 32 + n {
      WordIs(n, s[..32]);
      PaddingIs(n, |s|);
      assert s == s[..32] + s[32..32 + n] + s[32 + n..];
      if AllZero(s[32 + n..]) {
        ZerosAre(s[32 + n..]);
      }
    }
    if s == UintWord(n) + data + Zeros(Padding(n)) {
      assert s[..32] == UintWord(n) && s[32..32 + n] == data && s[32 + n..] == Zeros(Padding(n));
      PaddingIs(n, |s|);
    }
  }

  // ------------------------------------------------------------------ canonical is encoded

  lemma {:induction false} StaticCanonical(t: Type, v: Value, s: bytes)
    requires HasType(t, v) && !IsDynamic(t)
    ensures StaticIs(t, v, s) <==> s == EncodeStatic(t, v)
    decreases v, 2, 0
  {
    Pow32();
    if |s| == StaticSize(t) {
      match t {
        case AddressT => AddressIs(v.data, s);
        case BoolT => WordIs(if v.b then 1 else 0, s);
        case UintT(_) => WordIs(v.n, s);
        case Bytes32T =>
        case TupleT(_) => ComponentsCanonical(t, v, 0, s);
      }
    }
  }

  lemma {:induction false} ComponentsCanonical(t: Type, v: Value, k: nat, s: bytes)
    requires t.TupleT? && HasType(t, v) && !IsDynamic(t) && k <= |t.items|
    ensures ComponentsAre(t, v, k, s) <==> s == EncodeStaticFrom(t, v, k)
    decreases v, 1, |t.items| - k
  {
    if k < |t.items| {
      var n := StaticSize(t.items[k]);
      var x, y := EncodeStatic(t.items[k], v.vs[k]), EncodeStaticFrom(t, v, k + 1);
      if |s| >= n {
        StaticCanonical(t.items[k], v.vs[k], s[..n]);
        ComponentsCanonical(t, v, k + 1, s[n..]);
        assert s == s[..n] + s[n..];
        assert (x + y)[..n] == x && (x + y)[n..] == y;
      }
    }
  }

  lemma {:induction false} DynamicCanonical(t: Type, v: Value, s: bytes)
    requires HasType(t, v) && IsDynamic(t) && |EncodeDynamic(t, v)| < Pow256(32)
    ensures DynamicIs(t, v, s) <==> s == EncodeDynamic(t, v)
    decreases v, 6, 0
  {
    match t {
      case BytesT => BytesAre(v.data, s);
      case TupleT(items) => ArgumentsCanonical(items, v, s);
      case ArrayT(elem) =>
        var args := EncodeArgs(Repeat(elem, |v.vs|), v);
        if |s| >= 32 {
          WordIs(|v.vs|, s[..32]);
          ArgumentsCanonical(Repeat(elem, |v.vs|), v, s[32..]);
          assert s == s[..32] + s[32..];
          assert (UintWord(|v.vs|) + args)[..32] == UintWord(|v.vs|) && (UintWord(|v.vs|) + args)[32..] == args;
        }
    }
  }

  lemma {:induction false} HeadsLength(types: seq<Type>, v: Value, k: nat)
    requires Fit(types, v) && k <= |types|
    ensures |Heads(types, v, k)| == HeadSize(types[..k])
  {
    if k > 0 {
      HeadsLength(types, v, k - 1);
      assert types[..k][..k - 1] == types[..k - 1];
    }
  }

  /** The bytes of an argument list are canonical if and only if they are its encoding: nothing else decodes strictly. */
  lemma {:induction false} ArgumentsCanonical(types: seq<Type>, v: Value, s: bytes)
    requires Fit(types, v) && |EncodeArgs(types, v)| < Pow256(32)
    ensures ArgumentsAre(types, v, s) <==> s == EncodeArgs(types, v)
    decreases v, 5, 0
  {
    var n := HeadSize(types);
    HeadsLength(types, v, |types|);
    assert types[..|types|] == types;
    if |s| >= n {
      EncodingHasParts(types, v, |types|);
      if ArgumentsAre(types, v, s) {
        PartsDetermine(types, v, |types|, s[..n], s[n..]);
      }
      SplitAtHeads(s, n, Heads(types, v, |types|), Tails(types, v, |types|));
    }
  }

  lemma SplitAtHeads(s: bytes, n: nat, heads: bytes, tails: bytes)
    requires |s| >= n == |heads|
    ensures s[..n] == heads && s[n..] == tails <==> s == heads + tails
  {
    assert s == s[..n] + s[n..];
    assert (heads + tails)[..n] == heads && (heads + tails)[n..] == tails;
  }

  lemma {:induction false} TailsWithin(types: seq<Type>, v: Value, k: nat, n: nat)
    requires Fit(types, v) && k <= n <= |types|
    ensures |Tails(types, v, k)| <= |Tails(types, v, n)|
    decreases n
  {
    if k < n {
      TailsWithin(types, v, k, n - 1);
    }
  }

  lemma CutLast(front: bytes, last: bytes)
    ensures (front + last)[..|front|] == front && (front + last)[|front|..] == last
  {}

  /** One more dynamic argument behind parts that are right already. */
  lemma MoreDynamic(types: seq<Type>, v: Value, k: nat, word: bytes, front: bytes, before: bytes, tail: bytes)
    requires Fit(types, v) && 0 < k <= |types| && IsDynamic(types[k - 1])
    requires |word| == 32 && BEValue(word) == HeadSize(types) + |before|
    requires PartsAre(types, v, k - 1, front, before) && DynamicIs(types[k - 1], v.vs[k - 1], tail)
    ensures PartsAre(types, v, k, front + word, before + tail)
  {
    CutLast(front, word);
    CutLast(before, tail);
  }

  lemma MoreStatic(types: seq<Type>, v: Value, k: nat, heads: bytes, tails: bytes, front: bytes, last: bytes)
    requires Fit(types, v) && 0 < k <= |types| && !IsDynamic(types[k - 1]) && |last| == HeadWidth(types[k - 1])
    requires PartsAre(types, v, k - 1, front, tails) && StaticIs(types[k - 1], v.vs[k - 1], last) && heads == front + last
    ensures PartsAre(types, v, k, heads, tails)
  {
    CutLast(front, last);
  }

  lemma DynamicParts(types: seq<Type>, v: Value, k: nat)
    requires Fit(types, v) && 0 < k <= |types| && IsDynamic(types[k - 1])
    ensures Heads(types, v, k) == Heads(types, v, k - 1) + Head(types, v, k - 1)
    ensures Tails(types, v, k) == Tails(types, v, k - 1) + EncodeDynamic(types[k - 1], v.vs[k - 1])
  {}

  /** The head of a dynamic argument is the one word whose value is where its tail starts. */
  lemma HeadWord(types: seq<Type>, v: Value, k: nat, s: bytes)
    requires Fit(types, v) && |EncodeArgs(types, v)| < Pow256(32) && 0 < k <= |types| && IsDynamic(types[k - 1]) && |s| == 32
    ensures BEValue(s) == HeadSize(types) + |Tails(types, v, k - 1)| <==> s == Head(types, v, k - 1)
  {
    TailBounded(types, v, k);
    WordIs(TailStart(types, v, k - 1), s);
  }

  lemma StaticParts(types: seq<Type>, v: Value, k: nat)
    requires Fit(types, v) && 0 < k <= |types| && !IsDynamic(types[k - 1])
    ensures Heads(types, v, k) == Heads(types, v, k - 1) + EncodeStatic(types[k - 1], v.vs[k - 1])
    ensures Tails(types, v, k) == Tails(types, v, k - 1)
  {
    assert Tails(types, v, k) == Tails(types, v, k - 1) + [];
  }

  /** The heads and tails of the encoding are such parts. */
  lemma {:induction false} EncodingHasParts(types: seq<Type>, v: Value, k: nat)
    requires Fit(types, v) && |EncodeArgs(types, v)| < Pow256(32) && k <= |types|
    ensures PartsAre(types, v, k, Heads(types, v, k), Tails(types, v, k))
    decreases v, 4, k
  {
    if k > 0 {
      var t, u := types[k - 1], v.vs[k - 1];
      EncodingHasParts(types, v, k - 1);
      if IsDynamic(t) {
        TailIs(types, v, k, EncodeDynamic(t, u));
        DynamicAdded(types, v, k);
      } else {
        StaticParts(types, v, k);
        StaticCanonical(t, u, EncodeStatic(t, u));
        MoreStatic(types, v, k, Heads(types, v, k), Tails(types, v, k), Heads(types, v, k - 1), EncodeStatic(t, u));
      }
    }
  }

  lemma DynamicAdded(types: seq<Type>, v: Value, k: nat)
    requires Fit(types, v) && |EncodeArgs(types, v)| < Pow256(32) && 0 < k <= |types| && IsDynamic(types[k - 1])
    requires PartsAre(types, v, k - 1, Heads(types, v, k - 1), Tails(types, v, k - 1))
    requires DynamicIs(types[k - 1], v.vs[k - 1], EncodeDynamic(types[k - 1], v.vs[k - 1]))
    ensures PartsAre(types, v, k, Heads(types, v, k), Tails(types, v, k))
  {
    DynamicParts(types, v, k);
    HeadWord(types, v, k, Head(types, v, k - 1));
    MoreDynamic(types, v, k, Head(types, v, k - 1), Heads(types, v, k - 1), Tails(types, v, k - 1),
                EncodeDynamic(types[k - 1], v.vs[k - 1]));
  }

  lemma DynamicUnfolds(types: seq<Type>, v: Value, k: nat, heads: bytes, tails: bytes, n: nat, at: int)
    requires Fit(types, v) && 0 < k <= |types| && IsDynamic(types[k - 1]) && PartsAre(types, v, k, heads, tails)
    requires n == |heads| - 32 && at == BEValue(heads[n..]) - HeadSize(types)
    ensures 0 <= at <= |tails| && DynamicIs(types[k - 1], v.vs[k - 1], tails[at..])
    ensures PartsAre(types, v, k - 1, heads[..n], tails[..at])
  {}

  lemma StaticUnfolds(types: seq<Type>, v: Value, k: nat, heads: bytes, tails: bytes, n: nat)
    requires Fit(types, v) && 0 < k <= |types| && !IsDynamic(types[k - 1]) && PartsAre(types, v, k, heads, tails)
    requires n == |heads| - HeadWidth(types[k - 1])
    ensures StaticIs(types[k - 1], v.vs[k - 1], heads[n..]) && PartsAre(types, v, k - 1, heads[..n], tails)
  {}

  lemma {:induction false} TailIs(types: seq<Type>, v: Value, k: nat, s: bytes)
    requires Fit(types, v) && |EncodeArgs(types, v)| < Pow256(32) && 0 < k <= |types| && IsDynamic(types[k - 1])
    ensures DynamicIs(types[k - 1], v.vs[k - 1], s) <==> s == EncodeDynamic(types[k - 1], v.vs[k - 1])
    decreases v, 3, k
  {
    TailBounded(types, v, k);
    DynamicCanonical(types[k - 1], v.vs[k - 1], s);
  }

  /** And no other bytes are. */
  lemma {:induction false} PartsDetermine(types: seq<Type>, v: Value, k: nat, heads: bytes, tails: bytes)
    requires Fit(types, v) && |EncodeArgs(types, v)| < Pow256(32) && k <= |types| && PartsAre(types, v, k, heads, tails)
    ensures heads == Heads(types, v, k) && tails == Tails(types, v, k)
    decreases v, 4, 2 * k + 1
  {
    if k > 0 {
      if IsDynamic(types[k - 1]) {
        LastDynamic(types, v, k, heads, tails, |heads| - 32);
      } else {
        LastStatic(types, v, k, heads, tails, |heads| - HeadWidth(types[k - 1]));
      }
    }
  }

  lemma {:induction false} LastDynamic(types: seq<Type>, v: Value, k: nat, heads: bytes, tails: bytes, n: nat)
    requires Fit(types, v) && |EncodeArgs(types, v)| < Pow256(32) && 0 < k <= |types| && PartsAre(types, v, k, heads, tails)
    requires IsDynamic(types[k - 1]) && n == |heads| - 32
    ensures heads == Heads(types, v, k) && tails == Tails(types, v, k)
    decreases v, 4, 2 * k
  {
    var at := BEValue(heads[n..]) - HeadSize(types);
    DynamicUnfolds(types, v, k, heads, tails, n, at);
    PartsDetermine(types, v, k - 1, heads[..n], tails[..at]);
    TailIs(types, v, k, tails[at..]);
    DynamicDetermined(types, v, k, heads, tails, n, at);
  }

  lemma {:induction false} LastStatic(types: seq<Type>, v: Value, k: nat, heads: bytes, tails: bytes, n: nat)
    requires Fit(types, v) && |EncodeArgs(types, v)| < Pow256(32) && 0 < k <= |types| && PartsAre(types, v, k, heads, tails)
    requires !IsDynamic(types[k - 1]) && n == |heads| - HeadWidth(types[k - 1])
    ensures heads == Heads(types, v, k) && tails == Tails(types, v, k)
    decreases v, 4, 2 * k
  {
    StaticUnfolds(types, v, k, heads, tails, n);
    StaticCanonical(types[k - 1], v.vs[k - 1], heads[n..]);
    PartsDetermine(types, v, k - 1, heads[..n], tails);
    StaticParts(types, v, k);
    Rejoined(heads, n);
  }

  lemma DynamicDetermined(types: seq<Type>, v: Value, k: nat, heads: bytes, tails: bytes, n: nat, at: nat)
    requires Fit(types, v) && |EncodeArgs(types, v)| < Pow256(32) && 0 < k <= |types| && IsDynamic(types[k - 1])
    requires n + 32 == |heads| && at <= |tails| && BEValue(heads[n..]) == HeadSize(types) + at
    requires heads[..n] == Heads(types, v, k - 1) && tails[..at] == Tails(types, v, k - 1)
    requires tails[at..] == EncodeDynamic(types[k - 1], v.vs[k - 1])
    ensures heads == Heads(types, v, k) && tails == Tails(types, v, k)
  {
    HeadWord(types, v, k, heads[n..]);
    DynamicParts(types, v, k);
    Rejoined(heads, n);
    Rejoined(tails, at);
  }

  lemma Rejoined(s: bytes, n: nat)
    requires n <= |s|
    ensures s == s[..n] + s[n..]
  {}

  lemma TailBounded(types: seq<Type>, v: Value, k: nat)
    requires Fit(types, v) && |EncodeArgs(types, v)| < Pow256(32) && 0 < k <= |types|
    ensures |Tail(types, v, k - 1)| < Pow256(32) && HeadSize(types) + |Tails(types, v, k - 1)| < Pow256(32)
  {
    TailsWithin(types, v, k, |types|);
    HeadsLength(types, v, |types|);
    assert types[..|types|] == types;
  }

  // ------------------------------------------------------------------ strict decoding

  /** The decoder, refusing whatever is not canonical: stray padding, address prefixes, offsets, or bytes behind the end. */
  ghost function StrictArgs(types: seq<Type>, s: bytes): (r: Value)
    requires Accepted(types, s)
  {
    DecodeArgs(types, s)
  }

  ghost predicate Accepted(types: seq<Type>, s: bytes) {
    var v := DecodeArgs(types, s);
    Fit(types, v) && |EncodeArgs(types, v)| < Pow256(32) && ArgumentsAre(types, v, s)
  }

  /** Every encoding is accepted and gives its values back; whatever is accepted is the encoding of what it gives. */
  lemma StrictDecoding(types: seq<Type>, s: bytes)
    ensures Accepted(types, s) ==> s == EncodeArgs(types, StrictArgs(types, s))
    ensures forall v :: Fit(types, v) && |EncodeArgs(types, v)| < Pow256(32) && s == EncodeArgs(types, v) ==>
              Accepted(types, s) && StrictArgs(types, s) == v
  {
    if Accepted(types, s) {
      ArgumentsCanonical(types, DecodeArgs(types, s), s);
    }
    forall v | Fit(types, v) && |EncodeArgs(types, v)| < Pow256(32) && s == EncodeArgs(types, v)
      ensures Accepted(types, s) && StrictArgs(types, s) == v
    {
      DecodeUndoesEncode(types, v, []);
      assert s + [] == s;
      ArgumentsCanonical(types, v, s);
    }
  }

  /** The shortest case: one byte, its length before it and 31 zero bytes behind it. */
  lemma OneByte(b: byte, i: nat)
    requires i < 64
    ensures EncodeDynamic(BytesT, Raw([b]))[i] == if i == 31 then 1 else if i == 32 then b else 0
  {
    Pow32();
    BytesAre([b], EncodeDynamic(BytesT, Raw([b])));
    OneWord(i);
  }

  lemma OneWord(i: nat)
    ensures i < 32 ==> UintWord(1)[i] == if i == 31 then 1 else 0
  {
    var w := Zeros(31) + [1];
    ZeroValue(31);
    assert w[..31] == Zeros(31);
    Pow32();
    WordIs(1, w);
  }

  lemma {:induction false} ZeroValue(n: nat)
    ensures BEValue(Zeros(n)) == 0
  {
    if n > 0 {
      ZeroValue(n - 1);
      assert Zeros(n)[..n - 1] == Zeros(n - 1);
    }
  }
}

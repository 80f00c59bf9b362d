/**
 The calldata encoder of web/src/demo/abi.js (Solidity Contract ABI Specification, "Formal Specification of the
 Encoding") over parsed types, with the decoder that undoes it. Module AbiText covers the type texts.
 */
module Abi {
  import opened Bytes
  import opened HashChain

  datatype Type = AddressT | BoolT | UintT(bits: nat) | Bytes32T | BytesT | ArrayT(elem: Type) | TupleT(items: seq<Type>)

  datatype Value = Num(n: nat) | Flag(b: bool) | Raw(data: bytes) | Items(vs: seq<Value>)

  predicate IsDynamic(t: Type) {
    match t
    case BytesT => true
    case ArrayT(_) => true
    case TupleT(items) => exists i :: 0 <= i < |items| && IsDynamic(items[i])
    case _ => false
  }

  /** A value of the type, small enough for the words it is written in. */
  ghost predicate HasType(t: Type, v: Value)
    decreases v
  {
    match t
    case AddressT => v.Raw? && |v.data| == 20
    case BoolT => v.Flag?
    case UintT(_) => v.Num? && v.n < Pow256(32)
    case Bytes32T => v.Raw? && |v.data| == 32
    case BytesT => v.Raw?
    case ArrayT(elem) => v.Items? && |v.vs| < Pow256(32) && forall i :: 0 <= i < |v.vs| ==> HasType(elem, v.vs[i])
    case TupleT(items) => v.Items? && |v.vs| == |items| && forall i :: 0 <= i < |items| ==> HasType(items[i], v.vs[i])
  }

  function Repeat(t: Type, n: nat): (ts: seq<Type>)
    ensures |ts| == n && forall i :: 0 <= i < n ==> ts[i] == t
  {
    seq(n, i => t)
  }

  /** The values of an argument list fit its types. */
  ghost predicate Fit(types: seq<Type>, v: Value) {
    v.Items? && |v.vs| == |types| && forall i :: 0 <= i < |types| ==> HasType(types[i], v.vs[i])
  }

  // ------------------------------------------------------------------ sizes

  /** Bytes a static type takes: a word, or the sum over a tuple. */
  function StaticSize(t: Type): nat
    decreases t, 1, 0
  {
    if t.TupleT? then StaticSizeFrom(t, 0) else 32
  }

  function StaticSizeFrom(t: Type, k: nat): nat
    requires t.TupleT? && k <= |t.items|
    decreases t, 0, |t.items| - k
  {
    if k == |t.items| then 0 else StaticSize(t.items[k]) + StaticSizeFrom(t, k + 1)
  }

  function HeadWidth(t: Type): nat { if IsDynamic(t) then 32 else StaticSize(t) }

  function HeadSize(types: seq<Type>): nat
    decreases |types|
  {
    if types == [] then 0 else HeadSize(types[..|types| - 1]) + HeadWidth(types[|types| - 1])
  }

  // ------------------------------------------------------------------ encoding

  function Padding(n: nat): nat { (32 - n % 32) % 32 }

  function EncodeStatic(t: Type, v: Value): (s: bytes)
    requires HasType(t, v) && !IsDynamic(t)
    ensures |s| == StaticSize(t)
    decreases v, 2, 0
  {
    match t
    case AddressT => Zeros(12) + v.data
    case BoolT => UintWord(if v.b then 1 else 0)
    case UintT(_) => UintWord(v.n)
    case Bytes32T => v.data
    case TupleT(_) => EncodeStaticFrom(t, v, 0)
  }

  function EncodeStaticFrom(t: Type, v: Value, k: nat): (s: bytes)
    requires t.TupleT? && HasType(t, v) && !IsDynamic(t) && k <= |t.items|
    ensures |s| == StaticSizeFrom(t, k)
    decreases v, 1, |t.items| - k
  {
    if k == |t.items| then [] else EncodeStatic(t.items[k], v.vs[k]) + EncodeStaticFrom(t, v, k + 1)
  }

  function EncodeDynamic(t: Type, v: Value): (s: bytes)
    requires HasType(t, v) && IsDynamic(t)
    decreases v, 6, 0
  {
    match t
    case BytesT => UintWord(|v.data|) + v.data + Zeros(Padding(|v.data|))
    case ArrayT(elem) => UintWord(|v.vs|) + EncodeArgs(Repeat(elem, |v.vs|), v)
    case TupleT(items) => EncodeArgs(items, v)
  }

  /** Heads, then tails; every offset counts from the start of this block. */
  function EncodeArgs(types: seq<Type>, v: Value): bytes
    requires Fit(types, v)
    decreases v, 5, 0
  {
    Heads(types, v, |types|) + Tails(types, v, |types|)
  }

  function Head(types: seq<Type>, v: Value, k: nat): (s: bytes)
    requires Fit(types, v) && k < |types|
    ensures |s| == HeadWidth(types[k])
    decreases v, 3, k
  {
    if IsDynamic(types[k]) then UintWord(TailStart(types, v, k)) else EncodeStatic(types[k], v.vs[k])
  }

  function Tail(types: seq<Type>, v: Value, k: nat): bytes
    requires Fit(types, v) && k < |types|
    decreases v, 0, 0
  {
    if IsDynamic(types[k]) then EncodeDynamic(types[k], v.vs[k]) else []
  }

  /** The heads, and the tails, of the first k arguments. */
  function Heads(types: seq<Type>, v: Value, k: nat): bytes
    requires Fit(types, v) && k <= |types|
    decreases v, 4, k
  {
    if k == 0 then [] else Heads(types, v, k - 1) + Head(types, v, k - 1)
  }

  function Tails(types: seq<Type>, v: Value, k: nat): bytes
    requires Fit(types, v) && k <= |types|
    decreases v, 1, k
  {
    if k == 0 then [] else Tails(types, v, k - 1) + Tail(types, v, k - 1)
  }

  /** Where the tail of argument k starts: after all heads and the tails before it. */
  function TailStart(types: seq<Type>, v: Value, k: nat): nat
    requires Fit(types, v) && k <= |types|
    decreases v, 2, k
  {
    HeadSize(types) + |Tails(types, v, k)|
  }

  /** One more argument: its head, its tail, and where the tail after it starts. */
  lemma NextArgument(types: seq<Type>, v: Value, i: nat)
    requires Fit(types, v) && i < |types|
    ensures Heads(types, v, i + 1) == Heads(types, v, i) + Head(types, v, i)
    ensures Tails(types, v, i + 1) == Tails(types, v, i) + Tail(types, v, i)
    ensures TailStart(types, v, i + 1) == TailStart(types, v, i) + |Tail(types, v, i)|
  {}

  /** The loop of encodeArgs: heads and tails collected in two lists, the running offset in headSize. */
  method BuildArgs(types: seq<Type>, v: Value) returns (out: bytes)
    requires Fit(types, v)
    ensures out == EncodeArgs(types, v)
  {
    var heads, tails: bytes := [], [];
    var headSize := MeasureHeads(types);
    for i := 0 to |types|
      invariant heads == Heads(types, v, i) && tails == Tails(types, v, i)
      invariant headSize == TailStart(types, v, i)
    {
      NextArgument(types, v, i);
      if IsDynamic(types[i]) {
        heads := heads + UintWord(headSize);
        var tail := EncodeDynamic(types[i], v.vs[i]);
        tails := tails + tail;
        headSize := headSize + |tail|;
      } else {
        heads := heads + EncodeStatic(types[i], v.vs[i]);
      }
    }
    out := heads + tails;
  }

  /** The initial head size, measured on zero values as the source does. */
  method MeasureHeads(types: seq<Type>) returns (n: nat)
    ensures n == HeadSize(types)
  {
    n := 0;
    for i := 0 to |types|
      invariant n == HeadSize(types[..i])
    {
      assert types[..i + 1][..i] == types[..i];
      if IsDynamic(types[i]) {
        n := n + 32;
      } else {
        ZeroHasType(types[i]);
        n := n + |EncodeStatic(types[i], ZeroOf(types[i]))|;
      }
    }
    assert types[..|types|] == types;
  }

  function ZeroOf(t: Type): Value {
    match t
    case TupleT(items) => Items(seq(|items|, i requires 0 <= i < |items| => ZeroOf(items[i])))
    case AddressT => Raw(Zeros(20))
    case Bytes32T => Raw(Zeros(32))
    case BoolT => Flag(false)
    case _ => Num(0)
  }

  lemma {:induction false} ZeroHasType(t: Type)
    requires !IsDynamic(t)
    ensures HasType(t, ZeroOf(t))
    decreases t
  {
    if t.TupleT? {
      forall i | 0 <= i < |t.items|
        ensures HasType(t.items[i], ZeroOf(t).vs[i])
      {
        ZeroHasType(t.items[i]);
      }
    }
  }

  // ------------------------------------------------------------------ layout

  lemma {:induction false} HeadsLength(types: seq<Type>, v: Value, k: nat)
    requires Fit(types, v) && k <= |types|
    ensures |Heads(types, v, k)| == HeadSize(types[..k])
    decreases k
  {
    if k > 0 {
      HeadsLength(types, v, k - 1);
      assert types[..k][..k - 1] == types[..k - 1];
    }
  }

  lemma PrefixTransitive(a: bytes, b: bytes, c: bytes)
    requires a <= b <= c
    ensures a <= c
  {}

  /** The heads, and the tails, of the first k arguments are a prefix of all of them. */
  lemma {:induction false} HeadsPrefix(types: seq<Type>, v: Value, k: nat, n: nat)
    requires Fit(types, v) && k <= n <= |types|
    ensures Heads(types, v, k) <= Heads(types, v, n)
    decreases n
  {
    if k < n {
      HeadsPrefix(types, v, k, n - 1);
      PrefixTransitive(Heads(types, v, k), Heads(types, v, n - 1), Heads(types, v, n));
    }
  }

  lemma {:induction false} TailsPrefix(types: seq<Type>, v: Value, k: nat, n: nat)
    requires Fit(types, v) && k <= n <= |types|
    ensures Tails(types, v, k) <= Tails(types, v, n)
    decreases n
  {
    if k < n {
      TailsPrefix(types, v, k, n - 1);
      PrefixTransitive(Tails(types, v, k), Tails(types, v, n - 1), Tails(types, v, n));
    }
  }

  /** s lies in block at position `at`. */
  ghost predicate At(block: bytes, at: nat, s: bytes) { at + |s| <= |block| && block[at..at + |s|] == s }

  lemma AtEnd(a: bytes, s: bytes, all: bytes, block: bytes, base: nat)
    requires a + s <= all && At(block, base, all)
    ensures At(block, base + |a|, s)
  {
    forall i | 0 <= i < |s|
      ensures block[base + |a| + i] == s[i]
    {
      assert all[|a| + i] == (a + s)[|a| + i];
      assert block[base..base + |all|][|a| + i] == all[|a| + i];
    }
  }

  /** A block starts with all its heads, and then all its tails. */
  lemma HeadsThenTails(types: seq<Type>, v: Value, block: bytes)
    requires Fit(types, v) && EncodeArgs(types, v) <= block
    ensures At(block, 0, Heads(types, v, |types|)) && At(block, HeadSize(types), Tails(types, v, |types|))
  {
    HeadsLength(types, v, |types|);
    assert types[..|types|] == types;
    var heads, tails := Heads(types, v, |types|), Tails(types, v, |types|);
    AtEnd([], heads, heads + tails, block, 0);
    assert [] + heads <= heads + tails;
    AtEnd(heads, tails, heads + tails, block, 0);
  }

  lemma HeadAt(types: seq<Type>, v: Value, k: nat, block: bytes)
    requires Fit(types, v) && k < |types| && EncodeArgs(types, v) <= block
    ensures At(block, HeadSize(types[..k]), Head(types, v, k))
  {
    HeadsThenTails(types, v, block);
    HeadsLength(types, v, k);
    HeadsPrefix(types, v, k + 1, |types|);
    AtEnd(Heads(types, v, k), Head(types, v, k), Heads(types, v, |types|), block, 0);
  }

  lemma TailAt(types: seq<Type>, v: Value, k: nat, block: bytes)
    requires Fit(types, v) && k < |types| && EncodeArgs(types, v) <= block
    ensures At(block, TailStart(types, v, k), Tail(types, v, k))
  {
    HeadsThenTails(types, v, block);
    TailsPrefix(types, v, k + 1, |types|);
    AtEnd(Tails(types, v, k), Tail(types, v, k), Tails(types, v, |types|), block, HeadSize(types));
  }

  /**
   Every head is where the types say, and every offset word is the exact start of its tail, whatever follows the block.
   */
  lemma OffsetsExact(types: seq<Type>, v: Value, k: nat, block: bytes)
    requires Fit(types, v) && k < |types| && EncodeArgs(types, v) <= block
    ensures IsDynamic(types[k]) ==>
              && At(block, HeadSize(types[..k]), UintWord(TailStart(types, v, k)))
              && At(block, TailStart(types, v, k), EncodeDynamic(types[k], v.vs[k]))
    ensures !IsDynamic(types[k]) ==> At(block, HeadSize(types[..k]), EncodeStatic(types[k], v.vs[k]))
  {
    HeadAt(types, v, k, block);
    TailAt(types, v, k, block);
  }

  // ------------------------------------------------------------------ whole words

  predicate Whole(n: int) { n % 32 == 0 }

  lemma WholeSum(a: int, b: int)
    requires Whole(a) && Whole(b)
    ensures Whole(a + b)
  {}

  lemma PaddedWhole(n: nat)
    ensures Whole(n + Padding(n))
  {}

  lemma {:induction false} StaticWhole(t: Type)
    ensures Whole(StaticSize(t))
    decreases t, 1, 0
  {
    if t.TupleT? {
      StaticFromWhole(t, 0);
    }
  }

  lemma {:induction false} StaticFromWhole(t: Type, k: nat)
    requires t.TupleT? && k <= |t.items|
    ensures Whole(StaticSizeFrom(t, k))
    decreases t, 0, |t.items| - k
  {
    if k < |t.items| {
      StaticWhole(t.items[k]);
      StaticFromWhole(t, k + 1);
      WholeSum(StaticSize(t.items[k]), StaticSizeFrom(t, k + 1));
    }
  }

  lemma {:induction false} HeadsWhole(types: seq<Type>)
    ensures Whole(HeadSize(types))
    decreases |types|
  {
    if types != [] {
      HeadsWhole(types[..|types| - 1]);
      StaticWhole(types[|types| - 1]);
      WholeSum(HeadSize(types[..|types| - 1]), HeadWidth(types[|types| - 1]));
    }
  }

  lemma BytesWhole(v: Value)
    requires HasType(BytesT, v)
    ensures Whole(|EncodeDynamic(BytesT, v)|)
  {
    var n := |v.data|;
    assert |EncodeDynamic(BytesT, v)| == 32 + (n + Padding(n));
    PaddedWhole(n);
    WholeSum(32, n + Padding(n));
  }

  lemma {:induction false} ArrayWhole(t: Type, v: Value)
    requires t.ArrayT? && HasType(t, v)
    ensures Whole(|EncodeDynamic(t, v)|)
    decreases v, 3, 0
  {
    var args := EncodeArgs(Repeat(t.elem, |v.vs|), v);
    ArgsWhole(Repeat(t.elem, |v.vs|), v);
    WholeSum(32, |args|);
    assert |EncodeDynamic(t, v)| == 32 + |args|;
  }

  lemma {:induction false} DynamicWhole(t: Type, v: Value)
    requires HasType(t, v) && IsDynamic(t)
    ensures Whole(|EncodeDynamic(t, v)|)
    decreases v, 4, 0
  {
    match t {
      case BytesT => BytesWhole(v);
      case ArrayT(_) => ArrayWhole(t, v);
      case TupleT(items) => ArgsWhole(items, v);
    }
  }

  /** The encoding of any argument list is a whole number of 32-byte words. */
  lemma {:induction false} ArgsWhole(types: seq<Type>, v: Value)
    requires Fit(types, v)
    ensures Whole(|EncodeArgs(types, v)|)
    decreases v, 2, 0
  {
    HeadsLength(types, v, |types|);
    assert types[..|types|] == types;
    HeadsWhole(types);
    TailsWhole(types, v, |types|);
    WholeSum(HeadSize(types), |Tails(types, v, |types|)|);
  }

  lemma {:induction false} TailsWhole(types: seq<Type>, v: Value, k: nat)
    requires Fit(types, v) && k <= |types|
    ensures Whole(|Tails(types, v, k)|)
    decreases v, 1, k
  {
    if k > 0 {
      TailsWhole(types, v, k - 1);
      TailWhole(types, v, k - 1);
      WholeSum(|Tails(types, v, k - 1)|, |Tail(types, v, k - 1)|);
    }
  }

  lemma {:induction false} TailWhole(types: seq<Type>, v: Value, k: nat)
    requires Fit(types, v) && k < |types|
    ensures Whole(|Tail(types, v, k)|)
    decreases v, 0, k
  {
    if IsDynamic(types[k]) {
      DynamicWhole(types[k], v.vs[k]);
    }
  }

  // ------------------------------------------------------------------ decoding

  /** A measure for the decoder, which recurses on types alone. */
  function Weight(t: Type): nat
    decreases t, 1, 0
  {
    match t
    case ArrayT(elem) => 1 + Weight(elem)
    case TupleT(items) => 1 + WeightFrom(t, 0)
    case _ => 0
  }

  function WeightFrom(t: Type, k: nat): nat
    requires t.TupleT? && k <= |t.items|
    decreases t, 0, |t.items| - k
  {
    if k == |t.items| then 0 else Weight(t.items[k]) + WeightFrom(t, k + 1)
  }

  ghost predicate AllWithin(types: seq<Type>, d: nat) { forall i :: 0 <= i < |types| ==> Weight(types[i]) <= d }

  lemma {:induction false} ItemWeight(t: Type, k: nat, i: nat)
    requires t.TupleT? && k <= i < |t.items|
    ensures Weight(t.items[i]) <= WeightFrom(t, k)
    decreases |t.items| - k
  {
    if k < i {
      ItemWeight(t, k + 1, i);
    }
  }

  lemma ItemsWithin(t: Type)
    requires t.TupleT?
    ensures AllWithin(t.items, WeightFrom(t, 0))
  {
    forall i | 0 <= i < |t.items|
      ensures Weight(t.items[i]) <= WeightFrom(t, 0)
    {
      ItemWeight(t, 0, i);
    }
  }

  function From(block: bytes, at: nat): bytes { if at <= |block| then block[at..] else [] }

  function Slice(block: bytes, at: nat, n: nat): bytes { if at + n <= |block| then block[at..at + n] else [] }

  function WordAt(block: bytes, at: nat): nat { BEValue(Slice(block, at, 32)) }

  function DecodeStatic(t: Type, block: bytes): Value
    decreases Weight(t), 0, 0
  {
    match t
    case AddressT => Raw(Slice(block, 12, 20))
    case BoolT => Flag(WordAt(block, 0) != 0)
    case UintT(_) => Num(WordAt(block, 0))
    case TupleT(items) => ItemsWithin(t); Items(DecodeItems(items, |items|, block, WeightFrom(t, 0)))
    case _ => Raw(Slice(block, 0, 32))
  }

  function DecodeDynamic(t: Type, block: bytes): Value
    decreases Weight(t), 0, 0
  {
    match t
    case ArrayT(elem) =>
      var n := WordAt(block, 0);
      Items(DecodeItems(Repeat(elem, n), n, From(block, 32), Weight(elem)))
    case TupleT(items) => ItemsWithin(t); Items(DecodeItems(items, |items|, block, WeightFrom(t, 0)))
    case _ => Raw(Slice(block, 32, WordAt(block, 0)))
  }

  /** The argument whose head is at position `at`. */
  function DecodeOne(t: Type, block: bytes, at: nat): Value
    decreases Weight(t), 1, 0
  {
    if IsDynamic(t) then DecodeDynamic(t, From(block, WordAt(block, at))) else DecodeStatic(t, From(block, at))
  }

  /** The first k arguments of a block. */
  function DecodeItems(types: seq<Type>, k: nat, block: bytes, d: nat): (vs: seq<Value>)
    requires k <= |types| && AllWithin(types, d)
    ensures |vs| == k
    decreases d, 2, k
  {
    if k == 0 then []
    else DecodeItems(types, k - 1, block, d) + [DecodeOne(types[k - 1], block, HeadSize(types[..k - 1]))]
  }

  /** The decoder of an argument block. */
  function DecodeArgs(types: seq<Type>, block: bytes): Value { Within(types); Items(DecodeItems(types, |types|, block, Heaviest(types))) }

  function Heaviest(types: seq<Type>): nat {
    if types == [] then 0
    else
      var rest, last := Heaviest(types[..|types| - 1]), Weight(types[|types| - 1]);
      if rest >= last then rest else last
  }

  lemma {:induction false} Within(types: seq<Type>)
    ensures AllWithin(types, Heaviest(types))
    decreases |types|
  {
    if types != [] {
      Within(types[..|types| - 1]);
      forall i | 0 <= i < |types|
        ensures Weight(types[i]) <= Heaviest(types)
      {
        if i < |types| - 1 {
          assert types[i] == types[..|types| - 1][i];
        }
      }
    }
  }

  // ------------------------------------------------------------------ round trip

  lemma WordReads(block: bytes, at: nat, n: nat)
    requires At(block, at, UintWord(n)) && n < Pow256(32)
    ensures WordAt(block, at) == n
  {
    BEValueOfBE(n, 32);
  }

  lemma {:induction false} DecodesStatic(t: Type, v: Value, block: bytes)
    requires HasType(t, v) && !IsDynamic(t) && EncodeStatic(t, v) <= block
    ensures DecodeStatic(t, block) == v
    decreases v, 2, 0
  {
    var s := EncodeStatic(t, v);
    assert block[..|s|] == s;
    match t {
      case AddressT => assert block[12..32] == s[12..];
      case BoolT => WordReads(block, 0, if v.b then 1 else 0);
      case UintT(_) => WordReads(block, 0, v.n);
      case Bytes32T =>
      case TupleT(items) =>
        ItemsWithin(t);
        DecodesStaticItems(t, v, |items|, block, WeightFrom(t, 0));
    }
  }

  /** In a static tuple item k sits at the heads' size before it. */
  lemma {:induction false} StaticItemAt(t: Type, v: Value, k: nat)
    requires t.TupleT? && HasType(t, v) && !IsDynamic(t) && k <= |t.items|
    ensures HeadSize(t.items[..k]) + StaticSizeFrom(t, k) == StaticSize(t)
    ensures EncodeStatic(t, v)[HeadSize(t.items[..k])..] == EncodeStaticFrom(t, v, k)
    decreases k
  {
    if k > 0 {
      StaticItemAt(t, v, k - 1);
      assert t.items[..k][..k - 1] == t.items[..k - 1];
      assert !IsDynamic(t.items[k - 1]);
      var whole, at := EncodeStatic(t, v), HeadSize(t.items[..k - 1]);
      assert whole[HeadSize(t.items[..k])..] == whole[at..][StaticSize(t.items[k - 1])..];
    }
  }

  lemma StaticItemStarts(t: Type, v: Value, i: nat, block: bytes)
    requires t.TupleT? && HasType(t, v) && !IsDynamic(t) && EncodeStatic(t, v) <= block && i < |t.items|
    ensures !IsDynamic(t.items[i]) && EncodeStatic(t.items[i], v.vs[i]) <= From(block, HeadSize(t.items[..i]))
  {
    var whole, at := EncodeStatic(t, v), HeadSize(t.items[..i]);
    StaticItemAt(t, v, i);
    assert !IsDynamic(t.items[i]);
    assert block[at..][..|whole| - at] == whole[at..];
    assert EncodeStatic(t.items[i], v.vs[i]) <= whole[at..];
  }

  lemma FrontAndLast<T>(s: seq<T>, k: nat)
    requires 0 < k <= |s|
    ensures s[..k] == s[..k - 1] + [s[k - 1]]
  {}

  lemma {:induction false} DecodesTupleItem(t: Type, v: Value, i: nat, block: bytes)
    requires t.TupleT? && HasType(t, v) && !IsDynamic(t) && EncodeStatic(t, v) <= block && i < |t.items|
    ensures DecodeOne(t.items[i], block, HeadSize(t.items[..i])) == v.vs[i]
    decreases v, 0, 0
  {
    StaticItemStarts(t, v, i, block);
    DecodesStatic(t.items[i], v.vs[i], From(block, HeadSize(t.items[..i])));
  }

  lemma {:induction false} DecodesStaticItems(t: Type, v: Value, k: nat, block: bytes, d: nat)
    requires t.TupleT? && HasType(t, v) && !IsDynamic(t) && EncodeStatic(t, v) <= block
    requires k <= |t.items| && AllWithin(t.items, d)
    ensures DecodeItems(t.items, k, block, d) == v.vs[..k]
    decreases v, 1, k
  {
    if k > 0 {
      DecodesStaticItems(t, v, k - 1, block, d);
      DecodesTupleItem(t, v, k - 1, block);
      FrontAndLast(v.vs, k);
    }
  }

  lemma FromAt(block: bytes, at: nat, s: bytes)
    requires At(block, at, s)
    ensures s <= From(block, at)
  {
    assert block[at..][..|s|] == s;
  }

  lemma {:induction false} DecodesDynamicItem(types: seq<Type>, v: Value, i: nat, block: bytes)
    requires Fit(types, v) && EncodeArgs(types, v) <= block && |EncodeArgs(types, v)| < Pow256(32)
    requires i < |types| && IsDynamic(types[i])
    ensures DecodeDynamic(types[i], From(block, WordAt(block, HeadSize(types[..i])))) == v.vs[i]
    decreases v, 0, 0
  {
    OffsetsExact(types, v, i, block);
    TailInside(types, v, i);
    WordReads(block, HeadSize(types[..i]), TailStart(types, v, i));
    FromAt(block, TailStart(types, v, i), EncodeDynamic(types[i], v.vs[i]));
    DecodesDynamic(types[i], v.vs[i], From(block, TailStart(types, v, i)));
  }

  lemma DecodesStaticItem(types: seq<Type>, v: Value, i: nat, block: bytes)
    requires Fit(types, v) && EncodeArgs(types, v) <= block && i < |types| && !IsDynamic(types[i])
    ensures DecodeStatic(types[i], From(block, HeadSize(types[..i]))) == v.vs[i]
  {
    OffsetsExact(types, v, i, block);
    FromAt(block, HeadSize(types[..i]), EncodeStatic(types[i], v.vs[i]));
    DecodesStatic(types[i], v.vs[i], From(block, HeadSize(types[..i])));
  }

  lemma {:induction false} DecodesOne(types: seq<Type>, v: Value, i: nat, block: bytes)
    requires Fit(types, v) && EncodeArgs(types, v) <= block && |EncodeArgs(types, v)| < Pow256(32) && i < |types|
    ensures DecodeOne(types[i], block, HeadSize(types[..i])) == v.vs[i]
    decreases v, 1, 0
  {
    if IsDynamic(types[i]) {
      DecodesDynamicItem(types, v, i, block);
    } else {
      DecodesStaticItem(types, v, i, block);
    }
  }

  lemma {:induction false} DecodesItems(types: seq<Type>, v: Value, k: nat, block: bytes, d: nat)
    requires Fit(types, v) && EncodeArgs(types, v) <= block && |EncodeArgs(types, v)| < Pow256(32)
    requires k <= |types| && AllWithin(types, d)
    ensures DecodeItems(types, k, block, d) == v.vs[..k]
    decreases v, 2, k
  {
    if k > 0 {
      DecodesItems(types, v, k - 1, block, d);
      DecodesOne(types, v, k - 1, block);
      FrontAndLast(v.vs, k);
    }
  }

  lemma TailInside(types: seq<Type>, v: Value, k: nat)
    requires Fit(types, v) && k < |types| && IsDynamic(types[k])
    ensures TailStart(types, v, k) + |EncodeDynamic(types[k], v.vs[k])| <= |EncodeArgs(types, v)|
  {
    HeadsLength(types, v, |types|);
    assert types[..|types|] == types;
    TailsPrefix(types, v, k + 1, |types|);
  }

  lemma DecodesBytes(v: Value, block: bytes)
    requires HasType(BytesT, v) && EncodeDynamic(BytesT, v) <= block && |EncodeDynamic(BytesT, v)| < Pow256(32)
    ensures DecodeDynamic(BytesT, block) == v
  {
    var s, n := EncodeDynamic(BytesT, v), |v.data|;
    AtEnd([], UintWord(n), s, block, 0);
    AtEnd(UintWord(n), v.data, s, block, 0);
    WordReads(block, 0, n);
  }

  /** An array starts with its count, and its arguments follow. */
  lemma ArrayParts(elem: Type, v: Value, block: bytes)
    requires HasType(ArrayT(elem), v) && EncodeDynamic(ArrayT(elem), v) <= block
    ensures WordAt(block, 0) == |v.vs| && EncodeArgs(Repeat(elem, |v.vs|), v) <= From(block, 32)
  {
    CountThenRest(|v.vs|, EncodeArgs(Repeat(elem, |v.vs|), v), block);
  }

  lemma CountThenRest(n: nat, rest: bytes, block: bytes)
    requires n < Pow256(32) && UintWord(n) + rest <= block
    ensures WordAt(block, 0) == n && rest <= From(block, 32)
  {
    var s := UintWord(n) + rest;
    AtEnd([], UintWord(n), s, block, 0);
    AtEnd(UintWord(n), rest, s, block, 0);
    WordReads(block, 0, n);
    FromAt(block, 32, rest);
  }

  lemma {:induction false} DecodesArray(elem: Type, v: Value, block: bytes)
    requires HasType(ArrayT(elem), v) && |EncodeDynamic(ArrayT(elem), v)| < Pow256(32)
    requires EncodeDynamic(ArrayT(elem), v) <= block
    ensures DecodeDynamic(ArrayT(elem), block) == v
    decreases v, 3, 0
  {
    ArrayParts(elem, v, block);
    DecodesItems(Repeat(elem, |v.vs|), v, |v.vs|, From(block, 32), Weight(elem));
  }

  lemma {:induction false} DecodesDynamic(t: Type, v: Value, block: bytes)
    requires HasType(t, v) && IsDynamic(t) && EncodeDynamic(t, v) <= block && |EncodeDynamic(t, v)| < Pow256(32)
    ensures DecodeDynamic(t, block) == v
    decreases v, 4, 0
  {
    match t {
      case BytesT => DecodesBytes(v, block);
      case ArrayT(elem) => DecodesArray(elem, v, block);
      case TupleT(items) =>
        ItemsWithin(t);
        DecodesItems(items, v, |items|, block, WeightFrom(t, 0));
    }
  }

  /** Calldata can be decoded: every list of arguments comes back from its bytes, whatever follows them. */
  lemma DecodeUndoesEncode(types: seq<Type>, v: Value, rest: bytes)
    requires Fit(types, v) && |EncodeArgs(types, v)| < Pow256(32)
    ensures DecodeArgs(types, EncodeArgs(types, v) + rest) == v
  {
    Within(types);
    DecodesItems(types, v, |types|, EncodeArgs(types, v) + rest, Heaviest(types));
  }

  /** Equal bytes mean equal arguments. */
  lemma EncodingInjective(types: seq<Type>, u: Value, v: Value)
    requires Fit(types, u) && Fit(types, v) && |EncodeArgs(types, u)| < Pow256(32)
    requires EncodeArgs(types, u) == EncodeArgs(types, v)
    ensures u == v
  {
    DecodeUndoesEncode(types, u, []);
    DecodeUndoesEncode(types, v, []);
    assert EncodeArgs(types, u) + [] == EncodeArgs(types, u);
  }

  // ------------------------------------------------------------------ calldata

  function Calldata(keccak: Keccak, signature: bytes, types: seq<Type>, v: Value): bytes
    requires Fit(types, v) && Hashes32(keccak)
  {
    keccak(signature)[..4] + EncodeArgs(types, v)
  }

  /** Behind the selector the arguments are recovered exactly, so a sealed transaction's input fixes what was called. */
  lemma CalldataCommits(keccak: Keccak, f: bytes, g: bytes, types: seq<Type>, u: Value, v: Value)
    requires Hashes32(keccak) && Fit(types, u) && Fit(types, v) && |EncodeArgs(types, u)| < Pow256(32)
    requires Calldata(keccak, f, types, u) == Calldata(keccak, g, types, v)
    ensures u == v && keccak(f)[..4] == keccak(g)[..4]
  {
    ConcatInjective(keccak(f)[..4], EncodeArgs(types, u), keccak(g)[..4], EncodeArgs(types, v));
    EncodingInjective(types, u, v);
  }
}

/** Type texts of web/src/demo/abi.js: splitTuple and isDynamic work on strings, and agree with the types they print. */
module AbiText {
  import opened Abi

  function Decimal(n: nat): (s: string)
    ensures s != [] && forall i :: 0 <= i < |s| ==> '0' <= s[i] <= '9'
  {
    var digit := ['0' + (n % 10) as char];
    if n < 10 then digit else Decimal(n / 10) + digit
  }

  function Text(t: Type): (s: string)
    ensures s != []
    decreases t, 1, 0
  {
    match t
    case AddressT => "address"
    case BoolT => "bool"
    case UintT(bits) => "uint" + Decimal(bits)
    case Bytes32T => "bytes32"
    case BytesT => "bytes"
    case ArrayT(elem) => Text(elem) + "[]"
    case TupleT(items) => "(" + TextFrom(t, 0) + ")"
  }

  /** Items k and on, separated by commas. */
  function TextFrom(t: Type, k: nat): string
    requires t.TupleT? && k <= |t.items|
    decreases t, 0, |t.items| - k
  {
    if k == |t.items| then []
    else Text(t.items[k]) + if k + 1 < |t.items| then "," + TextFrom(t, k + 1) else []
  }

  // ------------------------------------------------------------------ splitTuple

  /** One pass over the characters; `cur` is the component being read. */
  function Split(s: string, depth: int, cur: string): (out: seq<string>)
    decreases |s|
  {
    if s == [] then (if cur != [] then [cur] else [])
    else if s[0] == ',' && depth == 0 then [cur] + Split(s[1..], depth, [])
    else Split(s[1..], depth + (if s[0] == '(' then 1 else if s[0] == ')' then -1 else 0), cur + [s[0]])
  }

  function Inner(s: string): string { if |s| >= 2 then s[1..|s| - 1] else [] }

  function SplitTuple(s: string): seq<string> { Split(Inner(s), 0, []) }

  /** splitTuple, character by character. */
  method SplitText(s: string) returns (out: seq<string>)
    ensures out == SplitTuple(s)
  {
    var inner := Inner(s);
    var depth, cur := 0, "";
    out := [];
    for i := 0 to |inner|
      invariant out + Split(inner[i..], depth, cur) == Split(inner, 0, [])
    {
      var ch := inner[i];
      assert inner[i..][0] == ch && inner[i..][1..] == inner[i + 1..];
      if ch == ',' && depth == 0 {
        out := out + [cur];
        cur := "";
        continue;
      }
      if ch == '(' { depth := depth + 1; }
      if ch == ')' { depth := depth - 1; }
      cur := cur + [ch];
    }
    assert inner[|inner|..] == [];
    if cur != [] {
      out := out + [cur];
    }
  }

  predicate Plain(s: string) { forall i :: 0 <= i < |s| ==> s[i] != ',' && s[i] != '(' && s[i] != ')' }

  /** Characters without commas or brackets just join the component. */
  lemma {:induction false} SplitPlain(s: string, rest: string, depth: int, cur: string)
    requires Plain(s)
    ensures Split(s + rest, depth, cur) == Split(rest, depth, cur + s)
    decreases |s|
  {
    if s == [] {
      assert s + rest == rest && cur + s == cur;
    } else {
      assert (s + rest)[0] == s[0] && (s + rest)[1..] == s[1..] + rest;
      SplitPlain(s[1..], rest, depth, cur + [s[0]]);
      assert cur + [s[0]] + s[1..] == cur + s;
    }
  }

  lemma SplitChar(c: char, rest: string, depth: int, cur: string)
    requires c != ',' || depth != 0
    ensures Split([c] + rest, depth, cur)
            == Split(rest, depth + (if c == '(' then 1 else if c == ')' then -1 else 0), cur + [c])
  {
    assert ([c] + rest)[1..] == rest;
  }

  lemma Regroup(a: string, b: string, c: string)
    ensures a + b + c == a + (b + c)
  {}

  /** A printed type is passed over whole: its own commas sit inside its own brackets. */
  lemma {:induction false} SplitSkipsType(t: Type, rest: string, depth: nat, cur: string)
    ensures Split(Text(t) + rest, depth, cur) == Split(rest, depth, cur + Text(t))
    decreases t, 2, 0
  {
    match t {
      case ArrayT(_) => SplitSkipsArray(t, rest, depth, cur);
      case TupleT(_) => SplitSkipsTuple(t, rest, depth, cur);
      case _ => SplitPlain(Text(t), rest, depth, cur);
    }
  }

  lemma {:induction false} SplitSkipsArray(t: Type, rest: string, depth: nat, cur: string)
    requires t.ArrayT?
    ensures Split(Text(t) + rest, depth, cur) == Split(rest, depth, cur + Text(t))
    decreases t, 1, 0
  {
    Regroup(Text(t.elem), "[]", rest);
    SplitSkipsType(t.elem, "[]" + rest, depth, cur);
    SplitPlain("[]", rest, depth, cur + Text(t.elem));
    Regroup(cur, Text(t.elem), "[]");
  }

  lemma {:induction false} SplitSkipsTuple(t: Type, rest: string, depth: nat, cur: string)
    requires t.TupleT?
    ensures Split(Text(t) + rest, depth, cur) == Split(rest, depth, cur + Text(t))
    decreases t, 1, 0
  {
    var items := TextFrom(t, 0);
    Regroup("(" + items, ")", rest);
    Regroup("(", items, ")" + rest);
    SplitChar('(', items + (")" + rest), depth, cur);
    SplitSkipsItems(t, 0, ")" + rest, depth + 1, cur + "(");
    SplitChar(')', rest, depth + 1, cur + "(" + items);
    Regroup(cur, "(", items);
    Regroup(cur, "(" + items, ")");
  }

  lemma {:induction false} SplitSkipsItems(t: Type, k: nat, rest: string, depth: nat, cur: string)
    requires t.TupleT? && k <= |t.items| && depth >= 1
    ensures Split(TextFrom(t, k) + rest, depth, cur) == Split(rest, depth, cur + TextFrom(t, k))
    decreases t, 0, |t.items| - k
  {
    if k == |t.items| {
      assert TextFrom(t, k) + rest == rest && cur + TextFrom(t, k) == cur;
    } else {
      var item := Text(t.items[k]);
      if k + 1 < |t.items| {
        var more := TextFrom(t, k + 1);
        assert TextFrom(t, k) + rest == item + ("," + (more + rest));
        SplitSkipsType(t.items[k], "," + (more + rest), depth, cur);
        SplitChar(',', more + rest, depth, cur + item);
        SplitSkipsItems(t, k + 1, rest, depth, cur + item + ",");
        assert cur + item + "," + more == cur + TextFrom(t, k);
      } else {
        assert TextFrom(t, k) + rest == item + rest;
        SplitSkipsType(t.items[k], rest, depth, cur);
        assert cur + item == cur + TextFrom(t, k);
      }
    }
  }

  function Texts(t: Type, k: nat): (out: seq<string>)
    requires t.TupleT? && k <= |t.items|
    ensures |out| == |t.items| - k && forall i :: 0 <= i < |out| ==> out[i] == Text(t.items[k + i])
    decreases |t.items| - k
  {
    if k == |t.items| then [] else [Text(t.items[k])] + Texts(t, k + 1)
  }

  lemma {:induction false} SplitItems(t: Type, k: nat)
    requires t.TupleT? && k <= |t.items|
    ensures Split(TextFrom(t, k), 0, []) == Texts(t, k)
    decreases |t.items| - k
  {
    if k < |t.items| {
      var item := Text(t.items[k]);
      if k + 1 < |t.items| {
        var more := "," + TextFrom(t, k + 1);
        SplitSkipsType(t.items[k], more, 0, []);
        assert [] + item == item && more[1..] == TextFrom(t, k + 1);
        SplitItems(t, k + 1);
      } else {
        SplitSkipsType(t.items[k], [], 0, []);
        assert TextFrom(t, k) == item + [] && [] + item == item;
        assert Texts(t, k + 1) == [];
      }
    }
  }

  /** Splitting a printed tuple gives back exactly the texts of its components, however deep they nest. */
  lemma SplitUndoesPrinting(t: Type)
    requires t.TupleT?
    ensures SplitTuple(Text(t)) == Texts(t, 0)
  {
    assert Inner(Text(t)) == TextFrom(t, 0);
    SplitItems(t, 0);
  }

  // ------------------------------------------------------------------ isDynamic

  predicate EndsWith(s: string, e: string) { |s| >= |e| && s[|s| - |e|..] == e }

  lemma {:induction false} SplitShortens(s: string, depth: int, cur: string)
    ensures forall i :: 0 <= i < |Split(s, depth, cur)| ==> |Split(s, depth, cur)[i]| <= |cur| + |s|
    decreases |s|
  {
    if s != [] {
      if s[0] == ',' && depth == 0 {
        SplitShortens(s[1..], depth, []);
      } else {
        SplitShortens(s[1..], depth + (if s[0] == '(' then 1 else if s[0] == ')' then -1 else 0), cur + [s[0]]);
      }
    }
  }

  /** isDynamic on the text. */
  predicate IsDynamicText(s: string)
    decreases |s|
  {
    || s == "bytes" || s == "string" || EndsWith(s, "[]")
    || (s != [] && s[0] == '(' && AnyDynamic(s, |SplitTuple(s)|))
  }

  predicate AnyDynamic(s: string, k: nat)
    requires s != [] && k <= |SplitTuple(s)|
    decreases |s|, 0, k
  {
    k > 0 && (SplitShortens(Inner(s), 0, []); IsDynamicText(SplitTuple(s)[k - 1]) || AnyDynamic(s, k - 1))
  }

  lemma {:induction false} TextClassifies(t: Type)
    ensures EndsWith(Text(t), "[]") <==> t.ArrayT?
    ensures t.TupleT? ==> Text(t)[0] == '('
    ensures Text(t)[0] == '(' ==> t.TupleT? || t.ArrayT?
    ensures Text(t) == "bytes" <==> t.BytesT?
    ensures Text(t) != "string"
    decreases t
  {
    match t {
      case UintT(bits) =>
        var d := Decimal(bits);
        assert Text(t)[|Text(t)| - 1] == d[|d| - 1];
        assert Text(t)[0] == 'u';
      case ArrayT(elem) =>
        var s := Text(t);
        assert s[|s| - 2..] == "[]";
        assert s[|s| - 1] == ']' && "bytes"[4] == 's' && "string"[5] == 'g';
      case TupleT(_) =>
        var s := Text(t);
        assert s[|s| - 1] == ')' && "[]"[1] == ']' && s[|s| - 2..][1] == s[|s| - 1];
        assert s[0] == '(' && "bytes"[0] == 'b' && "string"[0] == 's';
      case _ =>
    }
  }

  /** The text test decides exactly what the parsed type says. */
  lemma {:induction false} DynamicTextAgrees(t: Type)
    ensures IsDynamicText(Text(t)) <==> IsDynamic(t)
    decreases t, 1, 0
  {
    TextClassifies(t);
    if t.TupleT? {
      SplitUndoesPrinting(t);
      AnyDynamicAgrees(t, |t.items|);
    }
  }

  lemma {:induction false} AnyDynamicAgrees(t: Type, k: nat)
    requires t.TupleT? && k <= |t.items| && SplitTuple(Text(t)) == Texts(t, 0)
    ensures AnyDynamic(Text(t), k) <==> exists i :: 0 <= i < k && IsDynamic(t.items[i])
    decreases t, 0, k
  {
    if k > 0 {
      assert SplitTuple(Text(t))[k - 1] == Text(t.items[k - 1]);
      DynamicTextAgrees(t.items[k - 1]);
      AnyDynamicAgrees(t, k - 1);
      if IsDynamic(t.items[k - 1]) {
        assert AnyDynamic(Text(t), k);
      } else {
        assert AnyDynamic(Text(t), k) == AnyDynamic(Text(t), k - 1);
      }
    }
  }
}

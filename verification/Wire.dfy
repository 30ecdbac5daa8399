/**
 * The protobuf codec of MsgUpdateParams: varints, a buffer filled from the back, parsing and unknown-field skipping.
 */
module Wire {
  import opened Amounts

  type Byte = x: int | 0 <= x < 256

  datatype Error =
    | IntOverflow
    | UnexpectedEof
    | InvalidLength
    | EndGroup
    | IllegalTag
    | WrongWireType
    | IllegalWireType
    | UnexpectedEndOfGroup

  datatype Result<+T> = Ok(value: T) | Err(error: Error)

  // ---------------------------------------------------------------- bits

  function Pow2(n: nat): (p: nat)
    ensures p > 0
  {
    if n == 0 then 1 else 2 * Pow2(n - 1)
  }

  /** Bitwise or. */
  function Or(a: nat, b: nat): nat {
    if a == 0 then b else if b == 0 then a
    else 2 * Or(a / 2, b / 2) + (if a % 2 == 1 || b % 2 == 1 then 1 else 0)
  }

  /** The number of bits of x: bits.Len64. */
  function BitLen(x: nat): nat {
    if x == 0 then 0 else 1 + BitLen(x / 2)
  }

  /** sovTx: how many bytes a varint takes. */
  function Sov(x: U64): nat {
    (BitLen(Or(x, 1)) + 6) / 7
  }

  /** Setting bits above all bits of a is adding them. */
  lemma {:induction false} OrAbove(a: nat, b: nat, s: nat)
    requires a < Pow2(s)
    ensures Or(a, b * Pow2(s)) == a + b * Pow2(s)
  {
    if s > 0 && a > 0 && b > 0 {
      var q := b * Pow2(s - 1);
      assert b * Pow2(s) == 2 * q by { Doubled(b, Pow2(s - 1)); }
      assert q > 0 by { Positive(b, Pow2(s - 1)); }
      OrAbove(a / 2, b, s - 1);
    }
  }

  lemma Doubled(b: nat, p: nat)
    ensures b * (2 * p) == 2 * (b * p)
  {
  }

  lemma Positive(b: nat, p: nat)
    requires b > 0 && p > 0
    ensures b * p > 0
  {
  }

  // ---------------------------------------------------------------- varints

  /** The varint encoding of v, least significant group first. */
  function VarintBytes(v: nat): (b: seq<Byte>)
    ensures |b| > 0
  {
    if v < 128 then [v] else [v % 128 + 128] + VarintBytes(v / 128)
  }

  datatype Read = Read(value: U64, used: nat)

  /** The varint loop of Unmarshal and skipTx, from the bytes still ahead. */
  function Varint(d: seq<Byte>, shift: nat, acc: U64): (r: Result<Read>)
    ensures r.Ok? ==> 1 <= r.value.used <= |d|
    decreases |d|
  {
    if shift >= 64 then Err(IntOverflow)
    else if |d| == 0 then Err(UnexpectedEof)
    else
      var acc' := Added(acc, d[0], shift);
      if d[0] < 128 then Ok(Read(acc', 1))
      else
        var rest := Varint(d[1..], shift + 7, acc');
        if rest.Err? then rest else Ok(Read(rest.value.value, rest.value.used + 1))
  }

  /** One group of seven bits or-ed in; bits shifted past 64 are lost. */
  function Added(acc: U64, b: Byte, shift: nat): U64 {
    Wrap(Or(acc, Wrap(b % 128 * Pow2(shift))))
  }

  method ReadVarint(d: seq<Byte>, start: nat) returns (r: Result<Read>)
    requires start <= |d|
    ensures r == Varint(d[start..], 0, 0)
  {
    var value: U64, index, shift := 0, start, 0;
    while true
      invariant start <= index <= |d|
      invariant Varint(d[start..], 0, 0) == Moved(Varint(d[index..], shift, value), index - start)
      decreases |d| - index
    {
      if shift >= 64 {
        return Err(IntOverflow);
      }
      if index >= |d| {
        return Err(UnexpectedEof);
      }
      var b := d[index];
      assert d[index..][1..] == d[index + 1..];
      value := Added(value, b, shift);
      index := index + 1;
      if b < 128 {
        return Ok(Read(value, index - start));
      }
      shift := shift + 7;
    }
  }

  /** The same reading, counted from earlier bytes. */
  function Moved(r: Result<Read>, n: nat): Result<Read> {
    if r.Err? then r else Ok(Read(r.value.value, r.value.used + n))
  }

  lemma {:induction false} BitLenShift(v: nat)
    requires v >= 128
    ensures BitLen(v) == 7 + BitLen(v / 128)
  {
    assert v / 2 / 2 / 2 / 2 / 2 / 2 / 2 == v / 128;
    assert BitLen(v) == 1 + BitLen(v / 2);
    assert BitLen(v / 2) == 1 + BitLen(v / 2 / 2);
    assert BitLen(v / 2 / 2) == 1 + BitLen(v / 2 / 2 / 2);
    assert BitLen(v / 2 / 2 / 2) == 1 + BitLen(v / 2 / 2 / 2 / 2);
    assert BitLen(v / 2 / 2 / 2 / 2) == 1 + BitLen(v / 2 / 2 / 2 / 2 / 2);
    assert BitLen(v / 2 / 2 / 2 / 2 / 2) == 1 + BitLen(v / 2 / 2 / 2 / 2 / 2 / 2);
    assert BitLen(v / 2 / 2 / 2 / 2 / 2 / 2) == 1 + BitLen(v / 128);
  }

  /** The lowest bit never changes the length of a number that has one. */
  lemma BitLenOr(v: nat)
    ensures BitLen(Or(v, 1)) == if v == 0 then 1 else BitLen(v)
  {
    if v > 0 {
      assert Or(v / 2, 0) == v / 2;
      assert Or(v, 1) == 2 * (v / 2) + 1;
      assert Or(v, 1) / 2 == v / 2;
    } else {
      assert BitLen(1) == 1 + BitLen(0);
    }
  }

  lemma {:induction false} BitLenBound(v: nat, k: nat)
    requires v < Pow2(k)
    ensures BitLen(v) <= k
  {
    if v > 0 {
      BitLenBound(v / 2, k - 1);
    }
  }

  /** sovTx is the length of the encoding. */
  lemma {:induction false} SovIsLength(v: U64)
    ensures |VarintBytes(v)| == Sov(v)
    decreases v
  {
    BitLenOr(v);
    if v < 128 {
      assert Pow2(7) == 128;
      BitLenBound(v, 7);
    } else {
      BitLenOr(v / 128);
      BitLenShift(v);
      SovIsLength(v / 128);
    }
  }

  lemma GroupSplit(v: nat, p: nat)
    ensures v % 128 * p + v / 128 * (128 * p) == v * p
  {
    assert v == 128 * (v / 128) + v % 128;
    assert v * p == (128 * (v / 128) + v % 128) * p;
    assert v / 128 * (128 * p) == 128 * (v / 128) * p;
  }

  lemma Pow2Step(n: nat)
    ensures Pow2(n + 7) == 128 * Pow2(n)
  {
    assert Pow2(n + 7) == 2 * Pow2(n + 6);
    assert Pow2(n + 6) == 2 * Pow2(n + 5);
    assert Pow2(n + 5) == 2 * Pow2(n + 4);
    assert Pow2(n + 4) == 2 * Pow2(n + 3);
    assert Pow2(n + 3) == 2 * Pow2(n + 2);
    assert Pow2(n + 2) == 2 * Pow2(n + 1);
  }

  lemma {:induction false} Pow2Monotone(m: nat, n: nat)
    requires m <= n
    ensures Pow2(m) <= Pow2(n)
  {
    if m < n {
      Pow2Monotone(m, n - 1);
    }
  }

  lemma Pow64()
    ensures Pow2(64) == TWO64
  {
    assert Pow2(8) == 256;
    Pow2Split(8, 8);
    Pow2Split(16, 16);
    Pow2Split(32, 32);
  }

  lemma {:induction false} Pow2Split(m: nat, n: nat)
    ensures Pow2(m + n) == Pow2(m) * Pow2(n)
  {
    if n > 0 {
      Pow2Split(m, n - 1);
      Doubled(Pow2(m), Pow2(n - 1));
    }
  }

  lemma Below(v: nat, p: nat, acc: nat, x: int)
    requires acc + v * p < x && p > 0
    ensures v % 128 * p <= v * p < x && v / 128 * (128 * p) <= v * p
  {
    GroupSplit(v, p);
    assert v % 128 * p >= 0 && v / 128 * (128 * p) >= 0;
  }

  /** One group of a number that fits is added without loss. */
  lemma AddedExactly(acc: U64, v: nat, shift: nat)
    requires acc < Pow2(shift) && acc + v * Pow2(shift) < TWO64
    ensures var low := v % 128;
            Wrap(low * Pow2(shift)) == low * Pow2(shift) && Wrap(Or(acc, low * Pow2(shift))) == acc + low * Pow2(shift)
    ensures acc + v % 128 * Pow2(shift) < Pow2(shift + 7)
    ensures acc + v % 128 * Pow2(shift) + v / 128 * Pow2(shift + 7) == acc + v * Pow2(shift)
  {
    hide Pow2, Or;
    var p := Pow2(shift);
    Below(v, p, acc, TWO64);
    GroupSplit(v, p);
    Pow2Step(shift);
    OrAbove(acc, v % 128, shift);
    LowBound(v % 128, p);
  }

  lemma LowBound(low: nat, p: nat)
    requires low < 128
    ensures low * p <= 127 * p
  {
  }

  lemma ShiftBound(v: nat, shift: nat)
    requires v > 0 && v * Pow2(shift) < TWO64
    ensures shift < 64
  {
    hide Pow2;
    AtLeast(v, Pow2(shift));
    Pow64();
    if shift >= 64 {
      Pow2Monotone(64, shift);
    }
  }

  lemma AtLeast(v: nat, p: nat)
    requires v > 0
    ensures v * p >= p
  {
  }

  /** Reading what was printed, with anything after it, at any shift that keeps the number in 64 bits. */
  lemma {:induction false} VarintDecodes(v: nat, rest: seq<Byte>, shift: nat, acc: U64)
    requires acc < Pow2(shift) && acc + v * Pow2(shift) < TWO64 && (v > 0 || shift == 0)
    ensures Varint(VarintBytes(v) + rest, shift, acc) == Ok(Read(acc + v * Pow2(shift), |VarintBytes(v)|))
    decreases v
  {
    hide Pow2, Or, Wrap;
    var d := VarintBytes(v) + rest;
    if v > 0 {
      ShiftBound(v, shift);
    }
    AddedExactly(acc, v, shift);
    assert Pow2(shift) > 0;
    if v < 128 {
      assert v % 128 == v && v / 128 == 0;
      assert d[0] == v;
    } else {
      assert d[0] == v % 128 + 128;
      assert d[0] % 128 == v % 128;
      assert d[1..] == VarintBytes(v / 128) + rest;
      var acc' := Added(acc, d[0], shift);
      assert acc' == acc + v % 128 * Pow2(shift);
      VarintDecodes(v / 128, rest, shift + 7, acc');
    }
  }

  /**
   * Varint round trip: every 64-bit number is written in exactly sovTx bytes that read back as it, whatever follows.
   */
  lemma VarintRoundTrip(v: U64, rest: seq<Byte>)
    ensures |VarintBytes(v)| == Sov(v) && Varint(VarintBytes(v) + rest, 0, 0) == Ok(Read(v, Sov(v)))
  {
    SovIsLength(v);
    VarintDecodes(v, rest, 0, 0);
  }

  lemma VarintStep(v: nat)
    ensures VarintBytes(v) == if v < 128 then [v] else [v % 128 + 128] + VarintBytes(v / 128)
    ensures Or(v % 128, 128) == v % 128 + 128
  {
    hide VarintBytes, Or;
    assert Pow2(7) == 128;
    OrAbove(v % 128, 1, 7);
    VarintUnfolds(v);
  }

  lemma VarintUnfolds(v: nat)
    ensures VarintBytes(v) == if v < 128 then [v] else [v % 128 + 128] + VarintBytes(v / 128)
  {
  }

  /** encodeVarintTx: fills the Sov(v) bytes before offset and touches no other. */
  method EncodeVarint(a: array<Byte>, offset: nat, v: U64) returns (base: nat)
    requires Sov(v) <= offset <= a.Length
    modifies a
    ensures base == offset - Sov(v)
    ensures a[base..offset] == VarintBytes(v)
    ensures a[..base] == old(a[..base]) && a[offset..] == old(a[offset..])
  {
    hide VarintBytes, Or, Sov;
    SovIsLength(v);
    base := offset - Sov(v);
    var i, rest: U64 := base, v;
    while rest >= 128
      invariant base <= i < offset && i + |VarintBytes(rest)| == offset
      invariant a[base..i] + VarintBytes(rest) == VarintBytes(v)
      invariant forall k :: 0 <= k < a.Length && !(base <= k < i) ==> a[k] == old(a[k])
      decreases rest
    {
      ghost var before := a[base..i];
      VarintStep(rest);
      a[i] := Or(rest % 128, 128);
      assert a[base..i + 1] == before + [rest % 128 + 128];
      AppendAssoc(before, rest % 128 + 128, VarintBytes(rest / 128));
      rest := rest / 128;
      i := i + 1;
    }
    ghost var before := a[base..i];
    VarintStep(rest);
    a[i] := rest;
    assert a[base..offset] == before + [rest];
  }

  lemma AppendAssoc(s: seq<Byte>, b: Byte, t: seq<Byte>)
    ensures s + ([b] + t) == s + [b] + t
  {
  }

  // ---------------------------------------------------------------- skipping

  const TWO31: int := 0x8000_0000
  const TWO32: int := 0x1_0000_0000

  /** int32(x) of an unsigned number. */
  function Int32(x: nat): (r: int)
    ensures -TWO31 <= r < TWO31 && (x - r) % TWO32 == 0
  {
    var y := x % TWO32;
    if y >= TWO31 then y - TWO32 else y
  }

  /** One token: how many bytes it covers, and how it changes the group depth. */
  datatype Token = Token(used: nat, depth: int)

  /** A tag and its payload. A length may reach past the bytes that are there. */
  function NextToken(d: seq<Byte>): (r: Result<Token>)
    ensures r.Ok? ==> r.value.used >= 1 && -1 <= r.value.depth <= 1
  {
    var tag := Varint(d, 0, 0);
    if tag.Err? then Err(tag.error)
    else
      var used := tag.value.used;
      var kind := tag.value.value % 8;
      if kind == 0 then
        var v := Varint(d[used..], 0, 0);
        if v.Err? then Err(v.error) else Ok(Token(used + v.value.used, 0))
      else if kind == 1 then Ok(Token(used + 8, 0))
      else if kind == 2 then
        var v := Varint(d[used..], 0, 0);
        if v.Err? then Err(v.error)
        else if v.value.value >= TWO63 then Err(InvalidLength)
        else Ok(Token(used + v.value.used + v.value.value, 0))
      else if kind == 3 then Ok(Token(used, 1))
      else if kind == 4 then Ok(Token(used, -1))
      else if kind == 5 then Ok(Token(used + 4, 0))
      else Err(IllegalWireType)
  }

  /** skipTx from an index and a depth, over the bytes still ahead: the index where the field ends. */
  function Skip(d: seq<Byte>, index: nat, depth: nat): (r: Result<nat>)
    ensures r.Ok? ==> r.value > index
    decreases |d|
  {
    if |d| == 0 then Err(UnexpectedEof)
    else
      var t := NextToken(d);
      if t.Err? then Err(t.error)
      else if depth + t.value.depth < 0 then Err(UnexpectedEndOfGroup)
      else if index + t.value.used >= TWO63 then Err(InvalidLength)
      else if depth + t.value.depth == 0 then Ok(index + t.value.used)
      else if t.value.used >= |d| then Err(UnexpectedEof)
      else Skip(d[t.value.used..], index + t.value.used, depth + t.value.depth)
  }

  /** skipTx. */
  method SkipField(d: seq<Byte>) returns (r: Result<nat>)
    requires |d| < TWO63
    ensures r == Skip(d, 0, 0)
  {
    hide NextToken;
    var index, depth := 0, 0;
    while index < |d|
      invariant depth >= 0 && (index < |d| ==> Skip(d, 0, 0) == Skip(d[index..], index, depth))
      invariant index >= |d| ==> Skip(d, 0, 0) == Err(UnexpectedEof)
      decreases |d| - index
    {
      assert index == 0 ==> d[0..] == d;
      var t := ReadToken(d, index);
      if t.Err? {
        return Err(t.error);
      }
      if t.value.depth < 0 && depth == 0 {
        return Err(UnexpectedEndOfGroup);
      }
      depth := depth + t.value.depth;
      assert t.value.used < |d[index..]| ==> d[index..][t.value.used..] == d[index + t.value.used..];
      index := index + t.value.used;
      if index >= TWO63 {
        return Err(InvalidLength);
      }
      if depth == 0 {
        return Ok(index);
      }
    }
    return Err(UnexpectedEof);
  }

  /** One pass of the loop in skipTx. */
  method ReadToken(d: seq<Byte>, start: nat) returns (r: Result<Token>)
    requires start < |d|
    ensures r == NextToken(d[start..])
  {
    var tag := ReadVarint(d, start);
    if tag.Err? {
      return Err(tag.error);
    }
    var index := start + tag.value.used;
    assert d[start..][tag.value.used..] == d[index..];
    match tag.value.value % 8 {
      case 0 =>
        var v := ReadVarint(d, index);
        if v.Err? { return Err(v.error); }
        return Ok(Token(index + v.value.used - start, 0));
      case 1 => return Ok(Token(index + 8 - start, 0));
      case 2 =>
        var v := ReadVarint(d, index);
        if v.Err? { return Err(v.error); }
        if v.value.value >= TWO63 { return Err(InvalidLength); }
        return Ok(Token(index + v.value.used + v.value.value - start, 0));
      case 3 => return Ok(Token(index - start, 1));
      case 4 => return Ok(Token(index - start, -1));
      case 5 => return Ok(Token(index + 4 - start, 0));
      case _ => return Err(IllegalWireType);
    }
  }

  // ---------------------------------------------------------------- messages

  /** Params has no fields yet. */
  datatype Params = Params

  datatype Msg = Msg(authority: seq<Byte>, params: Params)

  const EMPTY := Msg([], Params)

  function FieldBytes(m: Msg): nat {
    if |m.authority| > 0 && |m.authority| < TWO64 then 1 + |m.authority| + Sov(|m.authority|) else 0
  }

  /** Size of MsgUpdateParams: the embedded Params is always written, with length zero. */
  function Size(m: Msg): nat {
    FieldBytes(m) + 1 + Sov(0)
  }

  /** The wire form: field 1 when it is not empty, then field 2, each a tag, a length and its bytes. */
  function Encoded(m: Msg): seq<Byte> {
    (if |m.authority| > 0 then [0x0a] + VarintBytes(|m.authority|) + m.authority else []) + [0x12] + VarintBytes(0)
  }

  lemma SizeIsLength(m: Msg)
    requires |m.authority| < TWO64
    ensures |Encoded(m)| == Size(m)
  {
    hide Sov, VarintBytes;
    SovIsLength(0);
    SovIsLength(|m.authority|);
  }

  /** The bytes of a are those before, except for a block of new ones that starts at base. */
  ghost predicate Patched(before: seq<Byte>, after: seq<Byte>, base: nat, block: seq<Byte>) {
    base + |block| <= |before| == |after| && after[..base] == before[..base] && after[base..base + |block|] == block &&
    after[base + |block|..] == before[base + |block|..]
  }

  lemma PatchedTwice(a: seq<Byte>, b: seq<Byte>, c: seq<Byte>, base: nat, x: seq<Byte>, y: seq<Byte>)
    requires base + |x| + |y| <= |a| && Patched(a, b, base + |x|, y) && Patched(b, c, base, x)
    ensures Patched(a, c, base, x + y)
  {
    var n, m := base + |x|, base + |x| + |y|;
    assert c[..base] == b[..n][..base] == a[..n][..base] == a[..base];
    assert c[n..] == b[n..] && b[n..m] == y && c[n..][..|y|] == b[n..][..|y|];
    assert c[base..m] == c[base..n] + c[n..m];
    assert c[m..] == c[n..][|y|..] == b[n..][|y|..] == b[m..];
  }

  /** copy(dAtA[base:], body). */
  method CopyInto(a: array<Byte>, base: nat, body: seq<Byte>)
    requires base + |body| <= a.Length
    modifies a
    ensures Patched(old(a[..]), a[..], base, body)
  {
    for k := 0 to |body|
      invariant a[base..base + k] == body[..k]
      invariant forall x :: 0 <= x < a.Length && !(base <= x < base + k) ==> a[x] == old(a[x])
    {
      a[base + k] := body[k];
    }
  }

  /** A length-delimited field written backwards from offset: its bytes, then their length, then the tag. */
  method PutField(a: array<Byte>, offset: nat, tag: Byte, body: seq<Byte>) returns (base: nat)
    requires |body| < TWO63 && 1 + Sov(|body|) + |body| <= offset <= a.Length
    modifies a
    ensures base == offset - |body| - Sov(|body|) - 1
    ensures Patched(old(a[..]), a[..], base, [tag] + VarintBytes(|body|) + body)
  {
    hide Sov, VarintBytes, Patched;
    SovIsLength(|body|);
    ghost var start := a[..];
    base := offset - |body|;
    CopyInto(a, base, body);
    ghost var copied := a[..];
    base := EncodeVarint(a, base, |body|);
    ghost var sized := a[..];
    VarintPatched(copied, sized, base, |body|);
    PatchedTwice(start, copied, sized, base, VarintBytes(|body|), body);
    base := base - 1;
    a[base] := tag;
    BytePatched(sized, a[..], base, tag);
    PatchedTwice(start, sized, a[..], base, [tag], VarintBytes(|body|) + body);
    assert [tag] + (VarintBytes(|body|) + body) == [tag] + VarintBytes(|body|) + body;
  }

  lemma VarintPatched(before: seq<Byte>, after: seq<Byte>, base: nat, v: U64)
    requires var end := base + |VarintBytes(v)|;
             end <= |before| == |after| && after[base..end] == VarintBytes(v) && after[..base] == before[..base] &&
             after[end..] == before[end..]
    ensures Patched(before, after, base, VarintBytes(v))
  {
    hide VarintBytes;
  }

  lemma BytePatched(before: seq<Byte>, after: seq<Byte>, base: nat, b: Byte)
    requires base < |before| && after == before[base := b]
    ensures Patched(before, after, base, [b])
  {
  }

  /** MarshalToSizedBuffer: writes exactly Size() bytes at the end of the buffer and leaves the rest alone. */
  method MarshalToSizedBuffer(m: Msg, a: array<Byte>) returns (n: nat)
    requires Size(m) <= a.Length < TWO63 && |m.authority| < TWO63
    modifies a
    ensures n == Size(m) && a[a.Length - n..] == Encoded(m) && a[..a.Length - n] == old(a[..a.Length - n])
  {
    hide Sov, VarintBytes, Patched;
    SizeIsLength(m);
    SovIsLength(0);
    SovIsLength(|m.authority|);
    ghost var start := a[..];
    var i := PutField(a, a.Length, 0x12, []);
    ghost var params := [0x12] + VarintBytes(0) + [];
    if |m.authority| > 0 {
      ghost var mid := a[..];
      i := PutField(a, i, 0x0a, m.authority);
      PatchedTwice(start, mid, a[..], i, [0x0a] + VarintBytes(|m.authority|) + m.authority, params);
      assert Encoded(m) == [0x0a] + VarintBytes(|m.authority|) + m.authority + params;
    } else {
      assert Encoded(m) == params;
    }
    n := a.Length - i;
    PatchedTail(start, a[..], i, Encoded(m));
  }

  lemma PatchedTail(before: seq<Byte>, after: seq<Byte>, base: nat, block: seq<Byte>)
    requires Patched(before, after, base, block) && base + |block| == |before|
    ensures after[base..] == block && after[..base] == before[..base]
  {
  }

  /** Marshal. */
  method Marshal(m: Msg) returns (d: array<Byte>)
    requires Size(m) < TWO63 && |m.authority| < TWO63
    ensures d[..] == Encoded(m)
  {
    d := new Byte[Size(m)];
    var n := MarshalToSizedBuffer(m, d);
    assert d[d.Length - n..] == d[..];
  }
}

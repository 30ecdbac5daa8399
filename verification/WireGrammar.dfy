/**
 * The wire format as a grammar, without a parser: varints as groups of seven bits, tags, payloads, balanced groups, and
 * the messages they make up.
 */
module WireGrammar {
  import opened Amounts
  import opened Wire

  // ---------------------------------------------------------------- varints

  /** The number that groups of seven bits stand for, least significant first. */
  function Groups(b: seq<Byte>): nat {
    if |b| == 0 then 0 else b[0] % 128 + 128 * Groups(b[1..])
  }

  /** At most ten bytes, of which exactly the last has no continuation bit. */
  predicate IsVarint(b: seq<Byte>) {
    1 <= |b| <= 10 && (forall i :: 0 <= i < |b| - 1 ==> b[i] >= 128) && b[|b| - 1] < 128
  }

  /** What a varint says: bits above the sixty-fourth are lost. */
  function Said(b: seq<Byte>): U64 {
    Wrap(Groups(b))
  }

  // ---------------------------------------------------------------- fields

  /** The field number of a tag as the parser sees it, a signed 32-bit number, and its wire type. */
  function NumberOf(tag: seq<Byte>): int {
    Int32(Said(tag) / 8)
  }

  function KindOf(tag: seq<Byte>): nat {
    Said(tag) % 8
  }

  /** A length and that many bytes. */
  predicate IsDelimited(p: seq<Byte>, body: seq<Byte>) {
    var k := |p| - |body|;
    k > 0 && p[k..] == body && IsVarint(p[..k]) && Said(p[..k]) == |body| && |body| < TWO63
  }

  ghost predicate IsPayload(kind: nat, p: seq<Byte>) {
    match kind
    case 0 => IsVarint(p)
    case 1 => |p| == 8
    case 2 => exists body :: IsDelimited(p, body)
    case 5 => |p| == 4
    case _ => false
  }

  /** A field that is no group: a tag and the payload of its wire type. */
  ghost predicate IsScalar(b: seq<Byte>) {
    exists k :: 0 < k <= |b| && IsVarint(b[..k]) && IsPayload(KindOf(b[..k]), b[k..])
  }

  /** A tag that starts a group, or ends one. */
  predicate IsMark(b: seq<Byte>, kind: nat) {
    IsVarint(b) && KindOf(b) == kind
  }

  /** A field: a scalar, or a group of fields between a start and an end, which need not carry the same number. */
  datatype Tree = Leaf(bytes: seq<Byte>) | Group(open: seq<Byte>, body: Forest, close: seq<Byte>)
  datatype Forest = Nil | Cons(head: Tree, tail: Forest)

  ghost predicate WellFormed(t: Tree) {
    match t
    case Leaf(b) => IsScalar(b)
    case Group(o, body, c) => IsMark(o, 3) && IsMark(c, 4) && AllWellFormed(body)
  }

  ghost predicate AllWellFormed(f: Forest) {
    f.Nil? || (WellFormed(f.head) && AllWellFormed(f.tail))
  }

  function Flatten(t: Tree): seq<Byte> {
    match t
    case Leaf(b) => b
    case Group(o, body, c) => o + FlattenAll(body) + c
  }

  function FlattenAll(f: Forest): seq<Byte> {
    if f.Nil? then [] else Flatten(f.head) + FlattenAll(f.tail)
  }

  ghost predicate IsField(b: seq<Byte>) {
    exists t :: WellFormed(t) && Flatten(t) == b
  }

  // ---------------------------------------------------------------- messages

  /** Bytes that begin with a tag of this number and wire type. */
  predicate Tagged(b: seq<Byte>, k: nat, number: int, kind: nat) {
    0 < k <= |b| && IsVarint(b[..k]) && NumberOf(b[..k]) == number && KindOf(b[..k]) == kind
  }

  /** A whole field with a positive number. */
  ghost predicate IsNumbered(b: seq<Byte>, number: int) {
    IsField(b) && number > 0 && exists k, kind :: Tagged(b, k, number, kind)
  }

  /** The empty Params: any fields at all. */
  ghost predicate IsParams(d: seq<Byte>)
    decreases |d|
  {
    |d| == 0 || exists n, number :: 0 < n <= |d| && IsNumbered(d[..n], number) && IsParams(d[n..])
  }

  /** One field of the message and what it does: the authority is replaced, params and unknown fields change nothing. */
  ghost predicate IsItem(b: seq<Byte>, m: Msg, m': Msg) {
    (exists k: nat :: Tagged(b, k, 1, 2) && IsDelimited(b[k..], m'.authority) && m' == m.(authority := m'.authority)) ||
    (exists k: nat, body :: Tagged(b, k, 2, 2) && IsDelimited(b[k..], body) && IsParams(body) && m' == m) ||
    (exists number :: IsNumbered(b, number) && number != 1 && number != 2 && m' == m)
  }

  /** Fields one after the other, from message m to message m'. */
  ghost predicate IsMessage(d: seq<Byte>, m: Msg, m': Msg)
    decreases |d|
  {
    if |d| == 0 then m' == m
    else exists n, next :: 0 < n <= |d| && IsItem(d[..n], m, next) && IsMessage(d[n..], next, m')
  }

  // ---------------------------------------------------------------- reading varints

  /** A group or-ed in is a group added, up to the bits that are lost. */
  lemma AddedIsSum(acc: U64, b: Byte, shift: nat)
    requires shift <= 63 && acc < Pow2(shift)
    ensures Added(acc, b, shift) == Wrap(acc + b % 128 * Pow2(shift))
  {
    hide Pow2, Or;
    var low, p := b % 128, Pow2(shift);
    Pow64();
    Pow2Split(shift, 64 - shift);
    var q := Pow2(64 - shift);
    assert p * q == TWO64;
    KeptBits(low, p, q);
    OrAbove(acc, low % q, shift);
    SumKept(acc, low, p, q);
  }

  /** Shifting left by s keeps the low 64 - s bits. */
  lemma KeptBits(low: nat, p: nat, q: nat)
    requires p > 0 && q > 0 && p * q == TWO64
    ensures Wrap(low * p) == low % q * p
  {
    var r := low % q;
    assert low == q * (low / q) + r;
    assert low * p == (q * (low / q) + r) * p;
    assert (q * (low / q) + r) * p == TWO64 * (low / q) + r * p by { Spread(q, low / q, r, p); }
    SmallProduct(r, p, q);
    ModShift(r * p, low / q);
    WrapSmall(r * p);
  }

  lemma Spread(q: nat, x: nat, r: nat, p: nat)
    ensures (q * x + r) * p == p * q * x + r * p
  {
  }

  lemma SmallProduct(r: nat, p: nat, q: nat)
    requires r < q && p > 0
    ensures 0 <= r * p < p * q && r * p <= p * q - p
  {
    assert (q - r) * p >= p by { AtLeast(q - r, p); }
    assert (q - r) * p == q * p - r * p;
  }

  lemma SumKept(acc: nat, low: nat, p: nat, q: nat)
    requires p > 0 && q > 0 && p * q == TWO64 && acc < p
    ensures Wrap(acc + low % q * p) == acc + low % q * p && Wrap(acc + low * p) == acc + low % q * p
  {
    hide Wrap;
    KeptBits(low, p, q);
    SmallProduct(low % q, p, q);
    WrapAdd(low * p, acc);
    WrapSmall(acc + low % q * p);
  }

  lemma GroupsStep(b: seq<Byte>, acc: nat, shift: nat)
    requires |b| > 0
    ensures acc + Groups(b) * Pow2(shift) == acc + b[0] % 128 * Pow2(shift) + Groups(b[1..]) * Pow2(shift + 7)
  {
    hide Pow2;
    Pow2Step(shift);
    Spread(128, Groups(b[1..]), b[0] % 128, Pow2(shift));
    assert Groups(b) == 128 * Groups(b[1..]) + b[0] % 128;
    Commute(Pow2(shift), Groups(b[1..]));
  }

  lemma Commute(p: nat, g: nat)
    ensures p * 128 * g == g * (128 * p)
  {
  }

  lemma BelowNext(acc: U64, b: Byte, shift: nat)
    requires shift + 7 <= 63 && acc < Pow2(shift)
    ensures Added(acc, b, shift) == acc + b % 128 * Pow2(shift) < Pow2(shift + 7)
  {
    hide Pow2, Added;
    AddedIsSum(acc, b, shift);
    Pow2Step(shift);
    LowBound(b % 128, Pow2(shift));
    Pow2Monotone(shift + 7, 64);
    Pow64();
    WrapSmall(acc + b % 128 * Pow2(shift));
  }

  /** At most so many bytes, of which exactly the last has no continuation bit. */
  predicate Closed(b: seq<Byte>, room: nat) {
    1 <= |b| <= room && (forall i :: 0 <= i < |b| - 1 ==> b[i] >= 128) && b[|b| - 1] < 128
  }

  lemma ClosedTail(b: seq<Byte>, room: nat)
    requires |b| > 0 && room > 0
    ensures Closed(b, room) <==> if b[0] < 128 then |b| == 1 else |b| > 1 && Closed(b[1..], room - 1)
  {
    if b[0] >= 128 && |b| > 1 && Closed(b[1..], room - 1) {
      forall i | 0 <= i < |b| - 1 ensures b[i] >= 128 {
        if i > 0 { assert b[i] == b[1..][i - 1]; }
      }
      assert b[|b| - 1] == b[1..][|b| - 2];
    }
    if Closed(b, room) && b[0] >= 128 {
      forall i | 0 <= i < |b| - 2 ensures b[1..][i] >= 128 { assert b[1..][i] == b[i + 1]; }
    }
  }

  /** The varint loop from its k-th group on. */
  lemma {:induction false} VarintFrom(d: seq<Byte>, k: nat, acc: U64, n: nat)
    requires k <= 9 && acc < Pow2(7 * k) && n <= |d|
    ensures Varint(d, 7 * k, acc).Ok? && Varint(d, 7 * k, acc).value.used == n <==> Closed(d[..n], 10 - k)
    ensures Closed(d[..n], 10 - k) ==>
              Varint(d, 7 * k, acc) == Ok(Read(Wrap(acc + Groups(d[..n]) * Pow2(7 * k)), n))
    decreases |d|
  {
    hide Pow2, Added, Wrap;
    if n > 0 {
      var b := d[..n];
      ClosedTail(b, 10 - k);
      AddedIsSum(acc, d[0], 7 * k);
      GroupsStep(b, acc, 7 * k);
      assert d[1..][..n - 1] == b[1..];
      if d[0] < 128 {
        assert |b| == 1 ==> Groups(b[1..]) == 0;
        Zero(Pow2(7 * k + 7));
      } else if k < 9 {
        BelowNext(acc, d[0], 7 * k);
        VarintFrom(d[1..], k + 1, Added(acc, d[0], 7 * k), n - 1);
      }
    }
  }

  lemma Zero(p: nat)
    ensures 0 * p == 0
  {
  }

  /** Reading a varint succeeds exactly on bytes that begin with one, and gives what it says. */
  lemma VarintExactly(d: seq<Byte>, n: nat)
    requires n <= |d|
    ensures Varint(d, 0, 0).Ok? && Varint(d, 0, 0).value.used == n <==> IsVarint(d[..n])
    ensures IsVarint(d[..n]) ==> Varint(d, 0, 0) == Ok(Read(Said(d[..n]), n))
  {
    hide Varint;
    assert Pow2(0) == 1;
    VarintFrom(d, 0, 0, n);
    assert Groups(d[..n]) * 1 == Groups(d[..n]);
  }

  /** The next so many bytes are there and all announce another. */
  predicate Continued(d: seq<Byte>, room: nat) {
    |d| >= room && forall i :: 0 <= i < room ==> d[i] >= 128
  }

  lemma ContinuedTail(d: seq<Byte>, room: nat)
    requires |d| > 0 && room > 0
    ensures Continued(d, room) <==> d[0] >= 128 && Continued(d[1..], room - 1)
  {
    var rest := d[1..];
    if d[0] >= 128 && Continued(rest, room - 1) {
      forall i | 0 <= i < room ensures d[i] >= 128 {
        if i > 0 { assert d[i] == rest[i - 1]; }
      }
    }
    if Continued(d, room) {
      forall i | 0 <= i < room - 1 ensures rest[i] >= 128 { assert rest[i] == d[i + 1]; }
    }
  }

  /** Reading fails for overflow exactly when the tenth byte announces another, and otherwise for want of bytes. */
  lemma {:induction false} OverflowFrom(d: seq<Byte>, k: nat, acc: U64)
    requires k <= 10
    ensures Varint(d, 7 * k, acc) == Err(IntOverflow) <==> Continued(d, 10 - k)
    ensures Varint(d, 7 * k, acc).Err? ==>
              Varint(d, 7 * k, acc).error == IntOverflow || Varint(d, 7 * k, acc).error == UnexpectedEof
    decreases |d|
  {
    hide Added;
    if k < 10 && |d| > 0 {
      ContinuedTail(d, 10 - k);
      OverflowFrom(d[1..], k + 1, Added(acc, d[0], 7 * k));
    }
  }

  // ---------------------------------------------------------------- reading tokens

  /** Exactly one token that changes the depth by a given amount. */
  predicate IsToken(b: seq<Byte>, depth: int) {
    NextToken(b) == Ok(Token(|b|, depth))
  }

  lemma TagRead(b: seq<Byte>, k: nat)
    requires 0 < k <= |b| && IsVarint(b[..k])
    ensures Varint(b, 0, 0) == Ok(Read(Said(b[..k]), k))
  {
    VarintExactly(b, k);
  }

  /** A token within a group is exactly a scalar field. */
  lemma ScalarExactly(b: seq<Byte>)
    ensures IsToken(b, 0) <==> IsScalar(b)
  {
    hide IsVarint, Said, Varint;
    if IsToken(b, 0) {
      var tag := Varint(b, 0, 0).value;
      VarintExactly(b, tag.used);
      PayloadOfToken(b, tag);
    }
    if k :| 0 < k <= |b| && IsVarint(b[..k]) && IsPayload(KindOf(b[..k]), b[k..]) {
      TagRead(b, k);
      TokenOfPayload(b, k);
    }
  }

  lemma PayloadOfToken(b: seq<Byte>, tag: Read)
    requires IsToken(b, 0) && Varint(b, 0, 0) == Ok(tag) && tag.used <= |b| && IsVarint(b[..tag.used])
    requires Said(b[..tag.used]) == tag.value
    ensures IsPayload(KindOf(b[..tag.used]), b[tag.used..])
  {
    hide IsVarint, Said, Varint;
    var p := b[tag.used..];
    if tag.value % 8 == 0 || tag.value % 8 == 2 {
      var v := Varint(p, 0, 0).value;
      VarintExactly(p, v.used);
      if tag.value % 8 == 2 {
        assert IsDelimited(p, p[v.used..]);
      } else {
        assert p[..v.used] == p;
      }
    }
  }

  lemma TokenOfPayload(b: seq<Byte>, k: nat)
    requires 0 < k <= |b| && IsPayload(KindOf(b[..k]), b[k..]) && Varint(b, 0, 0) == Ok(Read(Said(b[..k]), k))
    ensures IsToken(b, 0)
  {
    hide IsVarint, Said, Varint;
    var p := b[k..];
    if KindOf(b[..k]) == 0 {
      assert p[..|p|] == p;
      VarintExactly(p, |p|);
    } else if KindOf(b[..k]) == 2 {
      var body :| IsDelimited(p, body);
      VarintExactly(p, |p| - |body|);
    }
  }

  /** The tokens that open and close groups are exactly the marks. */
  lemma MarksExactly(b: seq<Byte>)
    ensures IsToken(b, 1) <==> IsMark(b, 3)
    ensures IsToken(b, -1) <==> IsMark(b, 4)
  {
    hide IsVarint, Said, Varint;
    assert b[..|b|] == b;
    VarintExactly(b, |b|);
    if NextToken(b).Ok? {
      var tag := Varint(b, 0, 0).value;
      VarintExactly(b, tag.used);
    }
  }

  // ---------------------------------------------------------------- canonical encodings

  /** The shortest encoding of a number is a varint that says it. */
  lemma EncodedSays(v: U64)
    ensures IsVarint(VarintBytes(v)) && Said(VarintBytes(v)) == v
  {
    hide VarintBytes, IsVarint, Said;
    var b := VarintBytes(v);
    VarintRoundTrip(v, []);
    assert b + [] == b && b[..|b|] == b;
    VarintExactly(b, |b|);
  }

  /** A tag as an encoder writes it. */
  function TagBytes(number: nat, kind: nat): seq<Byte>
    requires number < 0x2000_0000 && kind < 8
  {
    VarintBytes(8 * number + kind)
  }

  lemma EncodedTag(number: nat, kind: nat)
    requires number < 0x2000_0000 && kind < 8
    ensures var t := TagBytes(number, kind); IsVarint(t) && NumberOf(t) == number && KindOf(t) == kind
  {
    hide VarintBytes, IsVarint, Said;
    EncodedSays(8 * number + kind);
  }

  /** Every field number with every payload of its wire type is a field: varint, fixed64, bytes and fixed32. */
  lemma EncodedFields(number: nat, v: U64, eight: seq<Byte>, body: seq<Byte>, four: seq<Byte>)
    requires number < 0x2000_0000 && |eight| == 8 && |four| == 4 && |body| < TWO63
    ensures IsField(TagBytes(number, 0) + VarintBytes(v)) && IsField(TagBytes(number, 1) + eight) &&
            IsField(TagBytes(number, 2) + (VarintBytes(|body|) + body)) && IsField(TagBytes(number, 5) + four)
  {
    hide VarintBytes, IsVarint, Said;
    EncodedSays(v);
    EncodedField(number, 0, VarintBytes(v));
    EncodedField(number, 1, eight);
    EncodedSays(|body|);
    var p := VarintBytes(|body|) + body;
    assert p[..|p| - |body|] == VarintBytes(|body|);
    assert IsDelimited(p, body);
    EncodedField(number, 2, p);
    EncodedField(number, 5, four);
  }

  lemma EncodedField(number: nat, kind: nat, p: seq<Byte>)
    requires number < 0x2000_0000 && kind < 8 && IsPayload(kind, p)
    ensures IsField(TagBytes(number, kind) + p)
  {
    hide VarintBytes, IsVarint, Said, IsPayload;
    EncodedTag(number, kind);
    var t := TagBytes(number, kind);
    var b := t + p;
    assert b[..|t|] == t && b[|t|..] == p;
    assert WellFormed(Leaf(b)) && Flatten(Leaf(b)) == b;
  }
}

/** What the codec promises: round trips, locality, balanced skipping and indifference to unknown fields. */
module WireLaws {
  import opened Amounts
  import opened Wire
  import opened WireParse
  import opened WireGrammar

  // ---------------------------------------------------------------- locality

  /** A successful reading depends only on the bytes it used. */
  lemma {:induction false} VarintLocal(d: seq<Byte>, e: seq<Byte>, shift: nat, acc: U64)
    requires Varint(d, shift, acc).Ok? && |e| >= Varint(d, shift, acc).value.used
    requires var used := Varint(d, shift, acc).value.used; e[..used] == d[..used]
    ensures Varint(e, shift, acc) == Varint(d, shift, acc)
    decreases |d|
  {
    hide Added;
    var used := Varint(d, shift, acc).value.used;
    assert e[0] == e[..used][0] == d[..used][0] == d[0];
    if d[0] >= 128 {
      assert e[1..][..used - 1] == e[..used][1..] == d[..used][1..] == d[1..][..used - 1];
      VarintLocal(d[1..], e[1..], shift + 7, Added(acc, d[0], shift));
    }
  }

  lemma PrefixShift(d: seq<Byte>, e: seq<Byte>, k: nat, n: nat)
    requires k <= n <= |d| && n <= |e| && e[..n] == d[..n]
    ensures e[..k] == d[..k] && e[k..][..n - k] == d[k..][..n - k]
  {
    assert e[..k] == e[..n][..k];
    assert d[..k] == d[..n][..k];
    assert e[k..][..n - k] == e[..n][k..];
    assert d[k..][..n - k] == d[..n][k..];
  }

  lemma TokenLocal(d: seq<Byte>, e: seq<Byte>)
    requires NextToken(d).Ok? && NextToken(d).value.used <= |d| && NextToken(d).value.used <= |e|
    requires var used := NextToken(d).value.used; e[..used] == d[..used]
    ensures NextToken(e) == NextToken(d)
  {
    hide Varint;
    var n := NextToken(d).value.used;
    var tag := Varint(d, 0, 0).value;
    PrefixShift(d, e, tag.used, n);
    VarintLocal(d, e, 0, 0);
    var rest, rest' := d[tag.used..], e[tag.used..];
    var kind := tag.value % 8;
    if kind == 0 || kind == 2 {
      var v := Varint(rest, 0, 0).value;
      PrefixShift(rest, rest', v.used, n - tag.used);
      VarintLocal(rest, rest', 0, 0);
    }
  }

  // ---------------------------------------------------------------- one field, groups balanced

  /** Skipping a token that is there in full. */
  lemma SkipToken(b: seq<Byte>, rest: seq<Byte>, depth: int, index: nat, at: nat)
    requires IsToken(b, depth) && at + depth >= 0 && index + |b| < TWO63
    ensures Skip(b + rest, index, at) == if at + depth == 0 then Ok(index + |b|)
                                         else Skip(rest, index + |b|, at + depth)
  {
    hide NextToken;
    var d := b + rest;
    assert d[..|b|] == b[..|b|] == b;
    TokenLocal(b, d);
    assert d[|b|..] == rest;
  }

  lemma {:induction false} SkipTree(t: Tree, rest: seq<Byte>, index: nat, depth: nat)
    requires WellFormed(t) && index + |Flatten(t)| < TWO63
    ensures Skip(Flatten(t) + rest, index, depth) == if depth == 0 then Ok(index + |Flatten(t)|)
                                                     else Skip(rest, index + |Flatten(t)|, depth)
    decreases t
  {
    hide NextToken, Skip, IsToken, IsScalar, IsMark;
    match t
    case Leaf(b) =>
      ScalarExactly(b);
      SkipToken(b, rest, 0, index, depth);
    case Group(o, body, c) =>
      MarksExactly(o);
      MarksExactly(c);
      assert Flatten(t) + rest == o + (FlattenAll(body) + (c + rest));
      SkipToken(o, FlattenAll(body) + (c + rest), 1, index, depth);
      SkipForest(body, c + rest, index + |o|, depth + 1);
      SkipToken(c, rest, -1, index + |o| + |FlattenAll(body)|, depth + 1);
  }

  lemma {:induction false} SkipForest(f: Forest, rest: seq<Byte>, index: nat, depth: nat)
    requires AllWellFormed(f) && index + |FlattenAll(f)| < TWO63 && depth > 0
    ensures Skip(FlattenAll(f) + rest, index, depth) == Skip(rest, index + |FlattenAll(f)|, depth)
    decreases f
  {
    hide NextToken, Skip, IsToken, WellFormed;
    if f.Cons? {
      assert FlattenAll(f) + rest == Flatten(f.head) + (FlattenAll(f.tail) + rest);
      SkipTree(f.head, FlattenAll(f.tail) + rest, index, depth);
      SkipForest(f.tail, rest, index + |Flatten(f.head)|, depth);
    } else {
      assert FlattenAll(f) + rest == rest;
    }
  }

  /** What is left to close a number of open groups: for each, the fields still in it and its end. */
  datatype Level = Level(fields: Forest, close: seq<Byte>)

  ghost predicate LevelsWellFormed(ls: seq<Level>) {
    forall i :: 0 <= i < |ls| ==> AllWellFormed(ls[i].fields) && IsMark(ls[i].close, 4)
  }

  function FlattenLevels(ls: seq<Level>): seq<Byte> {
    if |ls| == 0 then [] else FlattenAll(ls[0].fields) + ls[0].close + FlattenLevels(ls[1..])
  }

  lemma TokenAlone(d: seq<Byte>)
    requires NextToken(d).Ok? && NextToken(d).value.used <= |d|
    ensures IsToken(d[..NextToken(d).value.used], NextToken(d).value.depth)
  {
    var b := d[..NextToken(d).value.used];
    assert b[..|b|] == b;
    TokenLocal(d, b);
  }

  lemma {:induction false} SkipLevels(d: seq<Byte>, index: nat, depth: nat) returns (ls: seq<Level>)
    requires depth > 0 && Skip(d, index, depth).Ok? && Skip(d, index, depth).value - index <= |d|
    ensures |ls| == depth && LevelsWellFormed(ls) && FlattenLevels(ls) == d[..Skip(d, index, depth).value - index]
    decreases |d|
  {
    hide NextToken, IsToken, IsMark;
    var n := Skip(d, index, depth).value - index;
    var t := NextToken(d).value;
    TokenAlone(d);
    var b := d[..t.used];
    if depth + t.depth == 0 {
      MarksExactly(b);
      ls := [Level(Nil, b)];
      assert FlattenLevels(ls) == b;
    } else {
      var rest := SkipLevels(d[t.used..], index + t.used, depth + t.depth);
      assert d[..n] == b + d[t.used..][..n - t.used];
      ls := AddToken(b, t.depth, rest);
    }
  }

  lemma LevelStep(first: Level, more: seq<Level>)
    requires AllWellFormed(first.fields) && IsMark(first.close, 4) && LevelsWellFormed(more)
    ensures LevelsWellFormed([first] + more) &&
            FlattenLevels([first] + more) == FlattenAll(first.fields) + first.close + FlattenLevels(more)
  {
    hide IsMark, AllWellFormed;
    assert ([first] + more)[1..] == more;
  }

  lemma LevelParts(ls: seq<Level>)
    requires LevelsWellFormed(ls) && |ls| > 0
    ensures AllWellFormed(ls[0].fields) && IsMark(ls[0].close, 4) && LevelsWellFormed(ls[1..])
    ensures FlattenLevels(ls) == FlattenAll(ls[0].fields) + ls[0].close + FlattenLevels(ls[1..])
  {
    hide IsMark, AllWellFormed;
  }

  /** A token in front of what is left: another field, the start of one more group, or the end of the innermost. */
  lemma AddToken(b: seq<Byte>, depth: int, rest: seq<Level>) returns (ls: seq<Level>)
    requires IsToken(b, depth) && -1 <= depth <= 1 && LevelsWellFormed(rest) && |rest| > 0 && |rest| - depth > 0
    ensures |ls| == |rest| - depth && LevelsWellFormed(ls) && FlattenLevels(ls) == b + FlattenLevels(rest)
  {
    hide IsToken, IsScalar, IsMark, LevelsWellFormed, FlattenLevels;
    var first, more := rest[0], rest[1..];
    ScalarExactly(b);
    MarksExactly(b);
    LevelParts(rest);
    if depth == 0 {
      LevelStep(Level(Cons(Leaf(b), first.fields), first.close), more);
      ls := [Level(Cons(Leaf(b), first.fields), first.close)] + more;
    } else if depth == 1 {
      var group, next := Group(b, first.fields, first.close), more[0];
      LevelParts(more);
      LevelStep(Level(Cons(group, next.fields), next.close), more[1..]);
      ls := [Level(Cons(group, next.fields), next.close)] + more[1..];
    } else {
      LevelStep(Level(Nil, b), rest);
      ls := [Level(Nil, b)] + rest;
    }
  }

  lemma SkipGrows(d: seq<Byte>) returns (t: Tree)
    requires Skip(d, 0, 0).Ok? && Skip(d, 0, 0).value <= |d|
    ensures WellFormed(t) && Flatten(t) == d[..Skip(d, 0, 0).value]
  {
    hide NextToken, IsToken, IsScalar, IsMark;
    var n := Skip(d, 0, 0).value;
    var token := NextToken(d).value;
    TokenAlone(d);
    var b := d[..token.used];
    ScalarExactly(b);
    MarksExactly(b);
    if token.depth == 0 {
      t := Leaf(b);
    } else {
      var ls := SkipLevels(d[token.used..], token.used, 1);
      assert d[..n] == b + d[token.used..][..n - token.used];
      t := Group(b, ls[0].fields, ls[0].close);
      assert FlattenLevels(ls) == FlattenAll(ls[0].fields) + ls[0].close;
    }
  }

  /**
   * Unknown fields are skipped whole. skipTx ends on every input; it succeeds within the buffer on exactly those inputs
   * that start with one field of the grammar, groups balanced, and then it consumes that field, at least one byte.
   */
  lemma SkipExactlyOneField(d: seq<Byte>, n: nat)
    requires n <= |d| < TWO63
    ensures Skip(d, 0, 0) == Ok(n) <==> IsField(d[..n])
    ensures Skip(d, 0, 0) == Ok(n) ==> n >= 1
  {
    hide NextToken, WellFormed, Flatten;
    if Skip(d, 0, 0) == Ok(n) {
      var t := SkipGrows(d);
    }
    if t :| WellFormed(t) && Flatten(t) == d[..n] {
      SkipTree(t, d[n..], 0, 0);
      assert d == d[..n] + d[n..];
    }
  }

  // ---------------------------------------------------------------- fields

  lemma SkipLocal(d: seq<Byte>, e: seq<Byte>)
    requires Skip(d, 0, 0).Ok? && Skip(d, 0, 0).value <= |d| && Skip(d, 0, 0).value <= |e| && |e| < TWO63 && |d| < TWO63
    requires var n := Skip(d, 0, 0).value; e[..n] == d[..n]
    ensures Skip(e, 0, 0) == Skip(d, 0, 0)
  {
    hide Skip, IsField;
    var n := Skip(d, 0, 0).value;
    SkipExactlyOneField(d, n);
    SkipExactlyOneField(e, n);
  }

  lemma TagLocal(d: seq<Byte>, e: seq<Byte>)
    requires ReadTag(d).Ok? && |e| >= ReadTag(d).value.used
    requires var used := ReadTag(d).value.used; e[..used] == d[..used]
    ensures ReadTag(e) == ReadTag(d)
  {
    hide Varint;
    VarintLocal(d, e, 0, 0);
  }

  lemma PayloadLocal(d: seq<Byte>, e: seq<Byte>, i: nat, j: nat)
    requires Payload(d, i).Ok? && |e| >= Payload(d, i).value.end && j + Payload(d, i).value.end < TWO63
    requires var n := Payload(d, i).value.end; e[..n] == d[..n]
    ensures Payload(e, j) == Payload(d, i)
  {
    hide Varint;
    PrefixShift(d, e, Varint(d, 0, 0).value.used, Payload(d, i).value.end);
    VarintLocal(d, e, 0, 0);
  }

  lemma SkipCoversTag(d: seq<Byte>)
    requires Skip(d, 0, 0).Ok? && ReadTag(d).Ok?
    ensures ReadTag(d).value.used <= Skip(d, 0, 0).value
  {
    hide Varint;
  }

  /** A field that parses depends only on its own bytes, not on where they stand or on what follows them. */
  lemma FieldLocal(d: seq<Byte>, e: seq<Byte>, i: nat, j: nat, m: Msg)
    requires Field(d, i, m).Ok? && |e| >= Field(d, i, m).value.used && j + |e| < TWO63 && |d| < TWO63
    requires var n := Field(d, i, m).value.used; e[..n] == d[..n]
    ensures Field(e, j, m) == Field(d, i, m)
  {
    hide ReadTag, Payload, Skip, ParseParams;
    var n, tag := Field(d, i, m).value.used, ReadTag(d).value;
    if tag.number != 1 && tag.number != 2 {
      SkipCoversTag(d);
    }
    PrefixShift(d, e, tag.used, n);
    TagLocal(d, e);
    if tag.number == 1 || tag.number == 2 {
      var p := Payload(d[tag.used..], i + tag.used).value;
      PayloadLocal(d[tag.used..], e[tag.used..], i + tag.used, j + tag.used);
      assert d[tag.used..][p.start..p.end] == d[tag.used..][..p.end][p.start..];
      assert e[tag.used..][p.start..p.end] == e[tag.used..][..p.end][p.start..];
    } else {
      SkipLocal(d, e);
    }
  }

  /** The same outcome: the same message, or a refusal on both sides. */
  predicate SameOutcome(a: Result<Msg>, b: Result<Msg>) {
    if a.Ok? then a == b else b.Err?
  }

  lemma {:induction false} ParseMoves(d: seq<Byte>, i: nat, j: nat, m: Msg)
    requires i + |d| < TWO63 && j + |d| < TWO63
    ensures SameOutcome(Parse(d, i, m), Parse(d, j, m))
    decreases |d|
  {
    hide Field;
    if |d| > 0 {
      if Field(d, i, m).Ok? {
        FieldLocal(d, d, i, j, m);
        var f := Field(d, i, m).value;
        ParseMoves(d[f.used..], i + f.used, j + f.used, f.msg);
      } else if Field(d, j, m).Ok? {
        FieldLocal(d, d, j, i, m);
      }
    }
  }

  /** Parsing a whole number of fields and then more is parsing the rest into the message so far. */
  lemma {:induction false} ParseAppend(a: seq<Byte>, c: seq<Byte>, i: nat, m: Msg)
    requires Parse(a, i, m).Ok? && i + |a| + |c| < TWO63
    ensures Parse(a + c, i, m) == Parse(c, i + |a|, Parse(a, i, m).value)
    decreases |a|
  {
    hide Field;
    if |a| == 0 {
      assert a + c == c;
    } else {
      var f := Field(a, i, m).value;
      assert (a + c)[..f.used] == a[..f.used];
      FieldLocal(a, a + c, i, i, m);
      assert (a + c)[f.used..] == a[f.used..] + c;
      ParseAppend(a[f.used..], c, i + f.used, f.msg);
    }
  }

  /** One complete field of the grammar whose number the message does not use. */
  ghost predicate Unused(u: seq<Byte>) {
    exists number :: IsNumbered(u, number) && number != 1 && number != 2
  }

  /** Inserting a field with an unused number at any field boundary changes nothing about what is parsed. */
  lemma UnknownFieldIgnored(a: seq<Byte>, u: seq<Byte>, b: seq<Byte>, m0: Msg)
    requires Parse(a, 0, m0).Ok? && Unused(u) && |a| + |u| + |b| < TWO63
    ensures SameOutcome(Parse(a + u + b, 0, m0), Parse(a + b, 0, m0))
  {
    hide ReadTag, Skip, Parse, Unused;
    var m := Parse(a, 0, m0).value;
    Regroup(a, u, b);
    ParseAppend(a, u + b, 0, m0);
    ParseAppend(a, b, 0, m0);
    ParseUnused(u, b, |a|, m);
    ParseMoves(b, |a| + |u|, |a|, m);
  }

  lemma Regroup(a: seq<Byte>, u: seq<Byte>, b: seq<Byte>)
    ensures a + u + b == a + (u + b)
  {
  }

  lemma UnusedField(u: seq<Byte>, i: nat, m: Msg)
    requires Unused(u) && i + |u| < TWO63
    ensures Field(u, i, m) == Ok(Step(|u|, m))
  {
    hide Skip, IsField;
    var number :| IsNumbered(u, number) && number != 1 && number != 2;
    NumberedExactly(u, i, |u|, number);
    assert u[..|u|] == u;
  }

  lemma ParseUnused(u: seq<Byte>, b: seq<Byte>, i: nat, m: Msg)
    requires Unused(u) && i + |u| + |b| < TWO63
    ensures Parse(u + b, i, m) == Parse(b, i + |u|, m)
  {
    hide ReadTag, Skip, IsField;
    var d := u + b;
    UnusedField(u, i, m);
    assert d[..|u|] == u == u[..|u|];
    FieldLocal(u, d, i, i, m);
    assert d[|u|..] == b;
  }

  // ---------------------------------------------------------------- the parser meets the grammar

  /** A tag is read exactly from bytes that begin with one of a positive number and no group end. */
  lemma TagExactly(d: seq<Byte>, k: nat, number: int, kind: nat)
    requires k <= |d|
    ensures ReadTag(d) == Ok(Tag(number, kind, k)) <==> Tagged(d, k, number, kind) && number > 0 && kind != 4
  {
    hide Varint, IsVarint, Said;
    VarintExactly(d, k);
    if Varint(d, 0, 0).Ok? {
      VarintExactly(d, Varint(d, 0, 0).value.used);
    }
  }

  /** A whole field begins with its tag, which ends no group. */
  lemma FieldHasTag(b: seq<Byte>) returns (k: nat)
    requires IsField(b)
    ensures 0 < k <= |b| && IsVarint(b[..k]) && KindOf(b[..k]) != 4
  {
    hide Said;
    var t :| WellFormed(t) && Flatten(t) == b;
    match t
    case Leaf(_) => k :| 0 < k <= |b| && IsVarint(b[..k]) && IsPayload(KindOf(b[..k]), b[k..]);
    case Group(o, body, c) =>
      k := |o|;
      assert b[..k] == o;
  }

  /** No bytes begin with two varints. */
  lemma OneVarint(d: seq<Byte>, j: nat, k: nat)
    requires 0 < j <= |d| && 0 < k <= |d| && IsVarint(d[..j]) && IsVarint(d[..k])
    ensures j == k
  {
    hide IsVarint, Varint;
    VarintExactly(d, j);
    VarintExactly(d, k);
  }

  lemma UnknownExactly(d: seq<Byte>, i: nat, n: nat)
    requires i + |d| < TWO63 && n <= |d|
    ensures UnknownField(d, i) == Ok(n) <==> IsField(d[..n])
  {
    hide Skip, IsField;
    SkipExactlyOneField(d, n);
    if UnknownField(d, i).Ok? {
      SkipExactlyOneField(d, UnknownField(d, i).value);
    }
  }

  /** An unknown field is taken exactly when it is a whole field of a positive number. */
  lemma NumberedExactly(d: seq<Byte>, i: nat, n: nat, number: int)
    requires i + |d| < TWO63 && n <= |d|
    ensures ReadTag(d).Ok? && ReadTag(d).value.number == number && UnknownField(d, i) == Ok(n) <==>
            IsNumbered(d[..n], number)
  {
    hide ReadTag, UnknownField, IsField, IsVarint, Said;
    UnknownExactly(d, i, n);
    var b := d[..n];
    if ReadTag(d).Ok? && ReadTag(d).value.number == number && UnknownField(d, i) == Ok(n) {
      var tag := ReadTag(d).value;
      TagExactly(d, tag.used, number, tag.kind);
      var k := FieldHasTag(b);
      assert b[..k] == d[..k];
      OneVarint(d, k, tag.used);
      assert Tagged(b, k, number, tag.kind);
    }
    if IsNumbered(b, number) {
      var j: nat, kind: nat :| Tagged(b, j, number, kind);
      var k := FieldHasTag(b);
      assert b[..k] == d[..k] && b[..j] == d[..j];
      OneVarint(d, j, k);
      TagExactly(d, j, number, kind);
    }
  }

  lemma PayloadExactly(d: seq<Byte>, i: nat, n: nat, body: seq<Byte>)
    requires i + |d| < TWO63 && n <= |d|
    ensures Payload(d, i).Ok? && Payload(d, i).value.end == n && d[Payload(d, i).value.start..n] == body <==>
            IsDelimited(d[..n], body)
  {
    hide Varint, IsVarint, Said;
    if Payload(d, i).Ok? && Payload(d, i).value.end == n && d[Payload(d, i).value.start..n] == body {
      var v := Varint(d, 0, 0).value;
      VarintExactly(d, v.used);
      assert d[..n][..v.used] == d[..v.used] && d[..n][v.used..] == d[v.used..n];
    }
    if IsDelimited(d[..n], body) {
      var k := n - |body|;
      assert d[..n][..k] == d[..k] && d[..n][k..] == d[k..n];
      VarintExactly(d, k);
    }
  }

  lemma {:induction false} ParamsExactly(d: seq<Byte>, i: nat)
    requires i + |d| < TWO63
    ensures ParseParams(d, i).Ok? <==> IsParams(d)
    decreases |d|
  {
    hide ReadTag, UnknownField, IsNumbered;
    if |d| > 0 {
      if ParseParams(d, i).Ok? {
        var n := ParamsField(d, i).value;
        NumberedExactly(d, i, n, ReadTag(d).value.number);
        ParamsExactly(d[n..], i + n);
      }
      if IsParams(d) {
        var n, number :| 0 < n <= |d| && IsNumbered(d[..n], number) && IsParams(d[n..]);
        NumberedExactly(d, i, n, number);
        ParamsExactly(d[n..], i + n);
      }
    }
  }

  /** One pass of the loop takes exactly one item of the grammar. */
  lemma FieldExactly(d: seq<Byte>, i: nat, n: nat, m: Msg, m': Msg)
    requires i + |d| < TWO63 && 0 < n <= |d|
    ensures Field(d, i, m) == Ok(Step(n, m')) <==> IsItem(d[..n], m, m')
  {
    hide ReadTag, Payload, UnknownField, ParseParams, Tagged, IsDelimited, IsParams, IsNumbered;
    if Field(d, i, m) == Ok(Step(n, m')) {
      ItemOfField(d, i, n, m, m');
    }
    if IsItem(d[..n], m, m') {
      FieldOfItem(d, i, n, m, m');
    }
  }

  lemma Suffix(d: seq<Byte>, k: nat, n: nat)
    requires k <= n <= |d|
    ensures d[..n][..k] == d[..k] && d[..n][k..] == d[k..][..n - k]
  {
  }

  lemma ItemOfField(d: seq<Byte>, i: nat, n: nat, m: Msg, m': Msg)
    requires i + |d| < TWO63 && 0 < n <= |d| && Field(d, i, m) == Ok(Step(n, m'))
    ensures IsItem(d[..n], m, m')
  {
    hide ReadTag, Payload, UnknownField, ParseParams, IsVarint, Said, IsDelimited, IsParams, IsNumbered;
    var tag := ReadTag(d).value;
    if tag.number == 1 || tag.number == 2 {
      var k := tag.used;
      var p := Payload(d[k..], i + k).value;
      var body := d[k..][p.start..p.end];
      TagExactly(d, k, tag.number, 2);
      PayloadExactly(d[k..], i + k, n - k, body);
      Suffix(d, k, n);
      assert Tagged(d[..n], k, tag.number, 2);
      if tag.number == 2 {
        ParamsExactly(body, 0);
      }
    } else {
      NumberedExactly(d, i, n, tag.number);
    }
  }

  lemma FieldOfItem(d: seq<Byte>, i: nat, n: nat, m: Msg, m': Msg)
    requires i + |d| < TWO63 && 0 < n <= |d| && IsItem(d[..n], m, m')
    ensures Field(d, i, m) == Ok(Step(n, m'))
  {
    hide ReadTag, Payload, UnknownField, ParseParams, IsVarint, Said, IsDelimited, IsParams, IsNumbered;
    var b := d[..n];
    if number :| IsNumbered(b, number) && number != 1 && number != 2 && m' == m {
      NumberedExactly(d, i, n, number);
    } else if k: nat :| Tagged(b, k, 1, 2) && IsDelimited(b[k..], m'.authority) && m' == m.(authority := m'.authority) {
      Suffix(d, k, n);
      TagExactly(d, k, 1, 2);
      PayloadExactly(d[k..], i + k, n - k, m'.authority);
    } else {
      var k: nat, body :| Tagged(b, k, 2, 2) && IsDelimited(b[k..], body) && IsParams(body) && m' == m;
      Suffix(d, k, n);
      TagExactly(d, k, 2, 2);
      PayloadExactly(d[k..], i + k, n - k, body);
      ParamsExactly(body, 0);
      var params := ParseParams(body, 0).value;
      assert m.(params := params) == m;
    }
  }

  /**
   * Unmarshal accepts exactly the messages of the grammar, and gives the message they stand for: the last authority, or
   * the one that was there before, whatever unknown fields stand between.
   */
  lemma {:induction false} UnmarshalExactly(d: seq<Byte>, i: nat, m: Msg, m': Msg)
    requires i + |d| < TWO63
    ensures Parse(d, i, m) == Ok(m') <==> IsMessage(d, m, m')
    decreases |d|
  {
    hide Field, IsItem;
    if |d| > 0 {
      if Parse(d, i, m) == Ok(m') {
        var f := Field(d, i, m).value;
        FieldExactly(d, i, f.used, m, f.msg);
        UnmarshalExactly(d[f.used..], i + f.used, f.msg, m');
      }
      if IsMessage(d, m, m') {
        var n, next :| 0 < n <= |d| && IsItem(d[..n], m, next) && IsMessage(d[n..], next, m');
        FieldExactly(d, i, n, m, next);
        UnmarshalExactly(d[n..], i + n, next, m');
      }
    }
  }

  /** Why a message is refused at its first field: a group end, no positive number, or a known field of another type. */
  lemma RefusedFieldSaysWhy(d: seq<Byte>, i: nat, m: Msg, k: nat, number: int, kind: nat)
    requires k <= |d| && Tagged(d, k, number, kind)
    ensures kind == 4 ==> Field(d, i, m) == Err(EndGroup)
    ensures kind != 4 && number <= 0 ==> Field(d, i, m) == Err(IllegalTag)
    ensures (number == 1 || number == 2) && kind != 2 && kind != 4 ==> Field(d, i, m) == Err(WrongWireType)
  {
    hide Varint, IsVarint, Said, Payload, UnknownField, ParseParams;
    VarintExactly(d, k);
  }

  /** Why a field cannot be skipped: an end without a start, or a wire type that does not exist. */
  lemma RefusedSkipSaysWhy(d: seq<Byte>, index: nat, k: nat)
    requires 0 < k <= |d| && IsVarint(d[..k])
    ensures KindOf(d[..k]) == 4 ==> Skip(d, index, 0) == Err(UnexpectedEndOfGroup)
    ensures KindOf(d[..k]) > 5 ==> Skip(d, index, 0) == Err(IllegalWireType)
  {
    hide Varint, IsVarint, Said;
    VarintExactly(d, k);
  }

  /** A group may be closed by the end of a group of another number. */
  lemma GroupEndIsNotMatched()
    ensures NumberOf([0x1b]) == 3 && NumberOf([0x24]) == 4 && Skip([0x1b, 0x24], 0, 0) == Ok(2)
  {
    hide Skip;
    var b: seq<Byte> := [0x1b, 0x24];
    var t := Group([0x1b], Nil, [0x24]);
    assert Groups([0x1b]) == 0x1b && Groups([0x24]) == 0x24;
    WrapSmall(0x1b);
    WrapSmall(0x24);
    assert WellFormed(t) && Flatten(t) == b;
    assert b[..2] == b;
    SkipExactlyOneField(b, 2);
  }

  // ---------------------------------------------------------------- round trip

  lemma TagByte(rest: seq<Byte>)
    ensures ReadTag([0x0a] + rest) == Ok(Tag(1, 2, 1)) && ReadTag([0x12] + rest) == Ok(Tag(2, 2, 1))
  {
    hide ReadTag;
    OneByteTag(10, rest);
    OneByteTag(18, rest);
  }

  lemma OneByteTag(tag: Byte, rest: seq<Byte>)
    requires 8 <= tag < 128 && tag % 8 != 4
    ensures ReadTag([tag] + rest) == Ok(Tag(tag / 8, tag % 8, 1))
  {
    hide Varint, Sov;
    assert VarintBytes(tag) == [tag];
    VarintRoundTrip(tag, rest);
    SovIsLength(tag);
  }

  /** A length-delimited payload written by the encoder is read back whole. */
  lemma PayloadDecodes(body: seq<Byte>, rest: seq<Byte>, index: nat)
    requires index + |VarintBytes(|body|)| + |body| + |rest| < TWO63
    ensures var d := VarintBytes(|body|) + body + rest; var n := |VarintBytes(|body|)|;
            Payload(d, index) == Ok(Span(n, n + |body|)) && d[n..n + |body|] == body
  {
    hide Varint, VarintBytes, Sov;
    var d := VarintBytes(|body|) + body + rest;
    assert d == VarintBytes(|body|) + (body + rest);
    VarintRoundTrip(|body|, body + rest);
  }

  lemma AuthorityField(m: Msg, rest: seq<Byte>, m0: Msg)
    requires var d := [0x0a] + VarintBytes(|m.authority|) + m.authority; |d| + |rest| < TWO63
    ensures var d := [0x0a] + VarintBytes(|m.authority|) + m.authority;
            Field(d + rest, 0, m0) == Ok(Step(|d|, m0.(authority := m.authority)))
  {
    hide ReadTag, Payload, VarintBytes, ParseParams;
    var a := m.authority;
    var d := [0x0a] + VarintBytes(|a|) + a;
    assert d + rest == [0x0a] + (VarintBytes(|a|) + a + rest);
    TagByte(VarintBytes(|a|) + a + rest);
    assert (d + rest)[1..] == VarintBytes(|a|) + a + rest;
    PayloadDecodes(a, rest, 1);
  }

  lemma ParamsTail(index: nat, m: Msg)
    requires index + 2 < TWO63
    ensures |VarintBytes(0)| == 1 && Parse([0x12] + VarintBytes(0), index, m) == Ok(m.(params := Params))
  {
    hide ReadTag, Payload;
    var d := [0x12] + VarintBytes(0);
    assert VarintBytes(0) == [0];
    TagByte(VarintBytes(0));
    var none: seq<Byte> := [];
    assert d[1..] == VarintBytes(|none|) + none + none;
    PayloadDecodes(none, none, index + 1);
    assert Field(d, index, m) == Ok(Step(2, m.(params := Params)));
    assert d[2..] == [];
  }

  /** Parsing an encoded message sets its fields; an empty authority is not written and leaves the old one. */
  lemma MergeRoundTrip(m: Msg, m0: Msg)
    requires |Encoded(m)| < TWO63
    ensures Parse(Encoded(m), 0, m0) == Ok(Msg(if |m.authority| > 0 then m.authority else m0.authority, m.params))
  {
    hide Field, VarintBytes;
    assert m.params == Params;
    var tail := [0x12] + VarintBytes(0);
    if |m.authority| > 0 {
      var d := [0x0a] + VarintBytes(|m.authority|) + m.authority;
      assert Encoded(m) == d + tail;
      AuthorityField(m, tail, m0);
      assert (d + tail)[|d|..] == tail;
      ParamsTail(|d|, m0.(authority := m.authority));
    } else {
      assert Encoded(m) == tail;
      ParamsTail(0, m0);
    }
  }

  /**
   * Protobuf round trip: unmarshalling a marshalled message into a fresh one gives the message back, from
   * exactly Size bytes.
   */
  lemma RoundTrip(m: Msg)
    requires Size(m) < TWO63 && |m.authority| < TWO63
    ensures |Encoded(m)| == Size(m) && Parse(Encoded(m), 0, EMPTY) == Ok(m)
  {
    hide Parse, Encoded, Size;
    SizeIsLength(m);
    MergeRoundTrip(m, EMPTY);
  }
}

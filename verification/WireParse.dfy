/** Unmarshal of MsgUpdateParams and of the empty Params: a loop over fields, unknown ones skipped. */
module WireParse {
  import opened Amounts
  import opened Wire

  datatype Step = Step(used: nat, msg: Msg)

  datatype Span = Span(start: nat, end: nat)

  /** The payload of a length-delimited field, from the bytes after its tag; index is where they stand in the buffer. */
  function Payload(d: seq<Byte>, index: nat): (r: Result<Span>)
    ensures r.Ok? ==> r.value.start <= r.value.end <= |d|
  {
    var v := Varint(d, 0, 0);
    if v.Err? then Err(v.error)
    else if v.value.value >= TWO63 then Err(InvalidLength)
    else
      var end := v.value.used + v.value.value;
      if index + end >= TWO63 then Err(InvalidLength)
      else if end > |d| then Err(UnexpectedEof)
      else Ok(Span(v.value.used, end))
  }

  /** The default branch: an unknown field is skipped as a whole, from its tag on. */
  function UnknownField(d: seq<Byte>, index: nat): (r: Result<nat>)
    ensures r.Ok? ==> 1 <= r.value <= |d|
  {
    var n := Skip(d, 0, 0);
    if n.Err? then Err(n.error)
    else if index + n.value >= TWO63 then Err(InvalidLength)
    else if n.value > |d| then Err(UnexpectedEof)
    else n
  }

  datatype Tag = Tag(number: int, kind: nat, used: nat)

  /** The tag of a field, refused when it ends a group or has no positive 32-bit number. */
  function ReadTag(d: seq<Byte>): (r: Result<Tag>)
    ensures r.Ok? ==> 1 <= r.value.used <= |d|
  {
    var tag := Varint(d, 0, 0);
    if tag.Err? then Err(tag.error)
    else if tag.value.value % 8 == 4 then Err(EndGroup)
    else if Int32(tag.value.value / 8) <= 0 then Err(IllegalTag)
    else Ok(Tag(Int32(tag.value.value / 8), tag.value.value % 8, tag.value.used))
  }

  function ParamsField(d: seq<Byte>, index: nat): (r: Result<nat>)
    ensures r.Ok? ==> 1 <= r.value <= |d|
  {
    var tag := ReadTag(d);
    if tag.Err? then Err(tag.error) else UnknownField(d, index)
  }

  /** Params.Unmarshal: every field is unknown. */
  function ParseParams(d: seq<Byte>, index: nat): Result<Params>
    decreases |d|
  {
    if |d| == 0 then Ok(Params)
    else
      var n := ParamsField(d, index);
      if n.Err? then Err(n.error) else ParseParams(d[n.value..], index + n.value)
  }

  /** One pass of the loop in MsgUpdateParams.Unmarshal. */
  function Field(d: seq<Byte>, index: nat, m: Msg): (r: Result<Step>)
    ensures r.Ok? ==> 1 <= r.value.used <= |d|
  {
    var tag := ReadTag(d);
    if tag.Err? then Err(tag.error)
    else if tag.value.number == 1 || tag.value.number == 2 then
      if tag.value.kind != 2 then Err(WrongWireType)
      else
        var rest := d[tag.value.used..];
        var p := Payload(rest, index + tag.value.used);
        if p.Err? then Err(p.error)
        else
          var body := rest[p.value.start..p.value.end];
          if tag.value.number == 1 then Ok(Step(tag.value.used + p.value.end, m.(authority := body)))
          else
            var params := ParseParams(body, 0);
            if params.Err? then Err(params.error)
            else Ok(Step(tag.value.used + p.value.end, m.(params := params.value)))
    else
      var n := UnknownField(d, index);
      if n.Err? then Err(n.error) else Ok(Step(n.value, m))
  }

  /** MsgUpdateParams.Unmarshal into m, from an index, over the bytes still ahead. */
  function Parse(d: seq<Byte>, index: nat, m: Msg): Result<Msg>
    decreases |d|
  {
    if |d| == 0 then Ok(m)
    else
      var f := Field(d, index, m);
      if f.Err? then Err(f.error) else Parse(d[f.value.used..], index + f.value.used, f.value.msg)
  }

  // ---------------------------------------------------------------- the loops

  method SkipUnknown(d: seq<Byte>, index: nat) returns (r: Result<nat>)
    requires index <= |d| < TWO63
    ensures r == UnknownField(d[index..], index)
  {
    var n := SkipField(d[index..]);
    if n.Err? {
      return Err(n.error);
    }
    if index + n.value >= TWO63 {
      return Err(InvalidLength);
    }
    if index + n.value > |d| {
      return Err(UnexpectedEof);
    }
    return n;
  }

  method TagAt(d: seq<Byte>, index: nat) returns (r: Result<Tag>)
    requires index <= |d|
    ensures r == ReadTag(d[index..])
  {
    var wire := ReadVarint(d, index);
    if wire.Err? {
      return Err(wire.error);
    }
    var number, kind := Int32(wire.value.value / 8), wire.value.value % 8;
    if kind == 4 {
      return Err(EndGroup);
    }
    if number <= 0 {
      return Err(IllegalTag);
    }
    return Ok(Tag(number, kind, wire.value.used));
  }

  method UnmarshalParams(d: seq<Byte>) returns (r: Result<Params>)
    requires |d| < TWO63
    ensures r == ParseParams(d, 0)
  {
    hide ReadTag, UnknownField;
    var index := 0;
    while index < |d|
      invariant index <= |d| && ParseParams(d, 0) == ParseParams(d[index..], index)
      decreases |d| - index
    {
      var tag := TagAt(d, index);
      if tag.Err? {
        return Err(tag.error);
      }
      var n := SkipUnknown(d, index);
      if n.Err? {
        return Err(n.error);
      }
      assert d[index..][n.value..] == d[index + n.value..];
      index := index + n.value;
    }
    return Ok(Params);
  }

  method PayloadAt(d: seq<Byte>, index: nat) returns (r: Result<Span>)
    requires index <= |d| < TWO63
    ensures r == Payload(d[index..], index)
  {
    var v := ReadVarint(d, index);
    if v.Err? {
      return Err(v.error);
    }
    if v.value.value >= TWO63 {
      return Err(InvalidLength);
    }
    var end := index + v.value.used + v.value.value;
    if end >= TWO63 {
      return Err(InvalidLength);
    }
    if end > |d| {
      return Err(UnexpectedEof);
    }
    return Ok(Span(v.value.used, end - index));
  }

  lemma SliceTwice(d: seq<Byte>, start: nat, from: nat, to: nat)
    requires start + to <= |d| && from <= to
    ensures d[start..][from..to] == d[start + from..start + to]
  {
  }

  method FieldAt(d: seq<Byte>, index: nat, m: Msg) returns (r: Result<Step>)
    requires index <= |d| < TWO63
    ensures r == Field(d[index..], index, m)
  {
    hide ReadTag, Payload, UnknownField, ParseParams;
    var tag := TagAt(d, index);
    if tag.Err? {
      return Err(tag.error);
    }
    if tag.value.number != 1 && tag.value.number != 2 {
      var n := SkipUnknown(d, index);
      if n.Err? {
        return Err(n.error);
      }
      return Ok(Step(n.value, m));
    }
    if tag.value.kind != 2 {
      return Err(WrongWireType);
    }
    var start := index + tag.value.used;
    assert d[index..][tag.value.used..] == d[start..];
    var p := PayloadAt(d, start);
    if p.Err? {
      return Err(p.error);
    }
    var body := d[start + p.value.start..start + p.value.end];
    SliceTwice(d, start, p.value.start, p.value.end);
    if tag.value.number == 1 {
      return Ok(Step(tag.value.used + p.value.end, m.(authority := body)));
    }
    var params := UnmarshalParams(body);
    if params.Err? {
      return Err(params.error);
    }
    return Ok(Step(tag.value.used + p.value.end, m.(params := params.value)));
  }

  /** MsgUpdateParams.Unmarshal: fields merge into the message it is called on. */
  method Unmarshal(d: seq<Byte>, m0: Msg) returns (r: Result<Msg>)
    requires |d| < TWO63
    ensures r == Parse(d, 0, m0)
  {
    hide Field;
    var index, m := 0, m0;
    while index < |d|
      invariant index <= |d| && Parse(d, 0, m0) == Parse(d[index..], index, m)
      decreases |d| - index
    {
      var f := FieldAt(d, index, m);
      if f.Err? {
        return Err(f.error);
      }
      assert d[index..][f.value.used..] == d[index + f.value.used..];
      index, m := index + f.value.used, f.value.msg;
    }
    return Ok(m);
  }
}

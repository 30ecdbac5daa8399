/** The challenge funding memo: query-string parsing, aliases, and the fields a deposit proves. */
module Memo {
  import opened Text
  import opened Amounts
  import opened Ids

  const PREFIX := "wolo.challenge.funding.v1:"

  datatype Pair = Pair(key: string, value: string)

  /** What a funding memo declares. */
  datatype Fields = Fields(
    sourceApp: string, runId: string, challengeId: string, sourceEventId: string, side: string, pid: string,
    wager: U64, guarantee: U64)

  // ---------------------------------------------------------------- application/x-www-form-urlencoded

  /** The position of the first c, or the length. */
  function Index(s: string, c: char): (i: nat)
    ensures i <= |s| && (forall k :: 0 <= k < i ==> s[k] != c) && (i < |s| ==> s[i] == c)
  {
    if |s| == 0 || s[0] == c then 0 else 1 + Index(s[1..], c)
  }

  function After(s: string, i: nat): string {
    if i < |s| then s[i + 1..] else ""
  }

  function HexValue(c: char): Option<nat> {
    if IsDigit(c) then Some(c as int - '0' as int)
    else if 'a' <= c <= 'f' then Some(c as int - 'a' as int + 10)
    else if 'A' <= c <= 'F' then Some(c as int - 'A' as int + 10)
    else None
  }

  /** QueryUnescape over single bytes. */
  function Unescape(s: string): Option<string> {
    if |s| == 0 then Some("")
    else if s[0] == '%' then
      if |s| < 3 || HexValue(s[1]).None? || HexValue(s[2]).None? then None
      else
        var rest := Unescape(s[3..]);
        if rest.None? then None
        else Some([(16 * HexValue(s[1]).value + HexValue(s[2]).value) as char] + rest.value)
    else
      var rest := Unescape(s[1..]);
      if rest.None? then None else Some([if s[0] == '+' then ' ' else s[0]] + rest.value)
  }

  /** url.ParseQuery; any malformed part makes the whole memo invalid. */
  function ParseQuery(q: string): Option<seq<Pair>>
    decreases |q|
  {
    if q == "" then Some([])
    else
      var i := Index(q, '&');
      var part, tail := q[..i], ParseQuery(After(q, i));
      if part == "" then tail
      else
        var j := Index(part, '=');
        var key, value := Unescape(part[..j]), Unescape(After(part, j));
        if ';' in part || key.None? || value.None? || tail.None? then None
        else Some([Pair(key.value, value.value)] + tail.value)
  }

  function Get(pairs: seq<Pair>, key: string): string {
    if |pairs| == 0 then "" else if pairs[0].key == key then pairs[0].value else Get(pairs[1..], key)
  }

  /** The first alias with a non-blank value. */
  function GetValue(pairs: seq<Pair>, keys: seq<string>): string {
    if |keys| == 0 then ""
    else if Trim(Get(pairs, keys[0])) != "" then Trim(Get(pairs, keys[0]))
    else GetValue(pairs, keys[1..])
  }

  /** parseChallengeMemoAmount. */
  function PositiveAmount(raw: string): Option<U64> {
    if ParseUint(raw).Some? && ParseUint(raw).value > 0 then ParseUint(raw) else None
  }

  const NAMES: seq<seq<string>> := [
    ["source_app", "app"], ["settlement_run_id", "run_id", "sid"], ["challenge_id", "cid"],
    ["source_event_id", "event_id", "eid"], ["participant_side", "side"], ["participant_id", "pid"],
    ["wager_uwolo", "w"], ["guarantee_uwolo", "g"], ["total_funded_uwolo", "total_uwolo", "total", "t"]]

  predicate ValidFields(f: Fields) {
    f.sourceApp != "" && ValidSourceApp(f.sourceApp) && (f.runId == "" || ValidRunId(f.runId)) &&
    ValidEventId(f.challengeId) && ValidEventId(f.sourceEventId) && (f.challengeId != "" || f.sourceEventId != "") &&
    (f.side == "" || SidePattern(f.side)) && ValidEventId(f.pid) && (f.side != "" || f.pid != "") &&
    f.wager > 0 && f.guarantee > 0
  }

  /** The checks of parseChallengeFundingResult once the values are known. */
  function FieldsOf(values: seq<string>, amount: string): Option<Fields>
    requires |values| == 9
  {
    var wager, guarantee := PositiveAmount(values[6]), PositiveAmount(values[7]);
    var total := PositiveAmount(Trim(amount));
    if wager.None? || guarantee.None? || total.None? then None
    else
      var f := Fields(values[0], values[1], values[2], values[3], values[4], values[5], wager.value, guarantee.value);
      if !ValidFields(f) then None
      else if values[8] != "" && values[8] != Trim(amount) then None
      else if Add(f.wager, f.guarantee) != total.value then None
      else Some(f)
  }

  function ValuesOf(pairs: seq<Pair>): (v: seq<string>)
    ensures |v| == 9
  {
    seq(9, i requires 0 <= i < 9 => GetValue(pairs, NAMES[i]))
  }

  /** parseChallengeFundingResult: the fields proven by a transaction memo and the transferred amount. */
  function ParseMemo(memo: string, amount: string): Option<Fields> {
    var m := Trim(memo);
    if !(PREFIX <= m) then None
    else
      var pairs := ParseQuery(m[|PREFIX|..]);
      if pairs.None? then None else FieldsOf(ValuesOf(pairs.value), amount)
  }

  // ---------------------------------------------------------------- printing

  function PartOf(p: Pair): string {
    p.key + "=" + p.value
  }

  function Print(pairs: seq<Pair>): string {
    if |pairs| == 0 then ""
    else if |pairs| == 1 then PartOf(pairs[0])
    else PartOf(pairs[0]) + "&" + Print(pairs[1..])
  }

  /** Characters that stand for themselves in a query string. */
  predicate PlainChar(c: char) {
    c != '&' && c != '=' && c != ';' && c != '%' && c != '+' && !IsSpace(c)
  }

  predicate Plain(s: string) {
    forall i :: 0 <= i < |s| ==> PlainChar(s[i])
  }

  function Texts(f: Fields, amount: string): (v: seq<string>)
    ensures |v| == 9
  {
    [f.sourceApp, f.runId, f.challengeId, f.sourceEventId, f.side, f.pid, FormatUint(f.wager), FormatUint(f.guarantee),
     amount]
  }

  /** A memo that prints each non-empty field under the chosen alias. */
  function Fielded(names: seq<string>, texts: seq<string>): seq<Pair>
    requires |names| == |texts|
  {
    if |names| == 0 then []
    else (if texts[0] == "" then [] else [Pair(names[0], texts[0])]) + Fielded(names[1..], texts[1..])
  }

  const COMPACT := ["app", "sid", "cid", "eid", "side", "pid", "w", "g", "t"]
  const LONG := ["source_app", "settlement_run_id", "challenge_id", "source_event_id", "participant_side",
                 "participant_id",
                 "wager_uwolo", "guarantee_uwolo", "total_funded_uwolo"]

  function PrintMemo(names: seq<string>, f: Fields, amount: string): string
    requires |names| == 9
  {
    PREFIX + Print(Fielded(names, Texts(f, amount)))
  }

  // ---------------------------------------------------------------- printing then parsing

  lemma {:induction false} IndexFirst(a: string, c: char, b: string)
    requires c !in a
    ensures Index(a + [c] + b, c) == |a|
  {
    if |a| > 0 {
      IndexFirst(a[1..], c, b);
      assert (a + [c] + b)[1..] == a[1..] + [c] + b;
    }
  }

  lemma {:induction false} IndexMissing(a: string, c: char)
    requires c !in a
    ensures Index(a, c) == |a|
  {
    if |a| > 0 {
      IndexMissing(a[1..], c);
    }
  }

  /** A hexadecimal digit, in either case. */
  predicate HexOf(c: char, n: nat) {
    n < 16 && (c == "0123456789abcdef"[n] || c == "0123456789ABCDEF"[n])
  }

  /** The ways to write a character in a query string: itself, a plus for a space, or its code in hexadecimal. */
  ghost predicate StandsFor(e: string, c: char) {
    (e == [c] && PlainChar(c)) || (e == "+" && c == ' ') ||
    (|e| == 3 && e[0] == '%' &&
     exists h: nat, l: nat :: HexOf(e[1], h) && HexOf(e[2], l) && c as int == 16 * h + l)
  }

  ghost predicate Encodes(e: string, s: string)
    decreases |s|
  {
    if s == "" then e == ""
    else exists k :: 0 < k <= |e| && StandsFor(e[..k], s[0]) && Encodes(e[k..], s[1..])
  }

  lemma HexReads(c: char, n: nat)
    requires HexOf(c, n)
    ensures HexValue(c) == Some(n) && PlainChar(c) && n < 16
  {
  }

  /** Characters an encoding is made of. */
  predicate Clean(e: string) {
    forall i :: 0 <= i < |e| ==> e[i] != '&' && e[i] != '=' && e[i] != ';' && !IsSpace(e[i])
  }

  function Prepended(c: char, rest: Option<string>): Option<string> {
    if rest.None? then None else Some([c] + rest.value)
  }

  lemma OneStandsFor(e: string, k: nat, c: char)
    requires 0 < k <= |e| && StandsFor(e[..k], c)
    ensures Clean(e[..k]) && Unescape(e) == Prepended(c, Unescape(e[k..]))
  {
    hide HexOf, HexValue, Unescape, Prepended;
    var one := e[..k];
    if h: nat, l: nat :| |one| == 3 && one[0] == '%' && HexOf(one[1], h) && HexOf(one[2], l) && c as int == 16 * h + l {
      HexReads(one[1], h);
      HexReads(one[2], l);
      assert e[0] == one[0] && e[1] == one[1] && e[2] == one[2];
      HexStandsFor(e, h, l);
      assert c == (16 * h + l) as char;
    } else {
      assert k == 1 && e[0] == one[0];
      PlainStandsFor(e);
    }
  }

  lemma PlainStandsFor(e: string)
    requires |e| > 0 && e[0] != '%'
    ensures Unescape(e) == Prepended(if e[0] == '+' then ' ' else e[0], Unescape(e[1..]))
  {
  }

  lemma HexStandsFor(e: string, h: nat, l: nat)
    requires |e| >= 3 && e[0] == '%' && HexValue(e[1]) == Some(h) && HexValue(e[2]) == Some(l) && h < 16 && l < 16
    ensures Unescape(e) == Prepended((16 * h + l) as char, Unescape(e[3..]))
  {
    hide HexValue;
  }

  lemma {:induction false} UnescapeEncoded(e: string, s: string)
    requires Encodes(e, s)
    ensures Unescape(e) == Some(s) && Clean(e) && (e == "" <==> s == "")
    decreases |s|
  {
    hide Unescape, StandsFor;
    if s == "" {
      UnescapeNothing();
    } else {
      var k :| 0 < k <= |e| && StandsFor(e[..k], s[0]) && Encodes(e[k..], s[1..]);
      OneStandsFor(e, k, s[0]);
      UnescapeEncoded(e[k..], s[1..]);
      assert e == e[..k] + e[k..] && s == [s[0]] + s[1..];
    }
  }

  lemma UnescapeNothing()
    ensures Unescape("") == Some("")
  {
  }

  lemma {:induction false} PlainEncodes(s: string)
    requires Plain(s)
    ensures Encodes(s, s)
  {
    if s != "" {
      PlainEncodes(s[1..]);
      assert s[..1] == [s[0]] && StandsFor(s[..1], s[0]);
    }
  }

  /** The same pairs, encoded. */
  ghost predicate PairsEncode(es: seq<Pair>, pairs: seq<Pair>) {
    |es| == |pairs| && forall i :: 0 <= i < |es| ==> PairEncodes(es[i], pairs[i])
  }

  ghost predicate PairEncodes(e: Pair, p: Pair) {
    Encodes(e.key, p.key) && Encodes(e.value, p.value) && p.key != ""
  }

  /** Parsing consumes one encoded pair and then the rest of the query. */
  lemma QueryStep(e: Pair, p: Pair, rest: string, more: bool)
    requires PairEncodes(e, p) && (more || rest == "")
    ensures var q := if more then PartOf(e) + "&" + rest else PartOf(e);
            ParseQuery(q) == (if ParseQuery(rest).None? then None else Some([p] + ParseQuery(rest).value))
  {
    hide Unescape, Encodes;
    var part := PartOf(e);
    var q := if more then part + "&" + rest else part;
    PartParses(e, p);
    if more {
      IndexFirst(part, '&', rest);
      assert q[|part| + 1..] == rest;
    } else {
      IndexMissing(part, '&');
    }
    assert q[..|part|] == part;
  }

  lemma PartParses(e: Pair, p: Pair)
    requires PairEncodes(e, p)
    ensures '&' !in PartOf(e) && ';' !in PartOf(e)
    ensures var part := PartOf(e); var j := Index(part, '=');
            Unescape(part[..j]) == Some(p.key) && Unescape(After(part, j)) == Some(p.value)
  {
    hide Unescape, Encodes;
    UnescapeEncoded(e.key, p.key);
    UnescapeEncoded(e.value, p.value);
    var part := e.key + "=" + e.value;
    IndexFirst(e.key, '=', e.value);
    assert part[..|e.key|] == e.key && part[|e.key| + 1..] == e.value;
  }

  /** Whatever the keys and values are, and however they are encoded, the query parses to them. */
  lemma {:induction false} PrintParse(es: seq<Pair>, pairs: seq<Pair>)
    requires PairsEncode(es, pairs)
    ensures ParseQuery(Print(es)) == Some(pairs)
  {
    hide PairEncodes, Unescape, ParseQuery, PartOf;
    ParseNothing();
    if |pairs| > 0 {
      PrintParse(es[1..], pairs[1..]);
      QueryStep(es[0], pairs[0], Print(es[1..]), |es| > 1);
      assert pairs == [pairs[0]] + pairs[1..];
    }
  }

  lemma ParseNothing()
    ensures ParseQuery("") == Some([])
  {
  }

  lemma {:induction false} GetFielded(names: seq<string>, texts: seq<string>, key: string)
    requires |names| == |texts|
    requires forall i, j :: 0 <= i < j < |names| ==> names[i] != names[j]
    ensures key !in names ==> Get(Fielded(names, texts), key) == ""
    ensures forall i :: 0 <= i < |names| && names[i] == key ==> Get(Fielded(names, texts), key) == texts[i]
  {
    if |names| > 0 {
      var rest := Fielded(names[1..], texts[1..]);
      GetFielded(names[1..], texts[1..], key);
      assert texts[0] != "" ==> Fielded(names, texts)[1..] == rest;
      assert texts[0] == "" ==> Fielded(names, texts) == rest;
      assert forall i :: 1 <= i < |names| ==> names[i] == names[1..][i - 1] && texts[i] == texts[1..][i - 1];
      if names[0] == key {
        assert key !in names[1..];
      }
    }
  }

  /** A spelling of the memo: for each field one of its aliases. */
  predicate AliasTable(names: seq<string>) {
    |names| == 9 && forall i :: 0 <= i < 9 ==> names[i] in NAMES[i]
  }

  /** No name is an alias of two fields. */
  lemma NamesDisjoint()
    ensures forall i, j, k, l ::
              0 <= i < j < 9 && 0 <= k < |NAMES[i]| && 0 <= l < |NAMES[j]| ==> NAMES[i][k] != NAMES[j][l]
  {
  }

  lemma AliasesDistinct(names: seq<string>)
    requires AliasTable(names)
    ensures forall i, j :: 0 <= i < j < 9 ==> names[i] != names[j]
    ensures forall i, j, k :: 0 <= i < 9 && 0 <= j < 9 && i != j && 0 <= k < |NAMES[j]| ==> names[i] != NAMES[j][k]
  {
    NamesDisjoint();
    forall i, j, k | 0 <= i < 9 && 0 <= j < 9 && i != j && 0 <= k < |NAMES[j]| ensures names[i] != NAMES[j][k] {
      var a: nat :| a < |NAMES[i]| && NAMES[i][a] == names[i];
      if i < j {
        assert NAMES[i][a] != NAMES[j][k];
      } else {
        assert NAMES[j][k] != NAMES[i][a];
      }
    }
    forall i, j | 0 <= i < j < 9 ensures names[i] != names[j] {
      var b: nat :| b < |NAMES[j]| && NAMES[j][b] == names[j];
      assert names[i] != NAMES[j][b];
    }
  }

  lemma {:induction false} ValueFound(pairs: seq<Pair>, keys: seq<string>, name: string, text: string)
    requires name in keys && Trim(text) == text && Get(pairs, name) == text
    requires forall k :: k in keys && k != name ==> Get(pairs, k) == ""
    ensures GetValue(pairs, keys) == text
  {
    assert Trim("") == "";
    if keys[0] != name || text == "" {
      if name in keys[1..] {
        ValueFound(pairs, keys[1..], name, text);
      } else {
        AllBlank(pairs, keys);
      }
    }
  }

  lemma {:induction false} AllBlank(pairs: seq<Pair>, keys: seq<string>)
    requires forall k :: k in keys ==> Get(pairs, k) == ""
    ensures GetValue(pairs, keys) == ""
  {
    assert Trim("") == "";
    if |keys| > 0 {
      AllBlank(pairs, keys[1..]);
    }
  }

  /** Each field under its name, encoded, is the fields encoded. */
  lemma {:induction false} FieldedEncodes(names: seq<string>, es: seq<string>, texts: seq<string>)
    requires |names| == |es| == |texts| &&
             (forall i :: 0 <= i < |names| ==> Plain(names[i]) && names[i] != "" && Encodes(es[i], texts[i]))
    ensures PairsEncode(Fielded(names, es), Fielded(names, texts))
  {
    hide Encodes, Plain;
    if |names| > 0 {
      FieldedEncodes(names[1..], es[1..], texts[1..]);
      UnescapeEncoded(es[0], texts[0]);
      PlainEncodes(names[0]);
    }
  }

  /** Field values the patterns allow have no spaces around them, and need no escaping. */
  lemma TextsPlain(f: Fields, declared: string)
    requires ValidFields(f) && AllDigits(declared)
    ensures forall i :: 0 <= i < 9 ==>
              Plain(Texts(f, declared)[i]) && Trim(Texts(f, declared)[i]) == Texts(f, declared)[i]
  {
    forall i | 0 <= i < 9 ensures Plain(Texts(f, declared)[i]) {
      var t := Texts(f, declared)[i];
      if i >= 6 {
        assert AllDigits(t);
      } else {
        assert forall k :: 0 <= k < |t| ==> EventChar(t[k]);
      }
    }
  }

  lemma PrefixCut(rest: string)
    requires |rest| > 0 && !IsSpace(rest[|rest| - 1])
    ensures var m := PREFIX + rest; Trim(m) == m && PREFIX <= m && m[|PREFIX|..] == rest
  {
    var m := PREFIX + rest;
    assert m[0] == 'w' && m[|m| - 1] == rest[|rest| - 1];
    assert Trimmed(m);
  }

  lemma {:induction false} PrintEnds(es: seq<Pair>, pairs: seq<Pair>)
    requires |pairs| > 0 && PairsEncode(es, pairs)
    ensures |Print(es)| > 0 && !IsSpace(Print(es)[|Print(es)| - 1])
  {
    hide Encodes;
    if |pairs| > 1 {
      PrintEnds(es[1..], pairs[1..]);
    } else {
      UnescapeEncoded(es[0].value, pairs[0].value);
      var part := PartOf(es[0]);
      assert part[|part| - 1] == if es[0].value == "" then '=' else es[0].value[|es[0].value| - 1];
    }
  }

  /** A memo that writes each field under one of its aliases, its value encoded in any way. */
  ghost predicate Spells(memo: string, f: Fields, declared: string) {
    exists names, es ::
      AliasTable(names) && |es| == |names| == 9 &&
      (forall i :: 0 <= i < 9 ==> Encodes(es[i], Texts(f, declared)[i])) && memo == PREFIX + Print(Fielded(names, es))
  }

  /**
   * The memo of valid fields, under any of the aliases and in any encoding, parses back to those fields for an amount
   * that is the wrapped sum of the two buckets, unless it declares another total: then it does not parse.
   */
  lemma MemoExactly(memo: string, f: Fields, declared: string, amount: string)
    requires ValidFields(f) && Trim(declared) == declared && Spells(memo, f, declared)
    requires ParseUint(amount) == Some(Add(f.wager, f.guarantee)) && Add(f.wager, f.guarantee) > 0
    ensures ParseMemo(memo, amount) == if declared == "" || declared == amount then Some(f) else None
  {
    hide ValidFields, Trim, Wrap, GetValue, ParseQuery, ParseUint, FormatUint, Fielded, Print, Encodes, AliasTable;
    var names, es :|
      AliasTable(names) && |es| == |names| == 9 &&
      (forall i :: 0 <= i < 9 ==> Encodes(es[i], Texts(f, declared)[i])) && memo == PREFIX + Print(Fielded(names, es));
    var texts := Texts(f, declared);
    SpelledQuery(names, es, texts);
    SpelledValues(names, f, declared);
    AmountDigits(amount);
    ParseFormat(f.wager);
    ParseFormat(f.guarantee);
    ValidAmounts(f);
  }

  /** The query of a memo parses to the pairs it spells, and nothing is trimmed off its end. */
  lemma SpelledQuery(names: seq<string>, es: seq<string>, texts: seq<string>)
    requires AliasTable(names) && |es| == |texts| == 9 && texts[7] != ""
    requires forall i :: 0 <= i < 9 ==> Encodes(es[i], texts[i])
    ensures var m := PREFIX + Print(Fielded(names, es));
            Trim(m) == m && PREFIX <= m && ParseQuery(m[|PREFIX|..]) == Some(Fielded(names, texts))
  {
    hide Trim, Plain, ParseQuery, Fielded, Print, Encodes;
    NamesPlain(names);
    FieldedEncodes(names, es, texts);
    PrintParse(Fielded(names, es), Fielded(names, texts));
    assert |Fielded(names, texts)| > 0 by { FieldedNonEmpty(names, texts, 7); }
    PrintEnds(Fielded(names, es), Fielded(names, texts));
    PrefixCut(Print(Fielded(names, es)));
  }

  /** Every field is found under its name. */
  lemma SpelledValues(names: seq<string>, f: Fields, declared: string)
    requires AliasTable(names) && ValidFields(f) && Trim(declared) == declared
    ensures ValuesOf(Fielded(names, Texts(f, declared))) == Texts(f, declared)
  {
    hide ValidFields, Trim, GetValue, FormatUint, Fielded;
    var texts := Texts(f, declared);
    var pairs := Fielded(names, texts);
    TextsTrimmed(f, declared);
    forall i | 0 <= i < 9 ensures GetValue(pairs, NAMES[i]) == texts[i] {
      FieldFound(names, texts, i);
    }
  }

  lemma TextsTrimmed(f: Fields, declared: string)
    requires ValidFields(f) && Trim(declared) == declared
    ensures forall i :: 0 <= i < 9 ==> Trim(Texts(f, declared)[i]) == Texts(f, declared)[i]
  {
    hide Trim, ValidFields, FormatUint, Plain;
    TextsPlain(f, "");
    assert forall i :: 0 <= i < 8 ==> Texts(f, declared)[i] == Texts(f, "")[i];
  }

  /** Memo round trip: a memo written without any encoding, under any of the aliases, parses back to its fields. */
  lemma MemoRoundTrip(f: Fields, amount: string, names: seq<string>)
    requires ValidFields(f) && AliasTable(names)
    requires ParseUint(amount) == Some(Add(f.wager, f.guarantee)) && Add(f.wager, f.guarantee) > 0
    ensures ParseMemo(PrintMemo(names, f, amount), amount) == Some(f)
  {
    hide ValidFields, Trim, Wrap, Plain, ParseMemo, ParseUint, FormatUint, Fielded, Print, Encodes;
    var texts := Texts(f, amount);
    AmountDigits(amount);
    TextsPlain(f, amount);
    forall i | 0 <= i < 9 ensures Encodes(texts[i], texts[i]) {
      PlainEncodes(texts[i]);
    }
    MemoExactly(PrintMemo(names, f, amount), f, amount, amount);
  }

  /** Both spellings in use are spellings. */
  lemma SpellingsInUse()
    ensures AliasTable(COMPACT) && AliasTable(LONG)
  {
    assert COMPACT[0] == NAMES[0][1] && COMPACT[1] == NAMES[1][2] && COMPACT[2] == NAMES[2][1] &&
           COMPACT[3] == NAMES[3][2] && COMPACT[4] == NAMES[4][1] && COMPACT[5] == NAMES[5][1] &&
           COMPACT[6] == NAMES[6][1] && COMPACT[7] == NAMES[7][1] && COMPACT[8] == NAMES[8][3];
    assert forall i :: 0 <= i < 9 ==> LONG[i] == NAMES[i][0];
  }

  lemma AmountDigits(amount: string)
    requires ParseUint(amount).Some?
    ensures AllDigits(amount) && amount != "" && Trim(amount) == amount
  {
  }

  lemma ValidAmounts(f: Fields)
    requires ValidFields(f)
    ensures f.wager > 0 && f.guarantee > 0
  {
  }

  lemma AliasesPlain()
    ensures forall i, k :: 0 <= i < 9 && 0 <= k < |NAMES[i]| ==> Plain(NAMES[i][k]) && NAMES[i][k] != ""
  {
    hide Plain;
    LongNamesPlain();
    MoreNamesPlain();
    ShortNamesPlain();
  }

  lemma LongNamesPlain()
    ensures Plain("source_app") && Plain("settlement_run_id") && Plain("challenge_id") && Plain("source_event_id")
    ensures Plain("participant_side") && Plain("participant_id")
  {
  }

  lemma MoreNamesPlain()
    ensures Plain("wager_uwolo") && Plain("guarantee_uwolo") && Plain("total_funded_uwolo") && Plain("total_uwolo")
    ensures Plain("event_id") && Plain("run_id")
  {
  }

  lemma ShortNamesPlain()
    ensures Plain("app") && Plain("sid") && Plain("cid") && Plain("eid") && Plain("side") && Plain("pid")
    ensures Plain("w") && Plain("g") && Plain("t") && Plain("total")
  {
  }

  lemma NamesPlain(names: seq<string>)
    requires AliasTable(names)
    ensures forall i :: 0 <= i < 9 ==> Plain(names[i]) && names[i] != ""
  {
    hide Plain;
    AliasesPlain();
    forall i | 0 <= i < 9 ensures Plain(names[i]) && names[i] != "" {
      var k: nat :| k < |NAMES[i]| && NAMES[i][k] == names[i];
    }
  }

  lemma {:induction false} FieldedNonEmpty(names: seq<string>, texts: seq<string>, i: nat)
    requires |names| == |texts| && i < |texts| && texts[i] != ""
    ensures |Fielded(names, texts)| > 0
  {
    if i > 0 {
      FieldedNonEmpty(names[1..], texts[1..], i - 1);
    }
  }

  /** A percent sign that no two hexadecimal digits follow. */
  predicate BadEscape(s: string) {
    exists i :: 0 <= i < |s| && s[i] == '%' && !(i + 2 < |s| && IsHexDigit(s[i + 1]) && IsHexDigit(s[i + 2]))
  }

  predicate IsHexDigit(c: char) {
    c in "0123456789abcdefABCDEF"
  }

  lemma HexDigits(c: char)
    ensures HexValue(c).Some? <==> IsHexDigit(c)
  {
  }

  lemma {:induction false} BadEscapeRefused(s: string)
    ensures Unescape(s).Some? ==> forall i :: 0 <= i < |s| && s[i] == '%' ==> i + 2 < |s|
    ensures Unescape(s).None? ==> BadEscape(s)
  {
    hide HexValue, IsHexDigit;
    if |s| > 0 {
      if s[0] == '%' {
        if |s| >= 3 {
          HexDigits(s[1]);
          HexDigits(s[2]);
          BadEscapeRefused(s[3..]);
          HexIsNoPercent(s[1]);
          HexIsNoPercent(s[2]);
          if Unescape(s).Some? {
            forall i | 0 <= i < |s| && s[i] == '%' ensures i + 2 < |s| {
              if i >= 3 { assert s[3..][i - 3] == '%'; }
            }
          }
          if BadEscape(s[3..]) {
            LaterBadEscape(s, 3);
          }
        }
      } else {
        BadEscapeRefused(s[1..]);
        if Unescape(s).Some? {
          forall i | 0 <= i < |s| && s[i] == '%' ensures i + 2 < |s| {
            if i >= 1 { assert s[1..][i - 1] == '%'; }
          }
        }
        if BadEscape(s[1..]) {
          LaterBadEscape(s, 1);
        }
      }
    }
  }

  lemma HexIsNoPercent(c: char)
    ensures HexValue(c).Some? ==> c != '%'
  {
  }

  lemma LaterBadEscape(s: string, k: nat)
    requires k <= |s| && BadEscape(s[k..])
    ensures BadEscape(s)
  {
    hide IsHexDigit;
    var t := s[k..];
    var i :| 0 <= i < |t| && t[i] == '%' && !(i + 2 < |t| && IsHexDigit(t[i + 1]) && IsHexDigit(t[i + 2]));
    assert s[i + k] == '%';
    assert i + 2 < |t| ==> s[i + k + 1] == t[i + 1] && s[i + k + 2] == t[i + 2];
  }

  /** A semicolon anywhere makes the whole memo invalid. */
  lemma {:induction false} SemicolonRefused(q: string)
    requires ';' in q
    ensures ParseQuery(q).None?
    decreases |q|
  {
    var i := Index(q, '&');
    assert q == q[..i] + q[i..];
    if ';' !in q[..i] {
      var k :| i <= k < |q| && q[k] == ';';
      assert After(q, i)[k - i - 1] == ';';
      SemicolonRefused(After(q, i));
    }
  }

  /** When a key occurs again only its first value counts, and a later alias only where the earlier ones are blank. */
  lemma {:induction false} FirstValueCounts(pairs: seq<Pair>, more: seq<Pair>, key: string)
    ensures Get(pairs + more, key) == if exists i :: 0 <= i < |pairs| && pairs[i].key == key then Get(pairs, key)
                                      else Get(more, key)
  {
    if |pairs| > 0 {
      FirstValueCounts(pairs[1..], more, key);
      assert (pairs + more)[1..] == pairs[1..] + more;
      if pairs[0].key != key && exists i :: 0 <= i < |pairs| && pairs[i].key == key {
        var i :| 0 <= i < |pairs| && pairs[i].key == key;
        assert pairs[1..][i - 1].key == key;
      }
    } else {
      assert pairs + more == more;
    }
  }

  lemma {:induction false} FirstAliasCounts(pairs: seq<Pair>, keys: seq<string>, k: nat)
    requires k < |keys| && Trim(Get(pairs, keys[k])) != ""
    requires forall i :: 0 <= i < k ==> Trim(Get(pairs, keys[i])) == ""
    ensures GetValue(pairs, keys) == Trim(Get(pairs, keys[k]))
  {
    if k > 0 {
      FirstAliasCounts(pairs, keys[1..], k - 1);
    }
  }

  lemma FieldFound(names: seq<string>, texts: seq<string>, i: nat)
    requires AliasTable(names) && |texts| == 9 && i < 9 && Trim(texts[i]) == texts[i]
    ensures GetValue(Fielded(names, texts), NAMES[i]) == texts[i]
  {
    hide Trim, Fielded, Get;
    AliasesDistinct(names);
    var pairs := Fielded(names, texts);
    GetFielded(names, texts, names[i]);
    forall k | k in NAMES[i] && k != names[i] ensures Get(pairs, k) == "" {
      GetFielded(names, texts, k);
      assert k !in names;
    }
    ValueFound(pairs, NAMES[i], names[i], texts[i]);
  }

  /** Nothing parses unless both buckets are positive and add up, modulo 2^64, to the transferred amount. */
  lemma ParsedBucketsAddUp(memo: string, amount: string)
    requires ParseMemo(memo, amount).Some?
    ensures var f := ParseMemo(memo, amount).value;
            ValidFields(f) && f.wager > 0 && f.guarantee > 0 &&
            ParseUint(Trim(amount)) == Some(Add(f.wager, f.guarantee))
    ensures var f := ParseMemo(memo, amount).value;
            f.wager + f.guarantee < TWO64 <==> ParseUint(Trim(amount)).value == f.wager + f.guarantee
  {
    hide Trim, ParseUint, ValidFields, ParseQuery;
    ValidAmounts(ParseMemo(memo, amount).value);
  }
}

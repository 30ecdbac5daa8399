/** Identifier patterns and the ids the rail derives from a run id. */
module Ids {
  import opened Text
  import opened Amounts

  predicate IdChar(c: char) {
    IsAlnum(c) || c == '.' || c == '_' || c == ':' || c == '-'
  }

  predicate EventChar(c: char) {
    IdChar(c) || c == '/'
  }

  /** settlementRequestIDPattern. */
  predicate RequestIdPattern(s: string) {
    3 <= |s| <= 128 && IsAlnum(s[0]) && forall i :: 0 <= i < |s| ==> IdChar(s[i])
  }

  /** settlementSourceEventPattern. */
  predicate EventPattern(s: string) {
    1 <= |s| <= 128 && IsAlnum(s[0]) && forall i :: 0 <= i < |s| ==> EventChar(s[i])
  }

  /** settlementChallengeParticipantSidePattern. */
  predicate SidePattern(s: string) {
    1 <= |s| <= 32 && IsAlnum(s[0]) && forall i :: 0 <= i < |s| ==> IsAlnum(s[i]) || s[i] == '_' || s[i] == '-'
  }

  /** settlementChallengeReasonPattern. */
  predicate ReasonPattern(s: string) {
    1 <= |s| <= 32 && 'a' <= s[0] <= 'z' &&
    forall i :: 0 <= i < |s| ==> 'a' <= s[i] <= 'z' || IsDigit(s[i]) || s[i] == '_' || s[i] == '-'
  }

  /** validateSettlementRunID. */
  predicate ValidRunId(s: string) {
    RequestIdPattern(s) && |s| <= 96
  }

  /** normalizeSettlementRunMetadataID: an empty value is allowed. */
  predicate ValidSourceApp(s: string) {
    s == "" || (|s| <= 64 && RequestIdPattern(s))
  }

  predicate ValidEventId(s: string) {
    s == "" || EventPattern(s)
  }

  /** isWoloAddress with the canonical prefix. */
  predicate IsWoloAddress(s: string) {
    "wolo1" <= Lower(Trim(s))
  }

  /** "%03d". */
  function Pad3(n: nat): (s: string)
    ensures AllDigits(s)
  {
    if n < 10 then "00" + FormatUint(n) else if n < 100 then "0" + FormatUint(n) else FormatUint(n)
  }

  function ItemId(runId: string, index: nat): string {
    runId + ":item-" + Pad3(index + 1)
  }

  function ChallengeTransferId(runId: string, index: nat): string {
    runId + ":challenge-" + Pad3(index + 1)
  }

  function TopUpId(runId: string): string {
    runId + ":topup"
  }

  /** The part of a string after its last separator. */
  function Tail(s: string, sep: char): string {
    if |s| == 0 || s[|s| - 1] == sep then "" else Tail(s[..|s| - 1], sep) + [s[|s| - 1]]
  }

  lemma {:induction false} TailOf(r: string, sep: char, t: string)
    requires sep !in t
    ensures Tail(r + [sep] + t, sep) == t
  {
    var s := r + [sep] + t;
    if |t| > 0 {
      TailOf(r, sep, t[..|t| - 1]);
      assert s[..|s| - 1] == r + [sep] + t[..|t| - 1];
      assert t == t[..|t| - 1] + [t[|t| - 1]];
    }
  }

  lemma {:induction false} LeadingZero(s: string)
    requires AllDigits(s)
    ensures DigitsValue("0" + s) == DigitsValue(s)
  {
    var t := "0" + s;
    if |s| > 0 {
      LeadingZero(s[..|s| - 1]);
      assert t[..|t| - 1] == "0" + s[..|s| - 1];
    } else {
      assert t[..0] == "";
    }
  }

  lemma PadValue(n: nat)
    ensures DigitsValue(Pad3(n)) == n
  {
    DigitsOfFormat(n);
    LeadingZero(FormatUint(n));
    LeadingZero("0" + FormatUint(n));
    assert "00" + FormatUint(n) == "0" + ("0" + FormatUint(n));
  }

  /** The last separator determines both parts around it. */
  lemma SplitAtLast(r: string, sep: char, t: string, r': string, t': string)
    requires sep !in t && sep !in t'
    requires r + [sep] + t == r' + [sep] + t'
    ensures r == r' && t == t'
  {
    TailOf(r, sep, t);
    TailOf(r', sep, t');
    assert r == (r + [sep] + t)[..|r|];
    assert r' == (r' + [sep] + t')[..|r'|];
  }

  /** At least three digits, and no more than three below a thousand. */
  lemma PadLength(n: nat)
    ensures |Pad3(n)| >= 3 && (n < 1000 ==> |Pad3(n)| == 3)
  {
    if n >= 100 {
      assert |FormatUint(n)| == |FormatUint(n / 10)| + 1;
      assert |FormatUint(n / 10)| == |FormatUint(n / 10 / 10)| + 1;
      assert n < 1000 ==> |FormatUint(n / 10 / 10)| == 1;
    } else if n >= 10 {
      assert |FormatUint(n)| == |FormatUint(n / 10)| + 1;
    }
  }

  lemma PadInjective(m: nat, n: nat)
    requires Pad3(m) == Pad3(n)
    ensures m == n
  {
    PadValue(m);
    PadValue(n);
  }

  lemma ItemTail(runId: string, index: nat)
    ensures var t := "item-" + Pad3(index + 1); ':' !in t && ItemId(runId, index) == runId + [':'] + t
    ensures var t := "challenge-" + Pad3(index + 1); ':' !in t && ChallengeTransferId(runId, index) == runId + [':'] + t
    ensures TopUpId(runId) == runId + [':'] + "topup" && ':' !in "topup"
  {
    var p := Pad3(index + 1);
    assert forall i :: 0 <= i < |p| ==> IsDigit(p[i]);
    assert ItemId(runId, index) == runId + [':'] + ("item-" + p);
    assert ChallengeTransferId(runId, index) == runId + [':'] + ("challenge-" + p);
  }

  /** Item ids and challenge transfer ids determine the run id and the index they came from. */
  lemma DerivedIdsInjective(r: string, i: nat, r': string, i': nat)
    ensures ItemId(r, i) == ItemId(r', i') <==> r == r' && i == i'
    ensures ChallengeTransferId(r, i) == ChallengeTransferId(r', i') <==> r == r' && i == i'
    ensures TopUpId(r) == TopUpId(r') <==> r == r'
  {
    ItemTail(r, i);
    ItemTail(r', i');
    var p, p' := Pad3(i + 1), Pad3(i' + 1);
    if ItemId(r, i) == ItemId(r', i') {
      SplitAtLast(r, ':', "item-" + p, r', "item-" + p');
      assert p == ("item-" + p)[5..] && p' == ("item-" + p')[5..];
      PadInjective(i + 1, i' + 1);
    }
    if ChallengeTransferId(r, i) == ChallengeTransferId(r', i') {
      SplitAtLast(r, ':', "challenge-" + p, r', "challenge-" + p');
      assert p == ("challenge-" + p)[10..] && p' == ("challenge-" + p')[10..];
      PadInjective(i + 1, i' + 1);
    }
    if TopUpId(r) == TopUpId(r') {
      SplitAtLast(r, ':', "topup", r', "topup");
    }
  }

  /** No id of one family is an id of another, whatever run ids and indexes are used. */
  lemma DerivedIdsDisjoint(r: string, i: nat, r': string, i': nat)
    ensures ItemId(r, i) != ChallengeTransferId(r', i')
    ensures ItemId(r, i) != TopUpId(r')
    ensures ChallengeTransferId(r, i) != TopUpId(r')
  {
    ItemTail(r, i);
    ItemTail(r', i');
    var item, challenge := "item-" + Pad3(i + 1), "challenge-" + Pad3(i + 1);
    var challenge' := "challenge-" + Pad3(i' + 1);
    TailOf(r, ':', item);
    TailOf(r, ':', challenge);
    TailOf(r', ':', challenge');
    TailOf(r', ':', "topup");
    assert item[0] == 'i' && challenge[0] == 'c' && challenge'[0] == 'c' && "topup"[0] == 't';
  }

  lemma {:induction false} FormatLength(n: nat, k: nat, bound: nat)
    requires k >= 1 && n < bound && bound == Pow10(k)
    ensures |FormatUint(n)| <= k
  {
    if n >= 10 {
      FormatLength(n / 10, k - 1, Pow10(k - 1));
    }
  }

  function Pow10(k: nat): nat {
    if k == 0 then 1 else 10 * Pow10(k - 1)
  }

  /** Every index a Go int can hold derives ids that the request id pattern accepts. */
  lemma DerivedIdsValid(r: string, i: nat)
    requires ValidRunId(r) && i < TWO63
    ensures RequestIdPattern(ItemId(r, i)) && RequestIdPattern(ChallengeTransferId(r, i)) &&
            RequestIdPattern(TopUpId(r))
  {
    var p := Pad3(i + 1);
    assert Pow10(5) == 100_000;
    assert Pow10(10) == 10_000_000_000;
    assert Pow10(15) == 1_000_000_000_000_000;
    assert Pow10(19) == 10_000_000_000_000_000_000;
    FormatLength(i + 1, 19, Pow10(19));
    assert |p| <= 19 by {
      assert FormatUint(0) == "0";
    }
    assert forall k :: 0 <= k < |p| ==> IdChar(p[k]);
  }
}

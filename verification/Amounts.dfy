/** 64-bit amounts: wrapping sums, decimal parsing and printing, and amount normalization. */
module Amounts {
  import opened Text

  const TWO64: int := 0x1_0000_0000_0000_0000
  const TWO63: int := 0x8000_0000_0000_0000

  type U64 = x: int | 0 <= x < TWO64

  /** What a uint64 holds after an unchecked addition. */
  function Wrap(x: int): U64 {
    x % TWO64
  }

  function Add(x: int, y: int): U64 {
    Wrap(x + y)
  }

  /** What an int64 holds after an unchecked multiplication. */
  function WrapSigned(x: int): int {
    (x + TWO63) % TWO64 - TWO63
  }

  lemma WrapAdd(x: int, y: int)
    ensures Wrap(Wrap(x) + y) == Wrap(x + y)
  {
    assert x == TWO64 * (x / TWO64) + x % TWO64;
    ModShift(x % TWO64 + y, x / TWO64);
  }

  lemma WrapSmall(x: int)
    requires 0 <= x < TWO64
    ensures Wrap(x) == x
  {
  }

  lemma {:induction false} ModShift(x: int, k: int)
    ensures (TWO64 * k + x) % TWO64 == x % TWO64
    decreases if k < 0 then -k else k
  {
    if k > 0 {
      ModShift(x, k - 1);
    } else if k < 0 {
      ModShift(x, k + 1);
    }
  }

  predicate IsDigit(c: char) {
    '0' <= c <= '9'
  }

  predicate AllDigits(s: string) {
    forall i :: 0 <= i < |s| ==> IsDigit(s[i])
  }

  function DigitsValue(s: string): nat
    requires AllDigits(s)
  {
    if |s| == 0 then 0 else 10 * DigitsValue(s[..|s| - 1]) + (s[|s| - 1] as int - '0' as int)
  }

  /** strconv.ParseUint(s, 10, 64). */
  function ParseUint(s: string): Option<U64> {
    if |s| > 0 && AllDigits(s) && DigitsValue(s) < TWO64 then Some(DigitsValue(s)) else None
  }

  /** strconv.FormatUint(n, 10). */
  function FormatUint(n: nat): (s: string)
    ensures |s| > 0 && AllDigits(s)
  {
    var d := ('0' as int + n % 10) as char;
    if n < 10 then [d] else FormatUint(n / 10) + [d]
  }

  function FormatInt(n: int): string {
    if n < 0 then "-" + FormatUint(-n) else FormatUint(n)
  }

  /** The amount a line contributes to a total: an empty amount counts as zero, an unreadable one is skipped. */
  function OptionalAmount(s: string): Option<U64> {
    if Trim(s) == "" then Some(0) else ParseUint(Trim(s))
  }

  /** Same text the chain prints for the amount it parsed: no leading zeros. */
  predicate Canonical(s: string) {
    ParseUint(s).Some? && FormatUint(ParseUint(s).value) == s
  }

  function NormalizeAmount(amountUWolo: string, amountWolo: int): Option<string> {
    var t := Trim(amountUWolo);
    if t != "" && amountWolo > 0 then None
    else if t == "" && amountWolo <= 0 then None
    else if t != "" then
      if ParseUint(t).None? || t == "0" then None else Some(t)
    else Some(FormatInt(WrapSigned(amountWolo * 1_000_000)))
  }

  lemma {:induction false} DigitsOfFormat(n: nat)
    ensures DigitsValue(FormatUint(n)) == n
  {
    if n >= 10 {
      DigitsOfFormat(n / 10);
      var s := FormatUint(n);
      assert s[..|s| - 1] == FormatUint(n / 10);
    } else {
      assert FormatUint(n)[..0] == [];
    }
  }

  /** Printing then parsing gives the number back. */
  lemma ParseFormat(n: U64)
    ensures ParseUint(FormatUint(n)) == Some(n)
    ensures Canonical(FormatUint(n)) && Trimmed(FormatUint(n)) && Trim(FormatUint(n)) == FormatUint(n)
    ensures OptionalAmount(FormatUint(n)) == Some(n)
  {
    DigitsOfFormat(n);
  }

  lemma DigitsTrimmed(s: string)
    requires AllDigits(s)
    ensures Trimmed(s) && Trim(s) == s
  {
  }

  lemma NormalizedAmountTrimmed(amountUWolo: string, amountWolo: int)
    requires NormalizeAmount(amountUWolo, amountWolo).Some?
    ensures var a := NormalizeAmount(amountUWolo, amountWolo).value; Trim(a) == a && a != ""
  {
    TrimShape(amountUWolo);
    var t := Trim(amountUWolo);
    if t == "" {
      var n := WrapSigned(amountWolo * 1_000_000);
      var f := FormatInt(n);
      if n < 0 {
        var u := FormatUint(-n);
        assert f[|f| - 1] == u[|u| - 1];
      }
      assert Trimmed(f);
    }
  }

  /** The exact sum of a sequence of amounts. */
  function Sum(xs: seq<nat>): nat {
    if |xs| == 0 then 0 else Sum(xs[..|xs| - 1]) + xs[|xs| - 1]
  }

  lemma SumSnoc(xs: seq<nat>, x: nat)
    ensures Sum(xs + [x]) == Sum(xs) + x
  {
    assert (xs + [x])[..|xs|] == xs;
  }

  lemma SumStep(xs: seq<nat>, k: nat)
    requires k < |xs|
    ensures Sum(xs[..k + 1]) == Sum(xs[..k]) + xs[k] && Sum([]) == 0
  {
    assert xs[..k + 1][..k] == xs[..k];
  }

  lemma {:induction false} SumPrefix(xs: seq<nat>, k: nat)
    requires k <= |xs|
    ensures Sum(xs[..k]) <= Sum(xs)
  {
    if k < |xs| {
      SumPrefix(xs[..|xs| - 1], k);
      assert xs[..|xs| - 1][..k] == xs[..k];
    } else {
      assert xs[..k] == xs;
    }
  }
}

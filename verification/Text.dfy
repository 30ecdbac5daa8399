/** ASCII text helpers with the meaning the settlement rail gives them: trimming, case folding, cutting. */
module Text {

  datatype Option<+T> = None | Some(value: T)

  predicate IsSpace(c: char) {
    c == ' ' || 9 as char <= c <= 13 as char
  }

  function TrimLeft(s: string): string {
    if |s| > 0 && IsSpace(s[0]) then TrimLeft(s[1..]) else s
  }

  function TrimRight(s: string): string {
    if |s| > 0 && IsSpace(s[|s| - 1]) then TrimRight(s[..|s| - 1]) else s
  }

  function Trim(s: string): string {
    TrimRight(TrimLeft(s))
  }

  /** A string no trimming changes. */
  predicate Trimmed(s: string) {
    |s| > 0 ==> !IsSpace(s[0]) && !IsSpace(s[|s| - 1])
  }

  function Cut(s: string, n: nat): (r: string)
    ensures |r| <= n && r <= s
  {
    if |s| > n then s[..n] else s
  }

  function FirstNonEmpty(a: string, b: string): string {
    if Trim(a) != "" then Trim(a) else Trim(b)
  }

  function LowerChar(c: char): char {
    if 'A' <= c <= 'Z' then (c as int + 32) as char else c
  }

  function UpperChar(c: char): char {
    if 'a' <= c <= 'z' then (c as int - 32) as char else c
  }

  function Lower(s: string): (r: string)
    ensures |r| == |s|
  {
    seq(|s|, i requires 0 <= i < |s| => LowerChar(s[i]))
  }

  function Upper(s: string): (r: string)
    ensures |r| == |s|
  {
    seq(|s|, i requires 0 <= i < |s| => UpperChar(s[i]))
  }

  predicate EqualFold(a: string, b: string) {
    Lower(a) == Lower(b)
  }

  predicate IsAlnum(c: char) {
    'a' <= c <= 'z' || 'A' <= c <= 'Z' || '0' <= c <= '9'
  }

  lemma {:induction false} TrimLeftShape(s: string)
    ensures |TrimLeft(s)| > 0 ==> !IsSpace(TrimLeft(s)[0])
  {
    if |s| > 0 && IsSpace(s[0]) {
      TrimLeftShape(s[1..]);
    }
  }

  lemma {:induction false} TrimRightShape(s: string)
    ensures TrimRight(s) <= s
    ensures |TrimRight(s)| > 0 ==> !IsSpace(TrimRight(s)[|TrimRight(s)| - 1])
  {
    if |s| > 0 && IsSpace(s[|s| - 1]) {
      TrimRightShape(s[..|s| - 1]);
    }
  }

  lemma TrimShape(s: string)
    ensures Trimmed(Trim(s)) && |Trim(s)| <= |s| && Trim(Trim(s)) == Trim(s)
  {
    TrimLeftShape(s);
    TrimLeftLength(s);
    TrimRightShape(TrimLeft(s));
  }

  lemma {:induction false} TrimLeftLength(s: string)
    ensures |TrimLeft(s)| <= |s|
  {
    if |s| > 0 && IsSpace(s[0]) {
      TrimLeftLength(s[1..]);
    }
  }

  lemma {:induction false} TrimRightKeepsHead(s: string)
    requires |s| > 0 && !IsSpace(s[0])
    ensures |TrimRight(s)| > 0
  {
    if IsSpace(s[|s| - 1]) {
      TrimRightKeepsHead(s[..|s| - 1]);
    }
  }

  /** Cutting a trimmed memo and trimming again never empties it: the head stays. */
  lemma CutTrimNonEmpty(s: string, n: nat)
    requires Trimmed(s) && |s| > 0 && n > 0
    ensures |Trim(Cut(s, n))| > 0
  {
    assert !IsSpace(Cut(s, n)[0]);
    TrimRightKeepsHead(Cut(s, n));
  }

  /** Tabs, line breaks, vertical tabs, form feeds, carriage returns and blanks are all trimmed, and nothing else. */
  lemma SpacesExactly(c: char)
    ensures IsSpace(c) <==> c in "\t\n\U{000B}\U{000C}\r "
  {
  }
}

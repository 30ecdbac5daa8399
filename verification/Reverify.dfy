/** A deposit that verified once verifies again under everything its stored result adds to the expectation. */
module Reverify {
  import opened Text
  import opened Amounts
  import opened Ids
  import opened Records
  import opened Chain
  import opened Memo
  import opened Funding
  import opened Machine

  /** The expectation completed by a stored deposit. */
  function Completed(e: Expectation, d: Deposit): Expectation {
    e.(sender := FirstNonEmpty(e.sender, d.sender), runId := FirstNonEmpty(e.runId, d.runId),
       total := FirstNonEmpty(e.total, d.total),
       wager := FirstNonEmpty(e.wager, d.wager), guarantee := FirstNonEmpty(e.guarantee, d.guarantee))
  }

  lemma {:induction false} StricterMatch(ts: seq<Transfer>, e: Expect, e': Expect)
    requires FirstMatch(ts, e).Some? && Matches(FirstMatch(ts, e).value, e')
    requires forall t :: t in ts && Matches(t, e') ==> Matches(t, e)
    ensures FirstMatch(ts, e') == FirstMatch(ts, e)
  {
    hide Matches;
    if !Matches(ts[0], e) {
      assert ts[0] in ts;
      StricterMatch(ts[1..], e, e');
    }
  }

  lemma FirstTrimmed(a: string, b: string)
    ensures var c := FirstNonEmpty(a, b);
            Trim(c) == c && (Trim(a) != "" ==> c == Trim(a)) && (Trim(a) == "" ==> c == Trim(b))
  {
    hide Trim;
    TrimShape(a);
    TrimShape(b);
  }

  lemma CanonicalTrimmed(s: string)
    requires Canonical(s)
    ensures Trim(s) == s && s != ""
  {
    DigitsTrimmed(s);
  }

  /** The transfer a deposit was proven by is also the first that matches the completed expectation. */
  lemma SameMatch(ts: seq<Transfer>, escrow: string, e: Expectation, d: Deposit, t: Transfer)
    requires Trim(escrow) != "" && HonestTransfer(t) && t in ts && d.sender == t.sender && d.total == Trim(t.amount)
    requires MatchTransfer(ts, Expect(Trim(e.sender), escrow, Trim(e.total))) == Some(t)
    ensures var c := Completed(e, d); MatchTransfer(ts, Expect(Trim(c.sender), escrow, Trim(c.total))) == Some(t)
  {
    hide Trim, Canonical, IsWoloAddress, EqualFold;
    var c := Completed(e, d);
    FirstTrimmed(e.sender, d.sender);
    FirstTrimmed(e.total, d.total);
    TrimShape(e.sender);
    TrimShape(e.total);
    CanonicalTrimmed(t.amount);
    SelfFold(t.sender);
    StricterMatch(ts, Expect(Trim(e.sender), escrow, Trim(e.total)), Expect(Trim(c.sender), escrow, Trim(c.total)));
  }

  lemma SelfFold(s: string)
    ensures EqualFold(s, s)
  {
  }

  lemma WoloTrim(s: string)
    requires IsWoloAddress(s)
    ensures IsWoloAddress(Trim(s))
  {
    hide Trim;
    TrimShape(s);
  }

  /** The values a memo declares are acceptable expectations of themselves. */
  lemma DeclaredAmounts(f: Fields, memo: string, amount: string)
    requires ParseMemo(memo, amount) == Some(f)
    ensures PositiveAmount(Trim(amount)).Some? && BlankOrPositive(FormatUint(f.wager)) &&
            BlankOrPositive(FormatUint(f.guarantee)) &&
            BlankOrPositive(Trim(amount)) && ValidFields(f)
  {
    hide ParseQuery, FormatUint, ParseUint, Trim, ValidFields;
    ParsedBucketsAddUp(memo, amount);
    ValidAmounts(f);
    ParseFormat(f.wager);
    ParseFormat(f.guarantee);
    TrimShape(amount);
  }

  lemma RunIdTrimmed(f: Fields)
    requires ValidFields(f)
    ensures Trim(f.runId) == f.runId && (f.runId == "" || ValidRunId(f.runId))
  {
    if f.runId != "" {
      assert IdChar(f.runId[0]) && IdChar(f.runId[|f.runId| - 1]);
    }
  }

  lemma CompletedValid(e: Expectation, d: Deposit, t: Transfer, f: Fields, memo: string)
    requires ValidExpectation(e) && HonestTransfer(t) && ParseMemo(memo, t.amount) == Some(f)
    requires d.sender == t.sender && d.total == Trim(t.amount) && d.runId == f.runId &&
             d.wager == FormatUint(f.wager) && d.guarantee == FormatUint(f.guarantee)
    ensures ValidExpectation(Completed(e, d))
  {
    hide Trim, ValidRunId, ValidSourceApp, ValidEventId, SidePattern, IsWoloAddress, ParseUint, FormatUint, ParseMemo,
         ValidFields, PositiveAmount, Canonical;
    FirstTrimmed(e.sender, d.sender);
    FirstTrimmed(e.runId, d.runId);
    FirstTrimmed(e.total, d.total);
    FirstTrimmed(e.wager, d.wager);
    FirstTrimmed(e.guarantee, d.guarantee);
    DeclaredAmounts(f, memo, t.amount);
    RunIdTrimmed(f);
    if Trim(e.sender) != "" {
      WoloTrim(e.sender);
    }
  }

  lemma AgreesCompleted(a: string, b: string)
    requires Agrees(a, b)
    ensures Agrees(FirstNonEmpty(a, b), b)
  {
    hide Trim;
    FirstTrimmed(a, b);
  }

  lemma CompletedMet(e: Expectation, d: Deposit)
    requires MeetsExpectation(d, e)
    ensures MeetsExpectation(d, Completed(e, d))
  {
    hide Agrees, FirstNonEmpty;
    AgreesCompleted(e.sender, d.sender);
    AgreesCompleted(e.runId, d.runId);
    AgreesCompleted(e.total, d.total);
    AgreesCompleted(e.wager, d.wager);
    AgreesCompleted(e.guarantee, d.guarantee);
  }

  /**
   * On an honest chain a verified deposit verifies again, with the same result, under its own completed expectation.
   */
  lemma VerifiesAgain(cfg: Config, chain: Ledger, hash: string, e: Expectation)
    requires HonestChain(chain) && VerifyDeposit(cfg, chain, None, hash, e).ok
    ensures var d := VerifyDeposit(cfg, chain, None, hash, e);
            VerifyDeposit(cfg, chain, None, hash, Completed(e, d)) == d
  {
    hide ValidExpectation, MeetsExpectation, ParseMemo, KindOf, Trim, Upper, TxHash, FormatUint, MatchTransfer,
         HonestTransfer, Completed;
    var d := VerifyDeposit(cfg, chain, None, hash, e);
    var h := Upper(Trim(hash));
    var ts, memo := chain[h].transfers, chain[h].memo;
    var t := MatchTransfer(ts, Expect(Trim(e.sender), cfg.escrowAddress, Trim(e.total))).value;
    var f := ParseMemo(memo, t.amount).value;
    MatchedIn(ts, Expect(Trim(e.sender), cfg.escrowAddress, Trim(e.total)));
    assert HonestTx(chain[h]) && HonestTransfer(t);
    SameMatch(ts, cfg.escrowAddress, e, d, t);
    CompletedValid(e, d, t, f, memo);
    CompletedMet(e, d);
  }

  lemma MatchedIn(ts: seq<Transfer>, e: Expect)
    requires MatchTransfer(ts, e).Some?
    ensures MatchTransfer(ts, e).value in ts && Matches(MatchTransfer(ts, e).value, e)
  {
    hide Matches, Trim;
  }
}

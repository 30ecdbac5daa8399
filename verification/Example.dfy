/**
 * One small challenge in many variants, from its deposit to its audit: what the theorems assume can be met, and what
 * the service accepts that one would not expect is shown at reachable states.
 */
module Example {
  import opened Text
  import opened Amounts
  import opened Ids
  import opened Records
  import opened Signers
  import opened Chain
  import opened Transfers
  import opened Runs
  import opened RunLaws
  import opened Memo
  import opened Funding
  import opened Challenges
  import opened ChallengeLaws
  import opened ChallengeRuns
  import opened ChallengeSound
  import opened TopUps
  import opened Machine
  import opened Once
  import opened Invariants
  import opened Safety
  import opened Rail
  import opened Progress
  import opened Reuse
  import opened Payments
  import opened Audit
  import opened AuditComplete

  const CFG := Config("payout", "", "", "wolo1e", "", false, 0, 0, 0, 0, None)
  const VIEW := View(None, Resolved("wolo1p"), Some(10), Unresolved, None)

  /**
   * What varies: ids, how the wager is written, the buckets, the first line's reason and recipient, the treasury, the
   * deposit's success and denomination.
   */
  datatype Variant = Variant(
    runId: string, first: string, second: string, amount: string, wager: U64, guarantee: U64,
    reason: string, to: string, treasury: string, success: bool, denom: string)

  const BASE := Variant("run-1", "pay-1", "pay-2", "3", 3, 4, "payout", "wolo1r", "", true, DENOM)

  predicate GoodId(s: string) {
    RequestIdPattern(s) && Trim(s) == s
  }

  /**
   * A variant the service accepts: a deposit of seven, and a treasury line that names the treasury up to case, if
   * one is configured.
   */
  predicate Fits(x: Variant) {
    GoodId(x.runId) && |x.runId| <= 96 && GoodId(x.first) && GoodId(x.second) && x.first != x.second &&
    ParseUint(x.amount) == Some(x.wager) && Trim(x.amount) == x.amount && x.amount != "" && x.amount != "0" &&
    x.wager > 0 && x.guarantee > 0 && Add(x.wager, x.guarantee) == 7 &&
    ReasonPattern(x.reason) && Lower(x.reason) == x.reason && Trim(x.reason) == x.reason &&
    IsWoloAddress(x.to) && Trim(x.to) == x.to && x.to != "" &&
    Trim(x.treasury) == x.treasury && (x.treasury == "" || IsWoloAddress(x.treasury)) &&
    (x.reason == "treasury" && x.treasury != "" ==> EqualFold(x.to, x.treasury))
  }

  function FieldsOf(x: Variant): Fields {
    Fields("app", "", "duel", "", "left", "", x.wager, x.guarantee)
  }

  /** Seven of some denomination to escrow, and one uwolo beside it if that is another one. */
  function DepositTx(x: Variant): Tx {
    Tx(x.success, PrintMemo(COMPACT, FieldsOf(x), "7"),
       [Transfer("wolo1s", "wolo1e", "7", x.denom)] + (if x.denom == DENOM then [] else [ONE]))
  }

  const ONE := Transfer("wolo1s", "wolo1e", "1", DENOM)

  /** A chain that holds the deposit. */
  predicate Holds(c: Ledger, x: Variant) {
    "AA" in c && c["AA"] == DepositTx(x)
  }

  const PROOF := FundingInput("AA", "", "", "left", "", "", "", "")

  function Lines(x: Variant): seq<TransferInput> {
    [TransferInput(x.first, "left", "", "wager", x.reason, x.to, x.amount, 0, ""),
     TransferInput(x.second, "left", "", "guarantee", "refund", "wolo1r", FormatUint(x.guarantee), 0, "")]
  }

  function Asked(x: Variant, lines: seq<TransferInput>): ChallengeRequest {
    ChallengeRequest(x.runId, "app", "duel", "", x.treasury, "", "", [PROOF], lines)
  }

  // ---------------------------------------------------------------- texts

  lemma Digits()
    ensures ParseUint("7") == Some(7) && ParseUint("3") == Some(3) && ParseUint("4") == Some(4)
    ensures FormatUint(3) == "3" && FormatUint(4) == "4" && FormatUint(7) == "7"
    ensures Trim("7") == "7" && Trim("3") == "3" && Trim("4") == "4" && Trim("") == ""
  {
    assert "7"[..0] == "" && "3"[..0] == "" && "4"[..0] == "";
  }

  lemma Trims()
    ensures Trim("wolo1e") == "wolo1e" && Trim("wolo1s") == "wolo1s" && Trim("wolo1r") == "wolo1r" &&
            Trim("wolo1p") == "wolo1p"
    ensures Trim("left") == "left" && Trim("AA") == "AA" && Upper("AA") == "AA" && TxHash("AA") &&
            Trim("app") == "app" && Trim("duel") == "duel"
  {
  }

  lemma Lowers()
    ensures Trim(Lower("wager")) == "wager" && Trim(Lower("guarantee")) == "guarantee" &&
            Trim(Lower("refund")) == "refund"
    ensures Lower("refund") != Lower("treasury") && Lower("treasury") == "treasury"
  {
    assert Lower("wager") == "wager" && Lower("guarantee") == "guarantee" && Lower("refund") == "refund";
  }

  lemma Patterns()
    ensures RequestIdPattern("app") && EventPattern("duel") && SidePattern("left") && ReasonPattern("refund")
    ensures IsWoloAddress("wolo1e") && IsWoloAddress("wolo1r") && IsWoloAddress("wolo1s") && IsWoloAddress("wolo1p")
  {
    Trims();
    assert Lower("wolo1e") == "wolo1e" && Lower("wolo1r") == "wolo1r" && Lower("wolo1s") == "wolo1s" &&
           Lower("wolo1p") == "wolo1p";
  }

  lemma SelfFold(s: string)
    ensures EqualFold(s, s)
  {
  }

  // ---------------------------------------------------------------- the deposit

  lemma MemoParses(x: Variant)
    requires Fits(x)
    ensures ParseMemo(DepositTx(x).memo, "7") == Some(FieldsOf(x))
  {
    hide ParseMemo, PrintMemo, RequestIdPattern, EventPattern, SidePattern, ParseUint, Trim, IsWoloAddress, Lower,
         ReasonPattern;
    Patterns();
    Digits();
    assert ValidFields(FieldsOf(x));
    SpellingsInUse();
    MemoRoundTrip(FieldsOf(x), "7", COMPACT);
  }

  const WANT := Expectation("", "app", "", "duel", "", "left", "", "", "", "")

  function Proof(x: Variant): Deposit {
    Deposit(true, "", "AA", "app", "", "duel", "", "left", "", "wolo1s", "wolo1e", "7", FormatUint(x.wager),
            FormatUint(x.guarantee))
  }

  lemma DepositVerifies(x: Variant, c: Ledger)
    requires Fits(x) && Holds(c, x)
    ensures VerifyDeposit(CFG, c, None, "AA", WANT) == Proof(x)
  {
    hide ParseMemo, PrintMemo, Trim, Upper, TxHash, RequestIdPattern, EventPattern, SidePattern, FormatUint,
         IsWoloAddress, EqualFold, PositiveAmount, Fits, KindOf;
    Trims();
    Digits();
    Patterns();
    MemoParses(x);
    SelfFold("wolo1e");
    SelfFold("app");
    SelfFold("duel");
    SelfFold("left");
    assert Matches(DepositTx(x).transfers[0], Expect("", "wolo1e", ""));
    IsDeposit(x);
  }

  lemma IsDeposit(x: Variant)
    ensures KindOf(CFG, DepositTx(x).transfers) == EscrowDeposit
  {
    hide PrintMemo, EqualFold;
    SelfFold("wolo1e");
    var ts := DepositTx(x).transfers;
    if x.denom != DENOM {
      assert ts[1..] == [ONE];
      assert KindOf(CFG, [ONE]) == EscrowDeposit;
    }
  }

  // ---------------------------------------------------------------- the transfers

  function First(x: Variant): NormTransfer {
    NormTransfer(0, x.first, "left", "", "wager", x.reason, x.to, x.amount, "")
  }

  function Second(x: Variant): NormTransfer {
    NormTransfer(1, x.second, "left", "", "guarantee", "refund", "wolo1r", FormatUint(x.guarantee), "")
  }

  lemma NotZero(n: U64)
    requires n > 0
    ensures FormatUint(n) != "0"
  {
    DigitsOfFormat(n);
    assert DigitsValue("0") == 0;
  }

  lemma Normalized(x: Variant)
    requires Fits(x)
    ensures NormalTransfer(Lines(x)[0], x.runId, 0, "", x.treasury) == First(x)
    ensures NormalTransfer(Lines(x)[1], x.runId, 1, "", x.treasury) == Second(x)
  {
    hide Trim, ParseUint, Lower, Upper, FormatUint, RequestIdPattern, IsWoloAddress, ReasonPattern;
    Trims();
    Digits();
    Lowers();
    NotZero(x.guarantee);
    ParseFormat(x.guarantee);
    FormattedText(x.guarantee);
    PatternTrimmed(x.first);
    PatternTrimmed(x.second);
    assert NormalizeAmount(x.amount, 0) == Some(x.amount) &&
           NormalizeAmount(FormatUint(x.guarantee), 0) == Some(FormatUint(x.guarantee));
  }

  lemma LeftIsFunded(x: Variant)
    ensures Resolve([Proof(x)], "left", "") == One(0)
  {
    hide Trim, EqualFold, FormatUint;
    Trims();
    Digits();
    SelfFold("left");
    assert Names(Proof(x), "left", "");
    assert [Proof(x)][..0] == [] && Named([], "left", "") == [];
    assert Named([Proof(x)], "left", "") == [0];
  }

  lemma NoFault(x: Variant, n: NormTransfer, seen: set<string>)
    requires Fits(x) && (n == First(x) || n == Second(x)) && n.id !in seen
    ensures TransferFault([Proof(x)], x.treasury, n, seen) == ""
    ensures (n == First(x) ==> AmountOf(n) == x.wager) && (n == Second(x) ==> AmountOf(n) == x.guarantee)
  {
    hide Resolve, RequestIdPattern, EventPattern, SidePattern, ReasonPattern, IsWoloAddress, ParseUint, FormatUint,
         Trim, Lower;
    Patterns();
    LeftIsFunded(x);
    Lowers();
    ParseFormat(x.guarantee);
    FormattedText(x.guarantee);
  }

  lemma FormattedText(n: nat)
    ensures FormatUint(n) != ""
  {
  }

  function Spending(x: Variant): Allocation {
    map[(Key(Proof(x)), "wager") := x.wager, (Key(Proof(x)), "guarantee") := x.guarantee]
  }

  /** What the loop holds after the first line. */
  lemma FirstPlanned(x: Variant)
    requires Fits(x)
    ensures var one := PlanTransfers([Proof(x)], x.runId, "", x.treasury, Lines(x)[..1]);
            one.transfers == [First(x)] && one.seen == {x.first} && NoInvalidMove(one.moves) &&
            one.allocation == map[(Key(Proof(x)), "wager") := x.wager]
  {
    hide NormalTransfer, TransferFault, Resolve, Key, AmountOf, PlanTransfers, Fits, FormatUint;
    PlanTransfersSnoc([Proof(x)], x.runId, "", x.treasury, Lines(x), 0);
    Normalized(x);
    LeftIsFunded(x);
    NoFault(x, First(x), {});
    WrapSmall(x.wager);
  }

  lemma TransfersPlanned(x: Variant)
    requires Fits(x)
    ensures var acc := PlanTransfers([Proof(x)], x.runId, "", x.treasury, Lines(x));
            acc.transfers == [First(x), Second(x)] && acc.allocation == Spending(x) && NoInvalidMove(acc.moves) &&
            acc.seen == {x.first, x.second}
  {
    hide NormalTransfer, TransferFault, Resolve, Key, AmountOf, PlanTransfers, GoodId, ParseUint, IsWoloAddress,
         EqualFold, ReasonPattern, FormatUint, Trim, Lower;
    var ts := Lines(x);
    PlanTransfersSnoc([Proof(x)], x.runId, "", x.treasury, ts, 1);
    assert ts[..2] == ts;
    FirstPlanned(x);
    Normalized(x);
    LeftIsFunded(x);
    NoFault(x, Second(x), {x.first});
    WrapSmall(x.guarantee);
  }

  lemma BucketsSpent(x: Variant)
    ensures BucketsExact([Proof(x)], Spending(x)) && DistinctParticipants([Proof(x)]) && AllOk([Proof(x)])
  {
    hide Key, Clash, ParseUint, FormatUint, Trim;
    ParseFormat(x.wager);
    ParseFormat(x.guarantee);
  }

  // ---------------------------------------------------------------- the run

  /** A payout run with readable lines, a plain source and a covering balance is admitted. */
  lemma CoveredRun(request: RunRequest)
    requires var (n, p) := Prepare(request);
             |n.payouts| > 0 && n.role == PAYOUT && n.sourceApp == "app" && p.requestedTotal <= 10 && !p.ok
    ensures var r := PlanRun(CFG, VIEW, request).1;
            r.ok && r.payoutBalanceBefore == Some(10) && r.requestedTotal == Prepare(request).1.requestedTotal &&
            r.estimatedFee == None
  {
    hide Prepare, HasReady, PayoutPlan, Finalize, NeedsEscrow, IsWoloAddress;
    var (n, p) := Prepare(request);
    ReadyRun(request);
    PlainSource(n);
    Patterns();
    var q := p.(estimatedFee := EstimatedFee(CFG, |n.payouts|));
    PayoutPlanOkExactly(CFG, VIEW, q);
    FinalizeKeeps(PayoutPlan(CFG, VIEW, q));
  }

  lemma PlainSource(n: NormRun)
    requires n.sourceApp == "app"
    ensures !NeedsEscrow(n)
  {
    hide Trim;
    Trims();
    assert |Lower("app")| == 3;
  }

  lemma NoTopUpNeeded(sid: string, run: RunResponse)
    requires run.payoutBalanceBefore == Some(10) && run.requestedTotal == 7 && run.estimatedFee == None
    ensures var t := PlanTopUp(CFG, VIEW, sid, run); t.Some? && !t.value.required
  {
    hide TopUpId, Trim;
    RequiredIsNeed(CFG, run);
  }

  // ---------------------------------------------------------------- the plan

  function Norm(x: Variant, ts: seq<NormTransfer>): NormChallenge {
    NormChallenge(x.runId, "app", "duel", "", x.treasury, "", "", [PROOF], ts)
  }

  lemma HeaderNormal(x: Variant, lines: seq<TransferInput>)
    requires Fits(x) && |lines| > 0
    ensures NormHeader(CFG, Asked(x, lines)) == Norm(x, []).(funding := []) &&
            ValidHeader(Asked(x, lines), x.treasury) && TrimAll([PROOF]) == [PROOF]
  {
    hide Trim, Upper, RequestIdPattern, EventPattern, IsWoloAddress, ReasonPattern, ParseUint, Lower;
    Trims();
    Digits();
    Patterns();
    assert TrimFunding(PROOF) == PROOF;
  }

  lemma DepositsVerify(x: Variant, c: Ledger)
    requires Fits(x) && Holds(c, x)
    ensures VerifyAll(CFG, c, None, Norm(x, [])) == [Proof(x)]
  {
    hide VerifyDeposit, Fits, Holds;
    DepositVerifies(x, c);
    assert ExpectationOf(Norm(x, []), PROOF) == WANT;
  }

  /** Lines that plan to these transfers and spend the deposit exactly. */
  ghost predicate Spends(x: Variant, lines: seq<TransferInput>, ts: seq<NormTransfer>) {
    var acc := PlanTransfers([Proof(x)], x.runId, "", x.treasury, lines);
    acc.transfers == ts && acc.allocation == Spending(x) && NoInvalidMove(acc.moves) && |lines| > 0 &&
    |ts| <= MAX_RUN_PAYOUTS &&
    Wrap(TransferTotal(ts)) == 7 && |RunPayouts(ts)| > 0
  }

  /** Such lines pass, so a run is planned for them. */
  lemma LinesPass(x: Variant, c: Ledger, lines: seq<TransferInput>,
                  ts: seq<NormTransfer>) returns (checked: ChallengeResponse)
    requires Fits(x) && Holds(c, x) && Spends(x, lines, ts)
    ensures var plan := PlanChallenge(CFG, c, VIEW, Asked(x, lines)); LinesAccepted(plan) && plan.norm == Norm(x, ts)
    ensures var plan := PlanChallenge(CFG, c, VIEW, Asked(x, lines)); var run := PlanRun(CFG, VIEW, plan.runRequest).1;
            plan.runRequest.sourceApp == "app" && !checked.ok && checked.status == Failed &&
            plan.response == FinalizeChallenge(JudgePlan(checked, run, PlanTopUp(CFG, VIEW, x.runId, run)))
  {
    hide FinalizeChallenge, VerifyAll, PlanTransfers, PlanRun, PlanTopUp, ValidHeader, DistinctParticipants, NormHeader,
         BucketsExact, NoInvalidMove, JudgePlan, LinesPlanned, FundingChecked, AllOk, Spending, TrimAll, Fits, Holds,
         Proof, Wrap, TransferTotal, RunPayouts;
    HeaderNormal(x, lines);
    DepositsVerify(x, c);
    BucketsSpent(x);
    var acc := PlanTransfers([Proof(x)], x.runId, "", x.treasury, lines);
    var n := Norm(x, ts);
    var run := PlanRun(CFG, VIEW, RunRequestOf(n, acc.payouts)).1;
    var topUp := PlanTopUp(CFG, VIEW, x.runId, run);
    checked := LinesPlanned(n, [Proof(x)], acc);
    PlannedFails(n, [Proof(x)], acc);
    JudgeKeeps(checked, run, topUp);
    FinalizeChallengeKeeps(JudgePlan(checked, run, topUp));
  }

  /** A deposit of seven, spent exactly by lines whose wrapped total is seven, is accepted without a top-up. */
  lemma ExampleIsAccepted(x: Variant, c: Ledger, lines: seq<TransferInput>, ts: seq<NormTransfer>)
    requires Fits(x) && Holds(c, x) && Spends(x, lines, ts)
    ensures var plan := PlanChallenge(CFG, c, VIEW, Asked(x, lines));
            plan.response.ok && !ToppedUp(plan.response) && plan.response.requestedTotal == Some(7) &&
            plan.response.fundingTotal == Some(7) &&
            plan.norm == Norm(x, ts)
  {
    hide *;
    var request := Asked(x, lines);
    var checked := LinesPass(x, c, lines, ts);
    RunOfChallenge(CFG, c, VIEW, request);
    Conservation(CFG, c, VIEW, request);
    var plan := PlanChallenge(CFG, c, VIEW, request);
    var run := PlanRun(CFG, VIEW, plan.runRequest).1;
    SpendsParts(x, lines, ts);
    ExampleRun(plan.norm, ts, plan.runRequest);
    NoTopUpNeeded(x.runId, run);
    ExampleJudged(checked, run, PlanTopUp(CFG, VIEW, x.runId, run));
  }

  lemma SpendsParts(x: Variant, lines: seq<TransferInput>, ts: seq<NormTransfer>)
    requires Spends(x, lines, ts)
    ensures |ts| <= MAX_RUN_PAYOUTS && Wrap(TransferTotal(ts)) == 7 && |RunPayouts(ts)| > 0 &&
            Norm(x, ts).transfers == ts
  {
    hide PlanTransfers, Spending, NoInvalidMove, Wrap, TransferTotal, RunPayouts;
  }

  lemma ExampleRun(n: NormChallenge, ts: seq<NormTransfer>, request: RunRequest)
    requires n.transfers == ts && RunMatches(n, request) && request.sourceApp == "app" && |ts| <= MAX_RUN_PAYOUTS
    requires Wrap(TransferTotal(ts)) == 7 && |RunPayouts(ts)| > 0
    ensures var r := PlanRun(CFG, VIEW, request).1;
            r.ok && r.payoutBalanceBefore == Some(10) && r.requestedTotal == 7 && r.estimatedFee == None
  {
    hide Prepare, PlanRun, TransferTotal, RunPayouts, ValidRunHeader, IdsDistinct, Wrap, Trim;
    PrepareFacts(request);
    SourceKept(request);
    CoveredRun(request);
  }

  lemma SourceKept(request: RunRequest)
    requires ValidRunHeader(request) && request.sourceApp == "app"
    ensures Prepare(request).0.sourceApp == "app"
  {
    hide ValidRunHeader, PrepareLines, Trim, RunRole;
    Trims();
  }

  lemma ExampleJudged(checked: ChallengeResponse, run: RunResponse, topUp: Option<TopUp>)
    requires !checked.ok && checked.status == Failed && run.ok && topUp.Some? && !topUp.value.required
    ensures var f := FinalizeChallenge(JudgePlan(checked, run, topUp)); f.ok && !ToppedUp(f)
  {
    hide FinalizeChallenge, FirstNonEmpty, HasSuffix;
    FinalizeChallengeKeeps(JudgePlan(checked, run, topUp));
  }

  // ---------------------------------------------------------------- its two lines

  lemma LineKept(x: Variant, t: NormTransfer)
    requires Fits(x) && (t == First(x) || t == Second(x))
    ensures ChallengeRuns.Kept(t) && LineAmount(t.amount) == (if t == First(x) then x.wager else x.guarantee)
    ensures Canonical(Second(x).amount) && (Canonical(First(x).amount) <==> x.amount == FormatUint(x.wager))
  {
    hide ParseUint, FormatUint, GoodId, IsWoloAddress, ReasonPattern, EqualFold, Trim;
    ParseFormat(x.guarantee);
    NotZero(x.guarantee);
  }

  lemma TwoPayouts(t: NormTransfer, u: NormTransfer)
    requires ChallengeRuns.Kept(t) && ChallengeRuns.Kept(u)
    ensures RunPayouts([t, u]) == [RunPayout(t), RunPayout(u)] &&
            TransferTotal([t, u]) == LineAmount(t.amount) + LineAmount(u.amount)
  {
    hide ChallengeRuns.Kept, RunPayout, LineAmount;
    var ts := [t, u];
    assert ts[..1] == [t] && [t][..0] == [] && RunPayouts([]) == [];
    assert RunPayouts([t]) == [RunPayout(t)] && TransferTotal([t]) == LineAmount(t.amount);
  }

  lemma TwoLinesSpend(x: Variant)
    requires Fits(x)
    ensures Spends(x, Lines(x), [First(x), Second(x)])
    ensures RunPayouts([First(x), Second(x)]) == [RunPayout(First(x)), RunPayout(Second(x))]
    ensures TransferTotal([First(x), Second(x)]) == x.wager + x.guarantee
  {
    hide PlanTransfers, NoInvalidMove, Spending, ChallengeRuns.Kept, RunPayout, LineAmount, RunPayouts, TransferTotal,
         GoodId, ParseUint, Trim, IsWoloAddress, ReasonPattern, EqualFold;
    TransfersPlanned(x);
    LineKept(x, First(x));
    LineKept(x, Second(x));
    FirstIsNotSecond(x);
    TwoPayouts(First(x), Second(x));
  }

  lemma FirstIsNotSecond(x: Variant)
    ensures First(x) != Second(x)
  {
    hide FormatUint;
    assert First(x).index != Second(x).index;
  }

  /**
   * A deposit of seven proves any two buckets that add up to seven modulo 2^64, and lines that spend them are accepted;
   * the exact total they ask for is seven exactly when it does not wrap.
   */
  lemma AnySplitIsAccepted(x: Variant, c: Ledger)
    requires Fits(x) && Holds(c, x)
    ensures var plan := PlanChallenge(CFG, c, VIEW, Asked(x, Lines(x)));
            plan.response.ok && plan.response.requestedTotal == Some(7) && plan.response.fundingTotal == Some(7) &&
            TransferTotal(plan.norm.transfers) == x.wager + x.guarantee &&
            (x.wager + x.guarantee == 7 <==> x.wager + x.guarantee < TWO64)
  {
    hide *;
    TwoLinesSpend(x);
    ExampleIsAccepted(x, c, Lines(x), [First(x), Second(x)]);
    NormTransfers(x);
    SplitOfSeven(x);
  }

  lemma NormTransfers(x: Variant)
    ensures Norm(x, [First(x), Second(x)]).transfers == [First(x), Second(x)]
  {
  }

  lemma SplitOfSeven(x: Variant)
    requires Fits(x)
    ensures x.wager + x.guarantee == 7 <==> x.wager + x.guarantee < TWO64
  {
    hide GoodId, ParseUint, Trim, IsWoloAddress, ReasonPattern, EqualFold, Lower;
    if x.wager + x.guarantee < TWO64 {
      WrapSmall(x.wager + x.guarantee);
    }
  }

  const HUGE := BASE.(amount := FormatUint(TWO63), wager := TWO63, guarantee := TWO63 + 7)

  lemma BaseIds()
    ensures GoodId("run-1") && GoodId("pay-1") && GoodId("pay-2") && GoodId("run-2") && GoodId("pay-3") &&
            GoodId("pay-4")
    ensures ReasonPattern("payout") && Lower("payout") == "payout" && Trim("payout") == "payout"
  {
  }

  lemma BaseFits()
    ensures Fits(BASE) && Fits(BASE.(success := false)) && Fits(BASE.(denom := "junk")) &&
            Fits(BASE.(runId := "run-2", first := "pay-3", second := "pay-4"))
  {
    hide GoodId, ParseUint, Trim, IsWoloAddress, ReasonPattern, EqualFold, Lower;
    BaseIds();
    Digits();
    Trims();
    Patterns();
    WrapSmall(7);
  }

  /**
   * A transfer of seven to escrow proves a wager of 2^63 and a guarantee of 2^63 + 7, and a challenge that pays them
   * out is accepted.
   */
  lemma WrappedBucketsAreAccepted(c: Ledger)
    requires Holds(c, HUGE)
    ensures var plan := PlanChallenge(CFG, c, VIEW, Asked(HUGE, Lines(HUGE)));
            plan.response.ok && plan.response.fundingTotal == Some(7) && TransferTotal(plan.norm.transfers) == TWO64 + 7
  {
    hide *;
    HugeFits();
    AnySplitIsAccepted(HUGE, c);
    HugeTotal();
  }

  lemma HugeTotal()
    ensures HUGE.wager + HUGE.guarantee == TWO64 + 7
  {
  }

  lemma HugeFits()
    ensures Fits(HUGE)
  {
    hide GoodId, ParseUint, Trim, IsWoloAddress, ReasonPattern, EqualFold, Lower, FormatUint;
    BaseIds();
    Digits();
    Trims();
    Patterns();
    ParseFormat(TWO63);
    NotZero(TWO63);
    FormattedText(TWO63);
    WrapSmall(7);
    WrapAdd(TWO64, 7);
  }

  // ---------------------------------------------------------------- executed and audited

  function IdleWorld(x: Variant): World {
    World(Store(map[], map[], map[], map["AA" := DepositTx(x)], map[]), Locks(map[], map[], map[]), map[], [])
  }

  lemma ViewIsGood()
    ensures GoodView(CFG, VIEW)
  {
    hide IsWoloAddress, Trim;
    Patterns();
    Trims();
  }

  lemma IdleStarts(x: Variant)
    ensures Reachable(CFG, IdleWorld(x)) && Holds(IdleWorld(x).store.chain, x)
  {
    hide PrintMemo, Path, Carries, IsWoloAddress, Trim, HonestTx;
    var w := IdleWorld(x);
    HonestDeposit(x);
    forall h | h in w.store.chain ensures HonestTx(w.store.chain[h]) {
      assert w.store.chain[h] == DepositTx(x);
    }
    assert Init(CFG, w);
    PathSame(CFG, w);
  }

  lemma HonestDeposit(x: Variant)
    ensures HonestTx(DepositTx(x))
  {
    hide PrintMemo, IsWoloAddress, Trim;
    Patterns();
    Trims();
    Digits();
    OneIsCanonical();
    assert HonestTransfer(DepositTx(x).transfers[0]) && HonestTransfer(ONE);
  }

  lemma OneIsCanonical()
    ensures Canonical("1")
  {
    assert FormatUint(1) == "1" && "1"[..0] == "";
  }

  lemma LineNormal(x: Variant, t: NormTransfer)
    requires Fits(x) && (t == First(x) || t == Second(x))
    ensures Normalize(ItemRequest(RunPayout(t)), PAYOUT).Some? && ParseUint(t.amount).Some?
  {
    hide Trim, RequestIdPattern, IsWoloAddress, ParseUint, FormatUint, ReasonPattern, EqualFold, Lower;
    Trims();
    Patterns();
    Digits();
    ParseFormat(x.guarantee);
    NotZero(x.guarantee);
    FormattedText(x.guarantee);
  }

  lemma LineClears(x: Variant, t: NormTransfer)
    requires Fits(x) && x.wager == 3 && (t == First(x) || t == Second(x))
    ensures PreflightFor(CFG, PAYOUT, VIEW, t.amount).Cleared?
  {
    hide PreflightFor, Trim, ParseUint, IsWoloAddress, FormatUint, RequestIdPattern, ReasonPattern, EqualFold, Lower;
    Patterns();
    SmallSplit(x);
    ParseFormat(x.guarantee);
    PreflightClearsExactly(CFG, PAYOUT, VIEW, t.amount);
  }

  lemma SmallSplit(x: Variant)
    requires Fits(x) && x.wager == 3
    ensures x.guarantee == 4
  {
    hide GoodId, ParseUint, Trim, IsWoloAddress, ReasonPattern, EqualFold, Lower;
    assert Add(3, x.guarantee) == 7;
  }

  /** A rail on which the variant's ids are free and its deposit is on the chain. */
  ghost predicate FreeFor(w: World, x: Variant) {
    Holds(w.store.chain, x) && Idle(w, x.runId) && Untouched(w, x.first) && Untouched(w, x.second)
  }

  lemma LinePayable(w: World, x: Variant, t: NormTransfer)
    requires Fits(x) && x.wager == 3 && FreeFor(w, x) && (t == First(x) || t == Second(x))
    ensures PayableLine(CFG, w, PAYOUT, RunPayout(t), VIEW)
  {
    hide Normalize, PreflightFor, ParseUint, GoodView, Trim, Fits, Holds, FormatUint;
    ViewIsGood();
    LineNormal(x, t);
    LineClears(x, t);
  }

  lemma ExampleFundable(w: World, x: Variant)
    requires Fits(x) && x.wager == 3 && FreeFor(w, x)
    ensures Fundable(CFG, w, Asked(x, Lines(x)), VIEW, VIEW, [VIEW, VIEW])
    ensures var plan := PlanChallenge(CFG, w.store.chain, VIEW, Asked(x, Lines(x)));
            plan.norm == Norm(x, [First(x), Second(x)]) && SendIds(plan) == {x.first, x.second} &&
            !ToppedUp(plan.response)
  {
    hide PlanChallenge, Prepare, PayableLine, ChallengeRuns.Kept, RunPayouts, RunPayout, IdsDistinct, GoodView,
         ReadyPlan, ValidRunHeader, PayoutIdsDistinct, Trim, Fits, Holds, TopUpRequest, Spends, TransferTotal,
         TopUpPayable, Lines, Asked, SendIds;
    var request := Asked(x, Lines(x));
    TwoLinesSpend(x);
    ExampleIsAccepted(x, w.store.chain, Lines(x), [First(x), Second(x)]);
    AcceptedIsReady(CFG, w.store.chain, VIEW, request);
    var plan := PlanChallenge(CFG, w.store.chain, VIEW, request);
    ChallengeSteps.ReadyPayouts(plan);
    ViewIsGood();
    LineKept(x, First(x));
    LineKept(x, Second(x));
    LinePayable(w, x, First(x));
    LinePayable(w, x, Second(x));
    BothPayable(w, x, Prepare(plan.runRequest).0);
    TopUpNowhere(w.store.chain, request);
    NoTopUpId(x, plan);
  }

  lemma TopUpNowhere(c: Ledger, request: ChallengeRequest)
    requires PlanChallenge(CFG, c, VIEW, request).response.ok
    ensures var t := PlanChallenge(CFG, c, VIEW, request).response.topUp; t.Some? ==> t.value.to == ""
  {
    hide PlanChallenge, ReadyPlan, GoodNames, SameNames, FundingStands, AllocationStands, TopUpId, Trim;
    AcceptedIsSound(CFG, c, VIEW, request);
    Digits();
  }

  /** Without a payout address the configuration has no top-up to send. */
  lemma NoTopUpId(x: Variant, plan: ChallengePlan)
    requires Prepare(plan.runRequest).0.payouts == [RunPayout(First(x)), RunPayout(Second(x))]
    requires plan.response.topUp.Some? ==> plan.response.topUp.value.to == ""
    ensures SendIds(plan) == {x.first, x.second}
  {
    hide Prepare, Trim, NormalizeAmount, RequestIdPattern, FormatUint;
    var n := Prepare(plan.runRequest).0;
    assert n.payouts[0].id in PayoutIds(n) && n.payouts[1].id in PayoutIds(n);
    Digits();
    NotAnAddress();
  }

  lemma NotAnAddress()
    ensures !IsWoloAddress("")
  {
    assert Trim("") == "" && Lower("") == "";
  }

  lemma BothPayable(w: World, x: Variant, n: NormRun)
    requires n.payouts == [RunPayout(First(x)), RunPayout(Second(x))] && n.role == PAYOUT
    requires PayableLine(CFG, w, PAYOUT, RunPayout(First(x)), VIEW) &&
             PayableLine(CFG, w, PAYOUT, RunPayout(Second(x)), VIEW)
    ensures Payable(CFG, w, n, [VIEW, VIEW], 0)
  {
    hide PayableLine, RunPayout;
  }

  /** The audit of a stored challenge, as an auditor makes it on a chain that answers. */
  ghost predicate Audits(w: World, id: string) {
    id in w.store.challenges &&
    AuditHolds(Site(CFG, w.store.chain, None), w.store.requests, w.store.runs, w.store.challenges[id])
  }

  /** The challenge is stored as confirmed, with the variant's transfers. */
  ghost predicate Settled(w: World, x: Variant) {
    Reachable(CFG, w) && x.runId in w.store.challenges && w.store.challenges[x.runId].response.status == Confirmed &&
    w.store.challenges[x.runId].request == Norm(x, [First(x), Second(x)])
  }

  /** Written canonically, and with any treasury line routed to the treasury address to the letter. */
  predicate Tidy(x: Variant) {
    x.amount == "3" && (x.reason == "treasury" ==> x.to == x.treasury)
  }

  /**
   * From every reachable rail that is free for it, each variant of the example can be executed to confirmed; its audit
   * then passes if and only if the variant is tidy, and so it does in every state that follows.
   */
  lemma ExampleConfirms(w: World, x: Variant) returns (w': World)
    requires Reachable(CFG, w) && Fits(x) && x.wager == 3 && FreeFor(w, x)
    ensures Path(CFG, w, w') && Settled(w', x) && Within(w, w', x.runId, {x.first, x.second})
    ensures forall later :: Path(CFG, w', later) ==> Settled(later, x) && (Audits(later, x.runId) <==> Tidy(x))
  {
    hide *;
    ExampleFundable(w, x);
    w' := AcceptedChallengeCanConfirm(CFG, w, Asked(x, Lines(x)), VIEW, VIEW, [VIEW, VIEW]);
    var plan := PlanChallenge(CFG, w.store.chain, VIEW, Asked(x, Lines(x)));
    StoredIn(w', plan.norm);
    StoredIsSettled(w', x, plan.norm);
    forall later | Path(CFG, w', later) ensures Settled(later, x) && (Audits(later, x.runId) <==> Tidy(x)) {
      LaterVerdict(w', later, x);
    }
  }

  lemma StoredIn(w: World, n: NormChallenge)
    requires Stored(w, n)
    ensures n.runId in w.store.challenges
  {
  }

  lemma StoredIsSettled(w: World, x: Variant, n: NormChallenge)
    requires Reachable(CFG, w) && Stored(w, n) && n == Norm(x, [First(x), Second(x)])
    requires n.runId in w.store.challenges && !ToppedUp(w.store.challenges[n.runId].response)
    ensures Settled(w, x) && x.runId in w.store.challenges && !ToppedUp(w.store.challenges[x.runId].response) &&
            n.runId == x.runId
  {
    hide Reachable;
  }

  lemma LaterVerdict(w: World, later: World, x: Variant)
    requires Settled(w, x) && !ToppedUp(w.store.challenges[x.runId].response) && Path(CFG, w, later) && Fits(x) &&
             x.wager == 3
    ensures Settled(later, x) && (Audits(later, x.runId) <==> Tidy(x))
  {
    hide AuditHolds, Fits, Tidy, Reachable, Path, AmountsCanonical, TreasuryExact, First, Second;
    LaterRecord(w, later, x.runId);
    VerdictNow(later, x.runId);
    TidyExactly(x);
  }

  /** A confirmed record is still there in every later world. */
  lemma LaterRecord(w: World, later: World, id: string)
    requires Reachable(CFG, w) && Path(CFG, w, later) && id in w.store.challenges &&
             w.store.challenges[id].response.status == Confirmed
    ensures Reachable(CFG, later) && id in later.store.challenges &&
            later.store.challenges[id] == w.store.challenges[id]
  {
    hide Path, Reachable, RailOk, OnceInv, FinalChallenge, Explained, HashesOk, RequestsKept, RunsKept;
    PathSafe(CFG, w, later);
    RecordExplained(w, id);
    ConfirmedIsFinalChallenge(CFG, w.store, w.store.challenges[id]);
  }

  lemma RecordExplained(w: World, id: string)
    requires RailOk(CFG, w) && id in w.store.challenges && w.store.challenges[id].response.status == Confirmed
    ensures Explained(CFG, w.store, w.store.challenges[id].request, w.store.challenges[id].response)
  {
    hide Explained, HashesOk, ChainOk, RequestsOk, RunsOk, ProcessesOk, LogOk;
    assert ChallengeRecordOk(CFG, w.store, id, w.store.challenges[id]);
  }

  lemma VerdictNow(w: World, id: string)
    requires Reachable(CFG, w) && id in w.store.challenges && w.store.challenges[id].response.status == Confirmed
    ensures var s, rec := w.store, w.store.challenges[id];
            AuditHolds(Site(CFG, s.chain, None), s.requests, s.runs, rec) <==>
            AmountsCanonical(rec.request.transfers) && TreasuryExact(rec.request) && TopUpLanded(s.chain, rec.response)
  {
    hide AuditHolds, AmountsCanonical, TreasuryExact, TopUpLanded, Init, Next;
    var w0 :| Init(CFG, w0) && Path(CFG, w0, w);
    var ws, steps :| Execution(CFG, ws, steps) && ws[0] == w0 && ws[|steps|] == w;
    AuditCompleteness(CFG, ws, steps, |steps|, id);
  }

  lemma TidyExactly(x: Variant)
    requires Fits(x) && x.wager == 3
    ensures var n := Norm(x, [First(x), Second(x)]); AmountsCanonical(n.transfers) && TreasuryExact(n) <==> Tidy(x)
  {
    hide Canonical, Trim, ParseUint, IsWoloAddress, ReasonPattern, GoodId, FormatUint, Lower;
    LineKept(x, First(x));
    Digits();
    Lowers();
    var ts := [First(x), Second(x)];
    assert ts[0] == First(x) && ts[1] == Second(x);
    assert AmountsCanonical(ts) <==> x.amount == "3" by {
      if AmountsCanonical(ts) { assert Canonical(ts[0].amount); }
    }
    var n := Norm(x, ts);
    assert TreasuryExact(n) <==> (x.reason == "treasury" ==> x.to == x.treasury) by {
      assert n.transfers == ts;
      if TreasuryExact(n) { assert EqualFold(ts[0].reason, "treasury") ==> ts[0].to == x.treasury; }
    }
  }

  // ---------------------------------------------------------------- what goes wrong, and what goes through

  lemma FromIdle(x: Variant) returns (w: World)
    requires Fits(x) && x.wager == 3
    ensures Settled(w, x) && Path(CFG, IdleWorld(x), w) && Within(IdleWorld(x), w, x.runId, {x.first, x.second})
    ensures forall later :: Path(CFG, w, later) ==> Settled(later, x) && (Audits(later, x.runId) <==> Tidy(x))
  {
    hide Settled, Path, Within, Audits, Tidy, Fits, Reachable;
    IdleStarts(x);
    w := ExampleConfirms(IdleWorld(x), x);
  }

  const LEADING_ZERO := BASE.(amount := "03")

  lemma LeadingZeroFits()
    ensures Fits(LEADING_ZERO) && !Tidy(LEADING_ZERO)
  {
    hide GoodId, Trim, IsWoloAddress, ReasonPattern, EqualFold, Lower;
    BaseIds();
    Digits();
    Trims();
    Patterns();
    WrapSmall(7);
    assert "03"[..1] == "0" && "0"[..0] == "";
    assert DigitsValue("0") == 0 && DigitsValue("03") == 3;
    DigitsTrimmed("03");
  }

  /** A challenge whose line reads 03 is confirmed, with no treasury line at all, and never audits. */
  lemma LeadingZeroNeverAudits() returns (w: World)
    ensures Settled(w, LEADING_ZERO) && TreasuryExact(w.store.challenges["run-1"].request)
    ensures forall later :: Path(CFG, w, later) ==> Settled(later, LEADING_ZERO) && !Audits(later, "run-1")
  {
    hide Reachable, Path, Audits, Tidy, Within, Fits;
    LeadingZeroFits();
    w := FromIdle(LEADING_ZERO);
    NoTreasuryLine();
  }

  lemma NoTreasuryLine()
    ensures TreasuryExact(Norm(LEADING_ZERO, [First(LEADING_ZERO), Second(LEADING_ZERO)]))
  {
    Lowers();
    assert Lower("payout") == "payout";
  }

  const OTHER_CASE := BASE.(reason := "treasury", to := "WOLO1T", treasury := "wolo1t")
  const NO_TREASURY := BASE.(reason := "treasury", to := "wolo1t")

  lemma TreasuryTexts()
    ensures Lower("treasury") == "treasury" && ReasonPattern("treasury") && Trim("treasury") == "treasury"
    ensures Lower("WOLO1T") == "wolo1t" && Lower("wolo1t") == "wolo1t" && Trim("WOLO1T") == "WOLO1T" &&
            Trim("wolo1t") == "wolo1t"
  {
  }

  lemma TreasuriesFit()
    ensures Fits(OTHER_CASE) && Fits(NO_TREASURY) && !Tidy(OTHER_CASE) && !Tidy(NO_TREASURY)
  {
    hide GoodId, ParseUint, Lower, Trim, ReasonPattern;
    BaseIds();
    Digits();
    Trims();
    WrapSmall(7);
    TreasuryTexts();
  }

  /**
   * A treasury line that differs from the treasury address in case, or that has no treasury to go to, is paid
   * and never audits.
   */
  lemma LooseTreasuryNeverAudits() returns (w: World, u: World)
    ensures Settled(w, OTHER_CASE) &&
            forall later :: Path(CFG, w, later) ==> Settled(later, OTHER_CASE) && !Audits(later, "run-1")
    ensures Settled(u, NO_TREASURY) &&
            forall later :: Path(CFG, u, later) ==> Settled(later, NO_TREASURY) && !Audits(later, "run-1")
  {
    hide Settled, Path, Audits, Tidy, Within, Fits;
    TreasuriesFit();
    w := FromIdle(OTHER_CASE);
    u := FromIdle(NO_TREASURY);
  }

  const FAILED := BASE.(success := false)

  /**
   * A deposit whose transaction failed is accepted as funding, its challenge is paid and confirmed, and the audit
   * passes for good.
   */
  lemma FailedDepositIsPaid() returns (w: World)
    ensures Settled(w, FAILED) && "AA" in w.store.chain && !w.store.chain["AA"].success
    ensures forall later :: Path(CFG, w, later) ==> Settled(later, FAILED) && Audits(later, "run-1")
  {
    hide Settled, Path, Audits, Within, Fits, IdleWorld;
    BaseFits();
    w := FromIdle(FAILED);
    assert Tidy(FAILED);
    DepositHeld(FAILED, w);
  }

  const JUNK := BASE.(denom := "junk")

  /**
   * A transaction that moves seven of another denomination to escrow, and one uwolo, is accepted as a deposit of seven,
   * its challenge is paid and confirmed, and the audit passes for good. Of its uwolo alone the deposit is refused.
   */
  lemma JunkDepositIsPaid() returns (w: World)
    ensures Settled(w, JUNK) && "AA" in w.store.chain && InUwolo(w.store.chain["AA"].transfers) == [ONE]
    ensures VerifyDeposit(CFG, w.store.chain, None, "AA", WANT) == Proof(JUNK)
    ensures var tx := w.store.chain["AA"];
            VerifyDeposit(CFG, w.store.chain["AA" := tx.(transfers := [ONE])], None, "AA", WANT) != Proof(JUNK)
    ensures forall later :: Path(CFG, w, later) ==> Settled(later, JUNK) && Audits(later, "run-1")
  {
    hide Settled, Path, Audits, Within, Fits, IdleWorld, VerifyDeposit, DepositTx;
    BaseFits();
    w := FromIdle(JUNK);
    assert Tidy(JUNK);
    DepositHeld(JUNK, w);
    DepositVerifies(JUNK, w.store.chain);
    JunkIsNotSeven(w.store.chain);
  }

  lemma JunkIsNotSeven(c: Ledger)
    requires Holds(c, JUNK) && VerifyDeposit(CFG, c, None, "AA", WANT) == Proof(JUNK)
    ensures InUwolo(c["AA"].transfers) == [ONE]
    ensures VerifyDeposit(CFG, c["AA" := c["AA"].(transfers := [ONE])], None, "AA", WANT) != Proof(JUNK)
  {
    hide VerifyDeposit, PrintMemo, EqualFold;
    var seven := Transfer("wolo1s", "wolo1e", "7", "junk");
    var ts := c["AA"].transfers;
    assert ts == [seven, ONE] && ts[1..] == [ONE] && [ONE][1..] == [];
    assert InUwolo([]) == [] && InUwolo([ONE]) == [ONE] && InUwolo(ts) == [ONE];
    DenomIsNotMatched(CFG, c, None, "AA", WANT);
    Trims();
    Digits();
    SelfFold("wolo1e");
    assert Wanted(CFG, WANT) == Expect("", "wolo1e", "");
    assert FirstMatch(ts, Wanted(CFG, WANT)) == Some(seven) && FirstMatch([ONE], Wanted(CFG, WANT)) == Some(ONE);
    OneTrimmed();
  }

  lemma OneTrimmed()
    ensures Trim("1") != "7"
  {
  }

  lemma DepositHeld(x: Variant, w: World)
    requires Fits(x) && x.wager == 3 && Path(CFG, IdleWorld(x), w)
    ensures Holds(w.store.chain, x)
  {
    hide Path, Fits, Inv, Reachable, RequestsKept, RunsKept, ChallengesKept;
    IdleStarts(x);
    PathSafe(CFG, IdleWorld(x), w);
    HeldDeposit(IdleWorld(x).store.chain, w.store.chain, x);
  }

  lemma HeldDeposit(c: Ledger, c': Ledger, x: Variant)
    requires Holds(c, x) && Grows(c, c')
    ensures Holds(c', x) && c'["AA"].success == x.success
  {
    hide PrintMemo;
  }

  const AGAIN := BASE.(runId := "run-2", first := "pay-3", second := "pay-4")

  /** The stored line k of a challenge. */
  function LineOf(w: World, sid: string, k: nat): Line
    requires sid in w.store.challenges && k < |w.store.challenges[sid].response.moves|
  {
    w.store.challenges[sid].response.moves[k].line
  }

  /** Three and four were sent to the recipient, each by its own successful transaction. */
  ghost predicate PaidSeven(w: World, sid: string) {
    sid in w.store.challenges && |w.store.challenges[sid].response.moves| == 2 &&
    LineOf(w, sid, 0).to == LineOf(w, sid, 1).to == "wolo1r" && LineOf(w, sid, 0).amount == "3" &&
    LineOf(w, sid, 1).amount == "4" && Carried(w.store.chain, LineOf(w, sid, 0)) &&
    Carried(w.store.chain, LineOf(w, sid, 1)) && LineOf(w, sid, 0).txHash != LineOf(w, sid, 1).txHash
  }

  /** No transaction of the one challenge is one of the other. */
  ghost predicate PaidApart(w: World, sid: string, sid': string)
    requires PaidSeven(w, sid) && PaidSeven(w, sid')
  {
    forall j, k :: 0 <= j < 2 && 0 <= k < 2 ==> LineOf(w, sid, j).txHash != LineOf(w, sid', k).txHash
  }

  lemma SettledIsPaid(w: World, x: Variant)
    requires Settled(w, x)
    ensures AllPaid(CFG, w.store, w.store.challenges[x.runId]) && RequestsOk(CFG, w.store)
  {
    hide Init, Next, AllPaid, RequestsOk;
    var w0 :| Init(CFG, w0) && Path(CFG, w0, w);
    var ws, steps :| Execution(CFG, ws, steps) && ws[0] == w0 && ws[|steps|] == w;
    StoredAllPaid(CFG, ws, steps, |steps|, x.runId);
  }

  lemma SevenPaid(w: World, x: Variant)
    requires Settled(w, x) && x.amount == "3" && x.to == "wolo1r" && x.guarantee == 4 && x.first != x.second
    ensures PaidSeven(w, x.runId) && RequestsOk(CFG, w.store)
    ensures PaidLine(CFG, w.store, First(x), LineOf(w, x.runId, 0)) &&
            PaidLine(CFG, w.store, Second(x), LineOf(w, x.runId, 1))
  {
    hide Reachable, RequestsOk, Carried, SignedBy, IdsDistinct;
    SettledIsPaid(w, x);
    Digits();
    var rec := w.store.challenges[x.runId];
    assert rec.request.transfers == [First(x), Second(x)];
    assert PaidLine(CFG, w.store, rec.request.transfers[0], rec.response.moves[0].line);
    assert PaidLine(CFG, w.store, rec.request.transfers[1], rec.response.moves[1].line);
    LinesMeet(CFG, w.store, First(x), LineOf(w, x.runId, 0), Second(x), LineOf(w, x.runId, 1));
  }

  lemma ApartPaid(w: World, x: Variant, y: Variant)
    requires PaidSeven(w, x.runId) && PaidSeven(w, y.runId) && RequestsOk(CFG, w.store)
    requires PaidLine(CFG, w.store, First(x), LineOf(w, x.runId, 0)) &&
             PaidLine(CFG, w.store, Second(x), LineOf(w, x.runId, 1))
    requires PaidLine(CFG, w.store, First(y), LineOf(w, y.runId, 0)) &&
             PaidLine(CFG, w.store, Second(y), LineOf(w, y.runId, 1))
    requires {x.first, x.second} !! {y.first, y.second}
    ensures PaidApart(w, x.runId, y.runId)
  {
    hide RequestsOk, PaidLine, Carried, FormatUint;
    forall j, k | 0 <= j < 2 && 0 <= k < 2 ensures LineOf(w, x.runId, j).txHash != LineOf(w, y.runId, k).txHash {
      LinesMeet(CFG, w.store, if j == 0 then First(x) else Second(x), LineOf(w, x.runId, j),
                if k == 0 then First(y) else Second(y), LineOf(w, y.runId, k));
    }
  }

  /**
   * One deposit of seven funds two challenges on the same terms under two settlement ids: both are confirmed, four
   * transactions, all different, have sent fourteen, and both audits pass for good.
   */
  lemma OneDepositPaysTwice() returns (w: World)
    ensures Settled(w, BASE) && Settled(w, AGAIN) && BASE.runId != AGAIN.runId
    ensures SameTerms(Asked(BASE, Lines(BASE)), Asked(AGAIN, Lines(AGAIN)))
    ensures w.store.challenges["run-1"].request.funding == [PROOF] &&
            w.store.challenges["run-2"].request.funding == [PROOF]
    ensures PaidSeven(w, "run-1") && PaidSeven(w, "run-2") && PaidApart(w, "run-1", "run-2")
    ensures forall later :: Path(CFG, w, later) ==> Audits(later, "run-1") && Audits(later, "run-2")
  {
    hide Path, Audits, Within, Fits, Inv, Reachable, FreeFor, PaidSeven, PaidApart, PaidLine, RequestsOk;
    w := PaidTwice();
    PathSame(CFG, w);
    SevenPaid(w, BASE);
    SevenPaid(w, AGAIN);
    ApartPaid(w, BASE, AGAIN);
  }

  lemma PaidTwice() returns (w: World)
    ensures Settled(w, BASE) && Settled(w, AGAIN)
    ensures forall later :: Path(CFG, w, later) ==> Audits(later, "run-1") && Audits(later, "run-2")
  {
    hide Path, Audits, Within, Fits, Inv, Reachable, FreeFor, RequestsKept, RunsKept, ChallengesKept, First, Second;
    BaseFits();
    assert Tidy(BASE) && Tidy(AGAIN);
    var one := FromIdle(BASE);
    DepositHeld(BASE, one);
    FreeAgain(one);
    w := ExampleConfirms(one, AGAIN);
    forall later | Path(CFG, w, later)
      ensures Settled(later, BASE) && Audits(later, "run-1") && Audits(later, "run-2")
    {
      PathJoin(CFG, one, w, later);
    }
    PathSame(CFG, w);
  }

  /** The same deposit does not fund a request that names another challenge. */
  lemma OtherDuelIsRefused(c: Ledger)
    requires Holds(c, BASE)
    ensures PlanChallenge(CFG, c, VIEW, Asked(BASE, Lines(BASE))).response.ok
    ensures !PlanChallenge(CFG, c, VIEW, Asked(BASE, Lines(BASE)).(challengeId := "other")).response.ok
  {
    hide *;
    var r, r' := Asked(BASE, Lines(BASE)), Asked(BASE, Lines(BASE)).(challengeId := "other");
    BaseFits();
    TwoLinesSpend(BASE);
    ExampleIsAccepted(BASE, c, Lines(BASE), [First(BASE), Second(BASE)]);
    OtherTerms(r, "other");
    GrowsSelf(c);
    PaidAgainExactly(CFG, c, c, VIEW, r, r');
    ProvenFunding(c);
    OtherIsNotDuel(r');
  }

  lemma OtherTerms(r: ChallengeRequest, id: string)
    ensures SameTerms(r, r.(challengeId := id))
  {
  }

  lemma ProvenFunding(c: Ledger)
    requires Holds(c, BASE) && PlanChallenge(CFG, c, VIEW, Asked(BASE, Lines(BASE))).response.ok && Fits(BASE)
    ensures PlanChallenge(CFG, c, VIEW, Asked(BASE, Lines(BASE))).response.funding == [Proof(BASE)]
  {
    hide PlanChallenge, ReadyPlan, VerifyAll, DistinctParticipants, BucketsExact, NoInvalidMove, ValidHeader, AllOk,
         Fits, Holds, PlanTransfers, NormHeader, TrimAll, Proof;
    AcceptedIsReady(CFG, c, VIEW, Asked(BASE, Lines(BASE)));
    AcceptedExactly(CFG, c, VIEW, Asked(BASE, Lines(BASE)));
    HeaderNormal(BASE, Lines(BASE));
    DepositsVerify(BASE, c);
  }

  lemma OtherIsNotDuel(r: ChallengeRequest)
    requires r.challengeId == "other"
    ensures !Reusable([Proof(BASE)], r)
  {
    hide Trim, ValidRunId, ValidNames, UsableIds, FormatUint;
    assert Trim("other") == "other" && Trim("duel") == "duel" by { Words(); }
    assert |Lower("other")| == 5 && |Lower("duel")| == 4;
    assert !Agrees(r.challengeId, Proof(BASE).challengeId);
    assert !NamedBy([Proof(BASE)][0], r);
  }

  lemma Words()
    ensures Trim("other") == "other" && Trim("duel") == "duel"
  {
  }

  lemma FreeAgain(w: World)
    requires Within(IdleWorld(BASE), w, "run-1", {"pay-1", "pay-2"}) && Holds(w.store.chain, BASE)
    ensures FreeFor(w, AGAIN)
  {
    hide PrintMemo;
    assert DepositTx(AGAIN) == DepositTx(BASE);
  }

  // ---------------------------------------------------------------- a line whose amount overflows

  /** Two to the fifty-eighth whole tokens: in 64-bit arithmetic that is no uwolo at all. */
  const OVERFLOW := TransferInput("pay-3", "left", "", "wager", "payout", "wolo1r", "", 0x400_0000_0000_0000, "")
  const NOTHING := NormTransfer(2, "pay-3", "left", "", "wager", "payout", "wolo1r", "0", "")

  function ThreeLines(): seq<TransferInput> {
    Lines(BASE) + [OVERFLOW]
  }

  function ThreeTransfers(): seq<NormTransfer> {
    [First(BASE), Second(BASE), NOTHING]
  }

  lemma OverflowNormal()
    ensures NormalTransfer(OVERFLOW, "run-1", 2, "", "") == NOTHING && AmountOf(NOTHING) == 0 &&
            !ChallengeRuns.Kept(NOTHING)
  {
    hide Trim, Lower, GoodId;
    BaseIds();
    Trims();
    Digits();
    Lowers();
    PatternTrimmed("pay-3") by { IdPattern(); }
    assert FormatUint(0) == "0" && DigitsValue("0") == 0;
    assert WrapSigned(0x400_0000_0000_0000 * 1_000_000) == 0;
  }

  lemma IdPattern()
    ensures RequestIdPattern("pay-3")
  {
  }

  lemma OverflowFaultless()
    ensures TransferFault([Proof(BASE)], "", NOTHING, {"pay-1", "pay-2"}) == ""
  {
    hide Resolve, RequestIdPattern, EventPattern, SidePattern, ReasonPattern, IsWoloAddress, Trim, FormatUint, GoodId;
    IdPattern();
    BaseIds();
    Patterns();
    LeftIsFunded(BASE);
  }

  lemma ThreeLinesSpend()
    ensures Spends(BASE, ThreeLines(), ThreeTransfers()) && |RunPayouts(ThreeTransfers())| == 2
  {
    hide NormalTransfer, TransferFault, Resolve, Key, AmountOf, PlanTransfers, FormatUint, Fits, ChallengeRuns.Kept,
         RunPayout, LineAmount, RunPayouts, TransferTotal, GoodId;
    BaseFits();
    var ds, lines := [Proof(BASE)], ThreeLines();
    assert lines[..2] == Lines(BASE) && lines[..3] == lines;
    TransfersPlanned(BASE);
    PlanTransfersSnoc(ds, "run-1", "", "", lines, 2);
    OverflowNormal();
    OverflowFaultless();
    LeftIsFunded(BASE);
    WrapSmall(3);
    var two := PlanTransfers(ds, "run-1", "", "", Lines(BASE));
    var acc := PlanTransfers(ds, "run-1", "", "", lines);
    assert acc.transfers == ThreeTransfers();
    assert acc.allocation == Spending(BASE);
    assert acc.moves == two.moves + [PlannedMove(ds, NOTHING, "")];
    ThreeTotals();
  }

  lemma ThreeTotals()
    ensures |RunPayouts(ThreeTransfers())| == 2 && Wrap(TransferTotal(ThreeTransfers())) == 7
  {
    hide ChallengeRuns.Kept, RunPayout, LineAmount, FormatUint, Spends, Fits;
    BaseFits();
    TwoLinesSpend(BASE);
    OverflowNormal();
    var ts := ThreeTransfers();
    assert ts[..2] == [First(BASE), Second(BASE)];
    NothingCounts();
    WrapSmall(7);
  }

  lemma NothingCounts()
    ensures LineAmount("0") == 0
  {
    assert DigitsValue("0") == 0 && Trim("0") == "0";
  }

  /**
   * A challenge with a line of 2^58 whole tokens is accepted: the line counts as nothing, the run that is planned for
   * the challenge pays only the other two, and so the challenge can never be confirmed.
   */
  lemma OverflowLineIsAccepted(c: Ledger)
    requires Holds(c, BASE)
    ensures var plan := PlanChallenge(CFG, c, VIEW, Asked(BASE, ThreeLines()));
            plan.response.ok && |plan.norm.transfers| == 3 && |Prepare(plan.runRequest).0.payouts| == 2 &&
            !ChallengeRuns.Kept(plan.norm.transfers[2])
  {
    hide PlanChallenge, Prepare, Spends, Fits, Holds, ReadyPlan, RunPayouts, IdsDistinct, PayoutIdsDistinct,
         ValidRunHeader, Trim, ChallengeRuns.Kept, Lines;
    BaseFits();
    ThreeLinesSpend();
    ExampleIsAccepted(BASE, c, ThreeLines(), ThreeTransfers());
    AcceptedIsReady(CFG, c, VIEW, Asked(BASE, ThreeLines()));
    ChallengeSteps.ReadyPayouts(PlanChallenge(CFG, c, VIEW, Asked(BASE, ThreeLines())));
    OverflowNormal();
  }

  // ---------------------------------------------------------------- a run that ends without a status

  /** Two payouts, the second to something that is no address. */
  const HALF_BAD := RunRequest("run-1", "app", "", "", "", "",
                               [RawRequest("pay-1", "wolo1r", "3", 0, ""), RawRequest("pay-2", "nowhere", "4", 0, "")])

  lemma HalfBadLines()
    ensures var raws := HALF_BAD.payouts;
            Normalize(ItemRaw("run-1", "", 0, raws[0]), PAYOUT) == Some(Request("pay-1", "wolo1r", "3", "", PAYOUT)) &&
            Normalize(ItemRaw("run-1", "", 1, raws[1]), PAYOUT) == None && LineAmount("3") == 3
  {
    hide RequestIdPattern, IsWoloAddress, ParseUint, Trim, GoodId;
    Trims();
    Digits();
    Patterns();
    GoodIds();
    NowhereIsNoAddress();
  }

  lemma GoodIds()
    ensures RequestIdPattern("pay-1") && Trim("pay-1") == "pay-1" && Trim("pay-2") == "pay-2" &&
            RequestIdPattern("run-1") && Trim("run-1") == "run-1"
  {
  }

  lemma NowhereIsNoAddress()
    ensures !IsWoloAddress("nowhere") && Trim("nowhere") == "nowhere"
  {
    assert Trim("nowhere") == "nowhere" && Lower("nowhere")[0] == 'n';
  }

  lemma HalfBadPrepared()
    ensures var (n, p) := Prepare(HALF_BAD);
            ValidRunHeader(HALF_BAD) && n.payouts == [RunPayout(First(BASE))] && n.role == PAYOUT &&
            n.sourceApp == "app" && p.requestedTotal == 3 && !p.ok
  {
    hide Normalize, ItemRaw, RequestIdPattern, ParseUint, LineAmount, Trim, GoodId;
    HalfBadLines();
    GoodIds();
    Trims();
    Digits();
    Patterns();
    DefaultRole();
    WrapSmall(3);
    var raws := HALF_BAD.payouts;
    PrepareSnoc("run-1", "", PAYOUT, raws, 0);
    PrepareSnoc("run-1", "", PAYOUT, raws, 1);
    assert raws[..2] == raws && raws[..0] == [];
  }

  lemma ConfirmedLinesOnly(n: NormRun, plan: RunResponse, lines: seq<Line>)
    requires AllConfirmedFor(n, lines) && |lines| == |n.payouts| && 0 < |lines| < plan.requested
    ensures ExecutedRun(plan, lines).status == Blank && !ExecutedRun(plan, lines).ok
  {
    hide ExecutedRun, Answers, ExecutedLine, DeriveStatus, TallyLines;
    forall i | 0 <= i < |lines| ensures ExecutedLine(lines[i]) && lines[i].status == Confirmed {
      assert ConfirmedFor(n.payouts[i], lines[i]);
      AnswerIsExecuted(n.payouts[i], lines[i]);
    }
    RunStatusExactly(plan, lines);
    ExecutedRunForm(plan, lines);
    StatusOk(plan.requested, TallyLines(ZERO, lines));
  }

  lemma AnswerIsExecuted(p: Payout, l: Line)
    requires Answers(p, l)
    ensures ExecutedLine(l)
  {
    hide ExecutedLine;
  }

  /**
   * A run with an invalid line whose only valid line is paid and confirmed ends, reachably, with no status, not OK
   * and not final.
   */
  lemma BlankRunIsReachable() returns (w: World)
    ensures Reachable(CFG, w) && "run-1" in w.store.runs
    ensures var r := w.store.runs["run-1"].response;
            r.status == Blank && !r.ok && !FinalRun(r) && r.requested == 2 && |r.lines| == 1 &&
            r.lines[0].status == Confirmed
  {
    hide Path, PlanRun, Prepare, NewRun, GoodView, Reachable, Payable, PlanOk, ExecutedRun, AllConfirmedFor, Inv,
         Preserved, ValidRunHeader, PayableLine, RunPayout, First, DepositTx, OpenRun, LinesGood, RunRecordOk,
         RunAnswerOk, Fits, Trim;
    IdleStarts(BASE);
    ViewIsGood();
    BaseFits();
    HalfBadPrepared();
    CoveredRun(HALF_BAD);
    PlannedId(CFG, VIEW, HALF_BAD);
    GoodIds();
    var w0 := IdleWorld(BASE);
    StartedRun(CFG, HALF_BAD, VIEW);
    var f := RunFrame(PlanRun(CFG, VIEW, HALF_BAD).0, PlanRun(CFG, VIEW, HALF_BAD).1, [], RunLocking);
    RunStartsAlone(CFG, w0, 0, HALF_BAD, VIEW, f);
    var w1 := w0.(procs := w0.procs[0 := Process(None, Some(f), None)]);
    ChallengeSteps.NewRunInv(CFG, w1.store, w1.locks.runs, 0, HALF_BAD, VIEW, f);
    OnePayable(w1, f.norm);
    var g;
    w, g := RunConfirms(CFG, w1, 0, f, [VIEW]);
    PathJoin(CFG, w0, w1, w);
    PathSafe(CFG, w0, w);
    ConfirmedLinesOnly(f.norm, f.plan, g.lines);
    ExecutedRunForm(f.plan, g.lines);
    FirstConfirmed(f.norm, g.lines);
  }

  lemma FirstConfirmed(n: NormRun, lines: seq<Line>)
    requires AllConfirmedFor(n, lines) && |lines| > 0
    ensures lines[0].status == Confirmed
  {
    hide Answers;
    assert ConfirmedFor(n.payouts[0], lines[0]);
  }

  lemma OnePayable(w: World, n: NormRun)
    requires n.payouts == [RunPayout(First(BASE))] && n.role == PAYOUT && Fits(BASE)
    requires w.store == IdleWorld(BASE).store && w.locks == IdleWorld(BASE).locks
    ensures Payable(CFG, w, n, [VIEW], 0)
  {
    hide PayableLine, RunPayout, Fits, PrintMemo;
    assert FreeFor(w, BASE);
    LinePayable(w, BASE, First(BASE));
  }
}

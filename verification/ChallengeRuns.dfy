/**
 * How a challenge agrees with the run that pays it: the same lines, the same totals, and a top-up that admits the run.
 */
module ChallengeRuns {
  import opened Text
  import opened Amounts
  import opened Ids
  import opened Records
  import opened Chain
  import opened Signers
  import opened Transfers
  import opened Runs
  import opened RunLaws
  import opened Funding
  import opened Challenges
  import opened ChallengeLaws

  // ---------------------------------------------------------------- the lines of the run

  /** A transfer whose amount the run can read again; the others only become refused lines. */
  predicate Kept(t: NormTransfer) {
    ParseUint(t.amount).Some? && t.amount != "0"
  }

  function RunPayout(t: NormTransfer): Payout {
    Payout(t.index, t.id, t.to, t.amount, Trim(t.memo))
  }

  /** The payouts of the run that pays these transfers. */
  function RunPayouts(ts: seq<NormTransfer>): (ps: seq<Payout>)
    ensures |ps| <= |ts|
  {
    if |ts| == 0 then []
    else
      var t := ts[|ts| - 1];
      RunPayouts(ts[..|ts| - 1]) + (if Kept(t) then [RunPayout(t)] else [])
  }

  function Raws(ts: seq<NormTransfer>): (rs: seq<RawRequest>)
    ensures |rs| == |ts|
  {
    seq(|ts|, i requires 0 <= i < |ts| => PayoutOf(ts[i]))
  }

  /** A planned transfer, seen by a run whose default memo is given. */
  predicate Submittable(t: NormTransfer, i: nat, memo: string) {
    t.index == i && RequestIdPattern(t.id) && Trim(t.id) == t.id && t.id != "" && Trim(t.to) == t.to &&
    IsWoloAddress(t.to) &&
    Trim(t.amount) == t.amount && t.amount != "" && |t.memo| <= 180 && (Trim(t.memo) == "" ==> Trim(memo) == "")
  }

  lemma PreparedTransfer(runId: string, memo: string, role: string, i: nat, t: NormTransfer)
    requires Submittable(t, i, memo)
    ensures var item := ItemRaw(runId, memo, i, PayoutOf(t));
            item.id == t.id &&
            Normalize(item, role) == if Kept(t) then Some(Request(t.id, t.to, t.amount, Trim(t.memo), role)) else None
  {
    hide Trim, RequestIdPattern, IsWoloAddress, ParseUint;
    TrimShape(t.memo);
    assert Cut(Trim(t.memo), 180) == Trim(t.memo);
    if Trim(t.memo) == "" {
      assert Cut(Trim(memo), 180) == "";
    }
  }

  ghost predicate AllSubmittable(ts: seq<NormTransfer>, memo: string) {
    forall i :: 0 <= i < |ts| ==> Submittable(ts[i], i, memo)
  }

  ghost predicate IdsDistinct(ts: seq<NormTransfer>) {
    forall i, j :: 0 <= i < j < |ts| ==> ts[i].id != ts[j].id
  }

  ghost function IdsOf(ts: seq<NormTransfer>): set<string> {
    set i | 0 <= i < |ts| :: ts[i].id
  }

  /** Preparing the run keeps exactly the readable transfers, in order, and totals them. */
  lemma {:induction false} PrepareTransfers(runId: string, memo: string, role: string, ts: seq<NormTransfer>)
    requires AllSubmittable(ts, memo) && IdsDistinct(ts)
    ensures var p := PrepareLines(runId, memo, role, Raws(ts));
            p.payouts == RunPayouts(ts) && p.total == Wrap(TransferTotal(ts)) && p.seen <= IdsOf(ts)
  {
    hide Submittable, Wrap, Kept, PrepareLine, RunPayout, LineAmount;
    if |ts| == 0 {
      WrapSmall(0);
    } else {
      var init, t := ts[..|ts| - 1], ts[|ts| - 1];
      assert Raws(ts)[..|ts| - 1] == Raws(init);
      assert AllSubmittable(init, memo) && IdsDistinct(init);
      PrepareTransfers(runId, memo, role, init);
      var before := PrepareLines(runId, memo, role, Raws(init));
      assert IdsOf(ts) == IdsOf(init) + {t.id};
      assert t.id !in IdsOf(init);
      PrepareTransfer(runId, memo, role, before, t);
      WrapAdd(TransferTotal(init), LineAmount(t.amount));
    }
  }

  lemma PrepareTransfer(runId: string, memo: string, role: string, prep: Prep, t: NormTransfer)
    requires Submittable(t, |prep.lines|, memo) && t.id !in prep.seen
    ensures var p := PrepareLine(runId, memo, role, prep, PayoutOf(t));
            p.payouts == prep.payouts + (if Kept(t) then [RunPayout(t)] else []) &&
            p.total == Add(prep.total, LineAmount(t.amount)) && p.seen <= prep.seen + {t.id}
  {
    hide Submittable, Wrap, Normalize, ItemRaw;
    PreparedTransfer(runId, memo, role, |prep.lines|, t);
    UnreadIsNothing(t, |prep.lines|, memo);
    assert !Kept(t) ==> Add(prep.total, 0) == prep.total by { WrapSmall(prep.total); }
  }

  lemma UnreadIsNothing(t: NormTransfer, i: nat, memo: string)
    requires Submittable(t, i, memo)
    ensures !Kept(t) ==> LineAmount(t.amount) == 0
    ensures t.index == i
  {
    hide Trim, RequestIdPattern, IsWoloAddress;
    assert AllDigits("0") && DigitsValue("0") == 0;
  }

  /** The transfers of an accepted plan, as they were normalized. */
  lemma {:induction false} PlanTransfersNormal(ds: seq<Deposit>, sid: string, memo: string, treasury: string,
                                               ts: seq<TransferInput>, i: nat)
    requires i < |ts|
    ensures PlanTransfers(ds, sid, memo, treasury, ts).transfers[i] == NormalTransfer(ts[i], sid, i, memo, treasury)
  {
    hide NormalTransfer, Resolve, Key, PlannedMove, TransferFault;
    if i < |ts| - 1 {
      PlanTransfersNormal(ds, sid, memo, treasury, ts[..|ts| - 1], i);
    }
  }

  lemma MemoDefaults(t: TransferInput, sid: string, index: nat, memo: string, treasury: string)
    requires |memo| <= 180
    ensures Trim(NormalTransfer(t, sid, index, memo, treasury).memo) == "" ==> Trim(memo) == ""
  {
    hide Trim, Lower, NormalizeAmount;
    if Trim(t.memo) != "" {
      TrimShape(t.memo);
      CutTrimNonEmpty(Trim(t.memo), 180);
    }
  }

  /** A list of raw transfers is submittable once the challenge accepted its lines. */
  lemma AcceptedSubmittable(cfg: Config, chain: Ledger, n: NormChallenge, ds: seq<Deposit>, acc: Acc,
                            ts: seq<TransferInput>)
    requires GoodPlan(cfg, chain, n, ds, acc) && acc == PlanTransfers(ds, n.runId, n.memo, n.treasury, ts) &&
             |n.memo| <= 180
    ensures AllSubmittable(acc.transfers, Cut(Trim(n.memo), 180)) && IdsDistinct(acc.transfers) &&
            acc.payouts == Raws(acc.transfers)
  {
    hide PlanTransfers, NormalTransfer, Trim, AllProven, DistinctParticipants, KeysDistinct, BucketsExact, Resolve, Key,
         PlannedMove, Allocated, Spent, TransferTotal, RequestIdPattern, IsWoloAddress, SidePattern, ReasonPattern,
         ValidEventId;
    forall i | 0 <= i < |acc.transfers| ensures Submittable(acc.transfers[i], i, Cut(Trim(n.memo), 180)) {
      PlanTransfersNormal(ds, n.runId, n.memo, n.treasury, ts, i);
      MemoDefaults(ts[i], n.runId, i, n.memo, n.treasury);
      assert GoodTransfer(ds, i, acc.transfers[i]);
      TrimShape(n.memo);
      PatternTrimmed(acc.transfers[i].id);
    }
  }

  /**
   * The run a challenge hands over: one payout for every readable transfer, with the same id, recipient,
   * amount and memo.
   */
  ghost predicate RunMatches(n: NormChallenge, runRequest: RunRequest) {
    var ts := n.transfers; var (m, r) := Prepare(runRequest);
    IdsDistinct(ts) && (ValidRunHeader(runRequest) <==> |ts| <= MAX_RUN_PAYOUTS) &&
    (|ts| <= MAX_RUN_PAYOUTS ==>
       m.payouts == RunPayouts(ts) && r.requestedTotal == Wrap(TransferTotal(ts)) && r.requested == |ts| &&
       m.role == PAYOUT && m.runId == n.runId)
  }

  lemma RunOfChallenge(cfg: Config, chain: Ledger, v: View, request: ChallengeRequest)
    requires LinesAccepted(PlanChallenge(cfg, chain, v, request))
    ensures var plan := PlanChallenge(cfg, chain, v, request);
            |plan.norm.transfers| == |request.transfers| && RunMatches(plan.norm, plan.runRequest)
  {
    hide *;
    var ds, acc := AcceptedPlan(cfg, chain, v, request);
    HeaderFacts(cfg, request);
    RunMatchesCore(cfg, chain, PlanChallenge(cfg, chain, v, request).norm, NormHeader(cfg, request), ds, acc,
                   request.transfers);
  }

  lemma RunMatchesCore(cfg: Config, chain: Ledger, n: NormChallenge, h: NormChallenge, ds: seq<Deposit>, acc: Acc,
                       ts: seq<TransferInput>)
    requires GoodPlan(cfg, chain, n, ds, acc) && acc == PlanTransfers(ds, n.runId, n.memo, n.treasury, ts) &&
             |h.memo| <= 180
    requires GoodNames(h) && n == h.(funding := n.funding, transfers := n.transfers)
    ensures RunMatches(n, RunRequestOf(n, acc.payouts)) && n.transfers == acc.transfers
  {
    hide GoodAcc, AllProven, BucketsExact, KeysDistinct, DistinctParticipants, PlanTransfers, AllSubmittable,
         IdsDistinct, Trim, Wrap, TransferTotal, Prepare, ValidRunHeader, ValidRunId, ValidSourceApp, ValidEventId,
         RunRequestOf, PrepareLines, RunPayouts;
    var memo := Cut(Trim(n.memo), 180);
    AcceptedSubmittable(cfg, chain, n, ds, acc, ts);
    ChallengeRunHeader(n, acc.payouts);
    PrepareTransfers(n.runId, memo, PAYOUT, acc.transfers);
    if |acc.payouts| <= MAX_RUN_PAYOUTS {
      PreparedRun(n, acc.payouts);
    }
  }

  lemma ChallengeRunHeader(n: NormChallenge, payouts: seq<RawRequest>)
    requires GoodNames(n) && |payouts| > 0
    ensures ValidRunHeader(RunRequestOf(n, payouts)) <==> |payouts| <= MAX_RUN_PAYOUTS
  {
    hide ValidRunId, ValidSourceApp, ValidEventId, Trim;
    DefaultRole();
  }

  lemma DefaultRole()
    ensures RunRole("") == PAYOUT
  {
    assert Lower("") == "";
  }

  lemma PreparedRun(n: NormChallenge, payouts: seq<RawRequest>)
    requires ValidRunHeader(RunRequestOf(n, payouts)) && Trim(n.runId) == n.runId
    ensures var p := PrepareLines(n.runId, Cut(Trim(n.memo), 180), PAYOUT, payouts);
            var (m, r) := Prepare(RunRequestOf(n, payouts));
            m.payouts == p.payouts && r.requestedTotal == p.total && r.requested == |payouts| && m.role == PAYOUT &&
            m.runId == n.runId
  {
    hide ValidRunHeader, Trim, PrepareLines, RunRole;
    DefaultRole();
  }

  // ---------------------------------------------------------------- merging the results

  /** A line that answers a payout: a success reports the payout's own amount. */
  predicate Answers(p: Payout, l: Line) {
    l.id == p.id && ExecutedLine(l) && (l.ok ==> l.amount == p.amount)
  }

  /** The lines a finished run reports for its payouts. */
  ghost predicate Answered(payouts: seq<Payout>, lines: seq<Line>) {
    |lines| == |payouts| && forall j :: 0 <= j < |lines| ==> Answers(payouts[j], lines[j])
  }

  ghost predicate PayoutIdsDistinct(payouts: seq<Payout>) {
    forall i, j :: 0 <= i < j < |payouts| ==> payouts[i].id != payouts[j].id
  }

  lemma {:induction false} LastLineIs(lines: seq<Line>, j: nat)
    requires j < |lines| && forall i :: j < i < |lines| ==> lines[i].id != lines[j].id
    ensures LastLine(lines, lines[j].id) == Some(lines[j])
  {
    if j < |lines| - 1 {
      LastLineIs(lines[..|lines| - 1], j);
    }
  }

  lemma {:induction false} LastLineNone(lines: seq<Line>, id: string)
    requires forall j :: 0 <= j < |lines| ==> lines[j].id != id
    ensures LastLine(lines, id) == None
  {
    if |lines| > 0 {
      LastLineNone(lines[..|lines| - 1], id);
    }
  }

  /** Where a transfer's payout stands in the run. */
  lemma {:induction false} PayoutAt(ts: seq<NormTransfer>, i: nat)
    requires i < |ts|
    ensures var ps, k := RunPayouts(ts), |RunPayouts(ts[..i])|;
            k <= |ps| && |RunPayouts(ts[..i + 1])| == k + (if Kept(ts[i]) then 1 else 0) &&
            (Kept(ts[i]) ==> k < |ps| && ps[k] == RunPayout(ts[i]))
  {
    hide Kept, RunPayout;
    var init := ts[..|ts| - 1];
    assert ts[..i + 1][..i] == ts[..i];
    if i < |init| {
      PayoutAt(init, i);
      assert init[..i] == ts[..i] && init[..i + 1] == ts[..i + 1];
    } else {
      assert ts[..i] == init && ts[..i + 1] == ts;
    }
  }

  lemma {:induction false} PayoutFrom(ts: seq<NormTransfer>, k: nat) returns (m: nat)
    requires k < |RunPayouts(ts)|
    ensures m < |ts| && Kept(ts[m]) && RunPayouts(ts)[k] == RunPayout(ts[m])
  {
    hide Kept, RunPayout;
    if k < |RunPayouts(ts[..|ts| - 1])| {
      m := PayoutFrom(ts[..|ts| - 1], k);
    } else {
      m := |ts| - 1;
    }
  }

  /** Merging by request id gives each transfer the result of its own payout, and nothing to a transfer without one. */
  lemma MergedLine(ts: seq<NormTransfer>, lines: seq<Line>, i: nat)
    requires IdsDistinct(ts) && PayoutIdsDistinct(RunPayouts(ts)) && Answered(RunPayouts(ts), lines) && i < |ts|
    ensures var k := |RunPayouts(ts[..i])|;
            k <= |lines| && (Kept(ts[i]) ==> k < |lines| && lines[k].id == ts[i].id) &&
            LastLine(lines, ts[i].id) == if Kept(ts[i]) then Some(lines[k]) else None
  {
    hide Kept, LastLine, RunPayouts, ExecutedLine;
    var ps, k := RunPayouts(ts), |RunPayouts(ts[..i])|;
    PayoutAt(ts, i);
    if Kept(ts[i]) {
      assert Answers(ps[k], lines[k]);
      forall j | k < j < |lines| ensures lines[j].id != lines[k].id {
        assert Answers(ps[j], lines[j]);
      }
      LastLineIs(lines, k);
    } else {
      forall j | 0 <= j < |lines| ensures lines[j].id != ts[i].id {
        assert Answers(ps[j], lines[j]);
        var m := PayoutFrom(ts, j);
      }
      LastLineNone(lines, ts[i].id);
    }
  }

  function TallyOf(t: Tally, l: Line): Tally {
    TallyLine(t, l.status, l.outcome, l.replay, l.retryable, OptionalAmount(l.amount))
  }

  lemma SameStep(a: Tally, b: Tally, move: Line, l: Line)
    requires SameExecution(a, b) && ExecutedLine(l) && move.status == l.status && (l.ok ==> move.amount == l.amount)
    ensures SameExecution(TallyOf(a, move), TallyOf(b, l))
  {
    hide OptionalAmount, Add;
  }

  lemma UnexecutedStep(a: Tally, move: Line)
    requires move.status == Failed
    ensures SameExecution(TallyOf(a, move), a)
  {
    hide OptionalAmount, Add;
  }

  lemma TallySnoc(t: Tally, lines: seq<Line>, i: nat)
    requires i < |lines|
    ensures TallyLines(t, lines[..i + 1]) == TallyOf(TallyLines(t, lines[..i]), lines[i])
  {
    assert lines[..i + 1][..i] == lines[..i];
  }

  lemma {:induction false} MergeTotals(ts: seq<NormTransfer>, run: RunResponse, start: Tally, i: nat)
    requires IdsDistinct(ts) && PayoutIdsDistinct(RunPayouts(ts)) && Answered(RunPayouts(ts), run.lines) && i <= |ts|
    requires SameExecution(start, ZERO)
    ensures var k := |RunPayouts(ts[..i])|;
            k <= |run.lines| &&
            SameExecution(TallyLines(start, LinesOf(Merge(ts, run))[..i]), TallyLines(ZERO, run.lines[..k]))
  {
    hide Kept, LastLine, RunPayouts, ExecutedLine, TallyLines, SameExecution, TallyOf, Answers, IdsDistinct,
         PayoutIdsDistinct, RunPayout;
    var moves := LinesOf(Merge(ts, run));
    if i == 0 {
      NothingTallied(start, moves, run.lines, ts);
    } else {
      MergeTotals(ts, run, start, i - 1);
      var k := |RunPayouts(ts[..i - 1])|;
      MergedLine(ts, run.lines, i - 1);
      PayoutAt(ts, i - 1);
      TallySnoc(start, moves, i - 1);
      var before := TallyLines(start, moves[..i - 1]);
      if Kept(ts[i - 1]) {
        TallySnoc(ZERO, run.lines, k);
        assert Answers(RunPayouts(ts)[k], run.lines[k]);
        MergeStep(before, TallyLines(ZERO, run.lines[..k]), ts[i - 1], RunPayouts(ts)[k], run.lines[k]);
      } else {
        UnexecutedStep(before, moves[i - 1]);
        SameTwice(TallyOf(before, moves[i - 1]), before, TallyLines(ZERO, run.lines[..k]));
      }
    }
  }

  lemma MergeStep(a: Tally, b: Tally, t: NormTransfer, p: Payout, l: Line)
    requires SameExecution(a, b) && Answers(p, l) && p == RunPayout(t)
    ensures SameExecution(TallyOf(a, MergeOne(t, Some(l)).line), TallyOf(b, l))
  {
    hide SameExecution, TallyOf, OptionalAmount;
    SameStep(a, b, MergeOne(t, Some(l)).line, l);
  }

  lemma SameTwice(a: Tally, b: Tally, c: Tally)
    requires SameExecution(a, b) && SameExecution(b, c)
    ensures SameExecution(a, c)
  {
  }

  lemma NothingTallied(start: Tally, moves: seq<Line>, lines: seq<Line>, ts: seq<NormTransfer>)
    requires SameExecution(start, ZERO)
    ensures |RunPayouts(ts[..0])| == 0 && SameExecution(TallyLines(start, moves[..0]), TallyLines(ZERO, lines[..0]))
  {
  }

  // ---------------------------------------------------------------- buckets

  /** The two buckets together hold what the tally holds. */
  predicate BucketsHold(t: Tally, w: BucketTotals, g: BucketTotals) {
    t.executedTotal == Add(w.executed, g.executed) && t.confirmedTotal == Add(w.confirmed, g.confirmed) &&
    t.acceptedTotal == Add(w.accepted, g.accepted) && t.refusedTotal == Add(w.refused, g.refused) &&
    t.rejectedTotal == Add(w.rejected, g.rejected)
  }

  lemma AddAcross(x: U64, y: U64, a: U64)
    ensures Add(Add(x, a), y) == Add(Add(x, y), a) && Add(x, Add(y, a)) == Add(Add(x, y), a)
  {
    hide Wrap;
    WrapAdd(x + a, y);
    WrapAdd(x + y, a);
    WrapAdd(y + a, x);
  }

  lemma BucketsHoldStep(t: Tally, w: BucketTotals, g: BucketTotals, l: Line)
    requires BucketsHold(t, w, g) && OptionalAmount(l.amount).Some?
    ensures BucketsHold(TallyOf(t, l), BucketLine(w, l, OptionalAmount(l.amount).value), g)
    ensures BucketsHold(TallyOf(t, l), w, BucketLine(g, l, OptionalAmount(l.amount).value))
  {
    hide OptionalAmount, Add;
    var a := OptionalAmount(l.amount).value;
    AddAcross(w.executed, g.executed, a);
    AddAcross(w.confirmed, g.confirmed, a);
    AddAcross(w.accepted, g.accepted, a);
    AddAcross(w.refused, g.refused, a);
    AddAcross(w.rejected, g.rejected, a);
  }

  lemma {:induction false} BucketsHoldTally(start: Tally, moves: seq<Move>)
    requires BucketsHold(start, NO_TOTALS, NO_TOTALS)
    requires forall i :: 0 <= i < |moves| ==> moves[i].bucket == WAGER || moves[i].bucket == GUARANTEE
    ensures BucketsHold(TallyLines(start, LinesOf(moves)), BucketOf(Buckets(moves), WAGER),
                        BucketOf(Buckets(moves), GUARANTEE))
  {
    hide BucketsHold, TallyOf, OptionalAmount, BucketLine;
    if |moves| > 0 {
      var init, m := moves[..|moves| - 1], moves[|moves| - 1];
      BucketsHoldTally(start, init);
      assert LinesOf(moves)[..|init|] == LinesOf(init);
      assert TallyLines(start, LinesOf(moves)) == TallyOf(TallyLines(start, LinesOf(init)), m.line) by {
        TallySnoc(start, LinesOf(moves), |init|);
        assert LinesOf(moves)[..|moves|] == LinesOf(moves);
      }
      var t := TallyLines(start, LinesOf(init));
      if OptionalAmount(m.line.amount).Some? {
        BucketsHoldStep(t, BucketOf(Buckets(init), WAGER), BucketOf(Buckets(init), GUARANTEE), m.line);
      } else {
        UnreadableStep(t, m.line);
      }
    }
  }

  lemma UnreadableStep(t: Tally, l: Line)
    requires OptionalAmount(l.amount).None?
    ensures TallyOf(t, l) == t
  {
    hide OptionalAmount;
  }

  // ---------------------------------------------------------------- the challenge refines the run

  lemma InvalidHeaderRun(cfg: Config, v: View, request: RunRequest)
    requires !ValidRunHeader(request)
    ensures var r := PlanRun(cfg, v, request).1; r.payoutBalanceBefore.None? && !r.ok
  {
    hide ValidRunHeader;
    FinalizeKeeps(StartRun(request).(failureCode := "INVALID_RUN"));
  }

  /** Everything the executor relies on in an accepted plan. */
  ghost predicate ReadyPlan(plan: ChallengePlan) {
    plan.response.ok && plan.response.status == Validated && !plan.response.replay && plan.response.run.Some? &&
    plan.response.runId == plan.norm.runId && plan.response.requested == |plan.norm.transfers| > 0 &&
    SameExecution(Recount(plan.response.tally, false), ZERO) && RunMatches(plan.norm, plan.runRequest) &&
    ValidRunHeader(plan.runRequest) &&
    (forall i :: 0 <= i < |plan.norm.transfers| ==> PaidTransfer(plan.norm.transfers[i]))
  }

  predicate PaidTransfer(t: NormTransfer) {
    (t.bucket == WAGER || t.bucket == GUARANTEE) && RequestIdPattern(t.id) && IsWoloAddress(t.to)
  }

  lemma AcceptedIsReady(cfg: Config, chain: Ledger, v: View, request: ChallengeRequest)
    requires PlanChallenge(cfg, chain, v, request).response.ok
    ensures ReadyPlan(PlanChallenge(cfg, chain, v, request)) && LinesAccepted(PlanChallenge(cfg, chain, v, request))
  {
    hide *;
    var plan := PlanChallenge(cfg, chain, v, request);
    OkHasRun(cfg, chain, v, request);
    RunOfChallenge(cfg, chain, v, request);
    var ds, acc := AcceptedPlan(cfg, chain, v, request);
    ReadyCore(cfg, chain, v, plan, NormHeader(cfg, request), ds, acc);
  }

  lemma OkHasRun(cfg: Config, chain: Ledger, v: View, request: ChallengeRequest)
    requires PlanChallenge(cfg, chain, v, request).response.ok
    ensures LinesAccepted(PlanChallenge(cfg, chain, v, request))
  {
    hide FinalizeChallenge, VerifyAll, PlanTransfers, PlanRun, PlanTopUp, ValidHeader, DistinctParticipants, NormHeader,
         BucketsExact, NoInvalidMove, JudgePlan, AllOk, LinesPlanned, FundingChecked;
    var n := NormHeader(cfg, request).(funding := TrimAll(request.funding));
    var ds := VerifyAll(cfg, chain, v.fault, n);
    var acc := PlanTransfers(ds, n.runId, n.memo, n.treasury, request.transfers);
    var m := n.(transfers := acc.transfers);
    PlannedFails(n, ds, acc);
    PlannedFails(m, ds, acc);
    var runRequest := RunRequestOf(m, acc.payouts);
    var run := PlanRun(cfg, v, runRequest).1;
    var topUp := PlanTopUp(cfg, v, m.runId, run);
    JudgeKeeps(LinesPlanned(m, ds, acc), run, topUp);
    FinalizeChallengeKeeps(JudgePlan(LinesPlanned(m, ds, acc), run, topUp));
  }

  lemma PlannedFails(n: NormChallenge, ds: seq<Deposit>, acc: Acc)
    ensures !FinalizeChallenge(FundingChecked(n, ds).(failureCode := INVALID)).ok
    ensures !FinalizeChallenge(LinesPlanned(n, ds, acc).(failureCode := INVALID)).ok
    ensures LinesPlanned(n, ds, acc).status == Failed && !LinesPlanned(n, ds, acc).ok
  {
    hide FinalizeChallenge;
    FinalizeChallengeKeeps(FundingChecked(n, ds).(failureCode := INVALID));
    FinalizeChallengeKeeps(LinesPlanned(n, ds, acc).(failureCode := INVALID));
  }

  lemma ReadyCore(cfg: Config, chain: Ledger, v: View, plan: ChallengePlan, h: NormChallenge, ds: seq<Deposit>,
                  acc: Acc)
    requires GoodPlan(cfg, chain, plan.norm, ds, acc) && RunMatches(plan.norm, plan.runRequest) && plan.response.ok
    requires plan.response == FinalizeChallenge(JudgePlan(LinesPlanned(plan.norm, ds, acc),
                                                          PlanRun(cfg, v, plan.runRequest).1,
                                                          PlanTopUp(cfg, v, plan.norm.runId,
                                                                    PlanRun(cfg, v, plan.runRequest).1)))
    ensures ReadyPlan(plan)
  {
    hide FinalizeChallenge, JudgePlan, PlanRun, RunMatches, ValidRunHeader, AllProven, DistinctParticipants,
         KeysDistinct, BucketsExact, RequestIdPattern, IsWoloAddress, GoodAcc, TallyLines, AllPlanned, RequiredBalance,
         Recount;
    var run := PlanRun(cfg, v, plan.runRequest).1;
    var topUp := PlanTopUp(cfg, v, plan.norm.runId, run);
    var lines := LinesPlanned(plan.norm, ds, acc);
    JudgeKeeps(lines, run, topUp);
    FinalizeChallengeKeeps(JudgePlan(lines, run, topUp));
    if !ValidRunHeader(plan.runRequest) {
      InvalidHeaderRun(cfg, v, plan.runRequest);
    }
    GoodLines(ds, acc);
    PlannedIsFresh(JudgePlan(lines, run, topUp), plan.response);
  }

  lemma GoodLines(ds: seq<Deposit>, acc: Acc)
    requires GoodAcc(ds, acc)
    ensures AllPlanned(LinesOf(acc.moves)) && |acc.moves| == |acc.transfers|
    ensures forall i :: 0 <= i < |acc.transfers| ==> PaidTransfer(acc.transfers[i])
  {
    hide Resolve, Trim, RequestIdPattern, IsWoloAddress, SidePattern, ReasonPattern, ValidEventId, Key, Wrap, Spent,
         TransferTotal, Allocated;
    forall i | 0 <= i < |acc.moves| ensures PlannedLine(LinesOf(acc.moves)[i]) {
      assert acc.moves[i] == PlannedMove(ds, acc.transfers[i], "");
    }
    forall i | 0 <= i < |acc.transfers| ensures PaidTransfer(acc.transfers[i]) {
      assert GoodTransfer(ds, i, acc.transfers[i]);
    }
  }

  lemma PlannedIsFresh(j: ChallengeResponse, f: ChallengeResponse)
    requires j.tally == ZERO && AllPlanned(LinesOf(j.moves)) &&
             f.tally == TallyLines(Recount(j.tally, j.retryable), LinesOf(j.moves))
    ensures SameExecution(Recount(f.tally, false), ZERO)
  {
    hide TallyLines;
    PlannedTally(Recount(j.tally, j.retryable), LinesOf(j.moves));
  }

  /** A run response that holds one executed line for each of its payouts, tallied from zero. */
  ghost predicate RunAnswers(payouts: seq<Payout>, run: RunResponse) {
    Answered(payouts, run.lines) && run.tally == TallyLines(ZERO, run.lines)
  }

  /**
   * Every transfer reports the result of its own payout, and a transfer the run could not read reports an invalid line.
   */
  ghost predicate OwnResults(ts: seq<NormTransfer>, lines: seq<Line>, moves: seq<Move>) {
    |moves| == |ts| && forall i :: 0 <= i < |ts| ==> OwnResult(ts, lines, i, moves[i])
  }

  predicate OwnResult(ts: seq<NormTransfer>, lines: seq<Line>, i: nat, m: Move)
    requires i < |ts|
  {
    var k := |RunPayouts(ts[..i])|;
    if Kept(ts[i]) then k < |lines| && lines[k].id == ts[i].id && m == MergeOne(ts[i], Some(lines[k]))
    else m == MergeOne(ts[i], None)
  }

  /** A run response with nothing executed: a refused plan, a run in progress elsewhere, or a conflict. */
  predicate IdleRun(run: RunResponse) {
    AllPlanned(run.lines) && SameExecution(run.tally, ZERO)
  }

  lemma {:induction false} IdleLast(lines: seq<Line>, id: string)
    requires AllPlanned(lines)
    ensures LastLine(lines, id).Some? ==> PlannedLine(LastLine(lines, id).value)
  {
    hide PlannedLine;
    if |lines| > 0 {
      IdleLast(lines[..|lines| - 1], id);
    }
  }

  lemma MergedPlanned(ts: seq<NormTransfer>, run: RunResponse)
    requires IdleRun(run)
    ensures AllPlanned(LinesOf(Merge(ts, run)))
  {
    forall i | 0 <= i < |ts| ensures PlannedLine(Merge(ts, run)[i].line) {
      IdleLast(run.lines, ts[i].id);
    }
  }

  /**
   * Challenge totals refine run totals, for every response a run may hand over. The executed, confirmed and accepted
   * counts and totals are the run's, and each total is the sum of the two buckets. After an executed run each transfer
   * reports its own payout's result; after one that executed nothing no transfer reports a hash or an executed status.
   */
  lemma ChallengeTotalsRefineRun(cfg: Config, chain: Ledger, v: View, request: ChallengeRequest, topUp: Option<TopUp>,
                                 run: RunResponse)
    requires var plan := PlanChallenge(cfg, chain, v, request);
             plan.response.ok && (IdleRun(run) || RunAnswers(Prepare(plan.runRequest).0.payouts, run))
    ensures var plan := PlanChallenge(cfg, chain, v, request);
            Refined(plan, run, ExecutedChallenge(plan.response.(topUp := topUp), plan.norm.transfers, run))
  {
    hide *;
    AcceptedIsReady(cfg, chain, v, request);
    RefinesAll(PlanChallenge(cfg, chain, v, request), topUp, run);
  }

  /** How the response of a challenge stands to the response of its run. */
  ghost predicate Refined(plan: ChallengePlan, run: RunResponse, c: ChallengeResponse) {
    SameExecution(c.tally, run.tally) &&
    BucketsHold(c.tally, BucketOf(c.buckets, WAGER), BucketOf(c.buckets, GUARANTEE)) &&
    c.status == DeriveStatus(|plan.norm.transfers|, c.tally) &&
    (RunAnswers(Prepare(plan.runRequest).0.payouts, run) ==> OwnResults(plan.norm.transfers, run.lines, c.moves)) &&
    (IdleRun(run) ==> AllPlanned(LinesOf(c.moves)) && c.tally.executed == 0)
  }

  lemma RefinesAll(plan: ChallengePlan, topUp: Option<TopUp>, run: RunResponse)
    requires ReadyPlan(plan) && (IdleRun(run) || RunAnswers(Prepare(plan.runRequest).0.payouts, run))
    ensures Refined(plan, run, ExecutedChallenge(plan.response.(topUp := topUp), plan.norm.transfers, run))
  {
    hide Prepare, RunAnswers, OwnResults, BucketsHold, ReadyPlan, ExecutedChallenge, AllPlanned, LinesOf, DeriveStatus;
    if RunAnswers(Prepare(plan.runRequest).0.payouts, run) {
      RefinesCore(plan, topUp, run);
    }
    if IdleRun(run) {
      RefinesIdle(plan, topUp, run);
    }
  }

  lemma RefinesIdle(plan: ChallengePlan, topUp: Option<TopUp>, run: RunResponse)
    requires ReadyPlan(plan) && IdleRun(run)
    ensures var ts := plan.norm.transfers; var c := ExecutedChallenge(plan.response.(topUp := topUp), ts, run);
            AllPlanned(LinesOf(c.moves)) && SameExecution(c.tally, ZERO) && c.status == DeriveStatus(|ts|, c.tally) &&
            BucketsHold(c.tally, BucketOf(c.buckets, WAGER), BucketOf(c.buckets, GUARANTEE))
  {
    hide RunMatches, ValidRunHeader, TallyLines, BucketsHold, ExecutedChallenge, RequestIdPattern, IsWoloAddress, Merge,
         LinesOf, Buckets, Recount, AllPlanned, DeriveStatus;
    var ts := plan.norm.transfers;
    var moves, start := Merge(ts, run), Recount(plan.response.tally, run.retryable);
    ExecutedChallengeForm(plan.response.(topUp := topUp), ts, run);
    FreshRecount(plan.response.tally, run.retryable);
    MergedPlanned(ts, run);
    PlannedTally(start, LinesOf(moves));
    MergedBuckets(ts, run);
    BucketsHoldTally(start, moves);
  }

  lemma RefinesCore(plan: ChallengePlan, topUp: Option<TopUp>, run: RunResponse)
    requires ReadyPlan(plan) && RunAnswers(Prepare(plan.runRequest).0.payouts, run)
    ensures var ts := plan.norm.transfers; var c := ExecutedChallenge(plan.response.(topUp := topUp), ts, run);
            OwnResults(ts, run.lines, c.moves) && SameExecution(c.tally, run.tally) &&
            BucketsHold(c.tally, BucketOf(c.buckets, WAGER), BucketOf(c.buckets, GUARANTEE)) &&
            c.status == DeriveStatus(|ts|, c.tally)
  {
    hide Prepare, ValidRunHeader, IdsDistinct, TransferTotal, RunPayouts, Answered, TallyLines, SameExecution,
         BucketsHold, ExecutedChallenge, RequestIdPattern, IsWoloAddress, Merge, LinesOf, OwnResult, Kept, MergeOne,
         Buckets, PayoutIdsDistinct, Recount, GoodPayouts, DeriveStatus;
    var ts, r := plan.norm.transfers, plan.response.(topUp := topUp);
    var moves, start := Merge(ts, run), Recount(plan.response.tally, run.retryable);
    PrepareFacts(plan.runRequest);
    DistinctPayouts(Prepare(plan.runRequest).0);
    ExecutedChallengeForm(r, ts, run);
    FreshRecount(plan.response.tally, run.retryable);
    MergeTotals(ts, run, start, |ts|);
    WholeRun(ts, run, start);
    MergedBuckets(ts, run);
    BucketsHoldTally(start, moves);
    forall i | 0 <= i < |ts| ensures OwnResult(ts, run.lines, i, moves[i]) {
      MergedOwn(ts, run, i);
    }
  }

  lemma DistinctPayouts(n: NormRun)
    requires GoodPayouts(n)
    ensures PayoutIdsDistinct(n.payouts)
  {
  }

  lemma ExecutedChallengeForm(r: ChallengeResponse, ts: seq<NormTransfer>, run: RunResponse)
    requires r.requested == |ts|
    ensures var c := ExecutedChallenge(r, ts, run);
            c.moves == Merge(ts, run) &&
            c.tally == TallyLines(Recount(r.tally, run.retryable), LinesOf(Merge(ts, run))) &&
            c.status == DeriveStatus(|ts|, c.tally) && (c.ok <==> c.status == Confirmed || c.status == Accepted) &&
            c.run == Some(run) && !c.replay && c.topUp == r.topUp && c.funding == r.funding &&
            c.requested == r.requested &&
            c.requestedTotal == r.requestedTotal && c.fundingTotal == r.fundingTotal &&
            c.fundingVerified == r.fundingVerified &&
            c.runId == r.runId && c.sourceApp == r.sourceApp && c.challengeId == r.challengeId &&
            c.sourceEventId == r.sourceEventId &&
            BucketOf(c.buckets, WAGER) == BucketOf(Buckets(c.moves), WAGER) &&
            BucketOf(c.buckets, GUARANTEE) == BucketOf(Buckets(c.moves), GUARANTEE)
  {
    hide TallyLines, Buckets, FirstFailureCode, FirstNonEmpty, Merge, LinesOf, DeriveStatus;
    StatusOk(|ts|, TallyLines(Recount(r.tally, run.retryable), LinesOf(Merge(ts, run))));
  }

  lemma StatusOk(requested: nat, t: Tally)
    ensures DeriveStatus(requested, t) != Validated
  {
  }

  lemma FreshRecount(t: Tally, retryable: bool)
    requires SameExecution(Recount(t, false), ZERO)
    ensures SameExecution(Recount(t, retryable), ZERO) && BucketsHold(Recount(t, retryable), NO_TOTALS, NO_TOTALS)
  {
    WrapSmall(0);
  }

  lemma WholeRun(ts: seq<NormTransfer>, run: RunResponse, start: Tally)
    requires Answered(RunPayouts(ts), run.lines) && |RunPayouts(ts[..|ts|])| <= |run.lines|
    requires SameExecution(TallyLines(start, LinesOf(Merge(ts, run))[..|ts|]),
                           TallyLines(ZERO, run.lines[..|RunPayouts(ts[..|ts|])|]))
    ensures SameExecution(TallyLines(start, LinesOf(Merge(ts, run))), TallyLines(ZERO, run.lines))
  {
    hide RunPayouts, TallyLines, SameExecution;
    assert ts[..|ts|] == ts && run.lines[..|run.lines|] == run.lines;
    assert LinesOf(Merge(ts, run))[..|ts|] == LinesOf(Merge(ts, run));
  }

  lemma MergedBuckets(ts: seq<NormTransfer>, run: RunResponse)
    requires forall i :: 0 <= i < |ts| ==> PaidTransfer(ts[i])
    ensures var moves := Merge(ts, run);
            forall i :: 0 <= i < |moves| ==> moves[i].bucket == WAGER || moves[i].bucket == GUARANTEE
  {
    hide LastLine, RequestIdPattern, IsWoloAddress;
    forall i | 0 <= i < |ts| ensures Merge(ts, run)[i].bucket == WAGER || Merge(ts, run)[i].bucket == GUARANTEE {
      assert PaidTransfer(ts[i]);
    }
  }

  lemma MergedOwn(ts: seq<NormTransfer>, run: RunResponse, i: nat)
    requires IdsDistinct(ts) && PayoutIdsDistinct(RunPayouts(ts)) && Answered(RunPayouts(ts), run.lines) && i < |ts|
    ensures OwnResult(ts, run.lines, i, Merge(ts, run)[i])
  {
    hide IdsDistinct, PayoutIdsDistinct, Answered, RunPayouts, Kept, MergeOne, LastLine;
    MergedLine(ts, run.lines, i);
  }
}

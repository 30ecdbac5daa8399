/**
 * Planning, finalizing and merging as the source does them: loops that update running totals, maps and result lists.
 */
module Planner {
  import opened Text
  import opened Amounts
  import opened Records
  import opened Signers
  import opened Chain
  import opened Runs
  import opened Funding
  import opened Challenges

  // ---------------------------------------------------------------- runs

  /** prepareSettlementRunRequest. */
  method PrepareRun(request: RunRequest) returns (n: NormRun, r: RunResponse)
    ensures (n, r) == Prepare(request)
  {
    hide PrepareLines, ValidRunHeader, Trim, RunRole;
    r := Runs.StartRun(request);
    if !ValidRunHeader(request) {
      return EMPTY_RUN, r.(failureCode := "INVALID_RUN");
    }
    var runId, memo, role := Trim(request.runId), Cut(Trim(request.memo), 180), RunRole(request.role);
    var p := PrepareLinesLoop(runId, memo, role, request.payouts);
    n := NormRun(runId, Trim(request.sourceApp), Trim(request.sourceEventId), Cut(Trim(request.note), 280), memo, role,
                 p.payouts);
    r := r.(requested := |request.payouts|, requestedTotal := p.total, lines := p.lines);
    if p.invalid {
      r := r.(failureCode := "INVALID_RUN");
    }
  }

  /** The first failure code of a list of lines, if any. */
  method FirstCode(lines: seq<Line>) returns (code: string)
    ensures code == FirstFailureCode(lines)
  {
    for i := 0 to |lines|
      invariant FirstFailureCode(lines) == FirstFailureCode(lines[i..])
    {
      assert lines[i..][1..] == lines[i + 1..];
      if Trim(lines[i].failureCode) != "" {
        return lines[i].failureCode;
      }
    }
    return "";
  }

  /** finalizeSettlementRunResponse. */
  method FinalizeRun(r: RunResponse) returns (f: RunResponse)
    ensures f == Finalize(r)
  {
    hide TallyLines, FirstFailureCode, FirstNonEmpty, DeriveStatus;
    var t := TallyLoop(Recount(r.tally, r.retryable), r.lines);
    f := r.(tally := t, requested := if r.requested == 0 then |r.lines| else r.requested, retryable := t.retryable);
    if r.status != Blank {
      return;
    }
    if r.failureCode == "INVALID_RUN" {
      return f.(status := Failed, ok := false);
    }
    var code := FirstCode(r.lines);
    match DeriveStatus(f.requested, t) {
      case Confirmed => f := f.(status := Confirmed, ok := true, failureCode := "");
      case Accepted => f := f.(status := Accepted, ok := true, failureCode := "");
      case Partial =>
        f := f.(status := Partial, ok := false,
                failureCode := FirstNonEmpty(r.failureCode, FirstNonEmpty(code, "RUN_PARTIAL_FAILURE")));
      case Failed =>
        f := f.(status := Failed, ok := false,
                failureCode := FirstNonEmpty(r.failureCode, FirstNonEmpty(code, "RUN_FAILED")));
      case Blank =>
      case Validated => f := f.(status := Validated, ok := false);
    }
  }

  /** buildSettlementRunPlan. */
  method BuildRunPlan(cfg: Config, v: View, request: RunRequest) returns (n: NormRun, r: RunResponse)
    ensures (n, r) == PlanRun(cfg, v, request)
  {
    hide Prepare, Finalize, HasReady, NeedsEscrow, RefuseRun, EscrowPlan, PayoutPlan;
    n, r := PrepareRun(request);
    if HasReady(r.lines) {
      if NeedsEscrow(n) {
        r := RefuseRun(r, "ESCROW_SIGNER_REQUIRED", false);
      } else {
        r := r.(estimatedFee := EstimatedFee(cfg, |n.payouts|));
        r := if n.role == ESCROW then EscrowPlan(cfg, v, r) else PayoutPlan(cfg, v, r);
      }
    }
    r := FinalizeRun(r);
  }

  /** The end of executeSettlementRun: the response is cleared, given its lines, and finalized. */
  method FinishRun(plan: RunResponse, lines: seq<Line>) returns (r: RunResponse)
    ensures r == ExecutedRun(plan, lines)
  {
    hide Finalize;
    r := FinalizeRun(plan.(lines := lines, ok := false, status := Blank, failureCode := "", retryable := false,
                           replay := false, tally := ZERO));
  }

  // ---------------------------------------------------------------- challenges

  /** finalizeSettlementChallengeResponse. */
  method FinalizeChallengeResponse(r: ChallengeResponse) returns (f: ChallengeResponse)
    ensures f == FinalizeChallenge(r)
  {
    hide TallyLines, FirstFailureCode, FirstNonEmpty, DeriveStatus, Buckets;
    var lines := LinesOf(r.moves);
    var t := TallyLoop(Recount(r.tally, r.retryable), lines);
    var all := BucketsLoop(r.moves);
    f := r.(tally := t, requested := if r.requested == 0 then |r.moves| else r.requested,
            buckets := map b | b in {WAGER, GUARANTEE} && b in all :: all[b],
            retryable := t.retryable || (r.run.Some? && r.run.value.retryable));
    if r.status != Blank {
      return;
    }
    if r.failureCode == INVALID {
      return f.(status := Failed, ok := false);
    }
    var code := FirstCode(lines);
    f := WithStatus(f, r.failureCode, code, DeriveStatus(f.requested, t));
  }

  /** deriveSettlementChallengeStatus, applied. */
  function WithStatus(f: ChallengeResponse, given: string, first: string, s: Status): ChallengeResponse {
    f.(status := s,
       ok := if s == Blank then f.ok else s == Confirmed || s == Accepted,
       failureCode := match s
         case Confirmed => ""
         case Accepted => ""
         case Partial => FirstNonEmpty(given, FirstNonEmpty(first, "CHALLENGE_PARTIAL_FAILURE"))
         case Failed => FirstNonEmpty(given, FirstNonEmpty(first, "CHALLENGE_FAILED"))
         case _ => given)
  }

  /** The deposit loop of buildSettlementChallengePlan: results, how many verified, and what they carry. */
  method VerifyDeposits(cfg: Config, chain: Ledger, fault: Option<string>, n: NormChallenge)
    returns (ds: seq<Deposit>, verified: nat, total: U64)
    ensures ds == VerifyAll(cfg, chain, fault, n) && verified == CountOk(ds) && total == FundedTotal(ds)
  {
    hide VerifyDeposit, LineAmount, Add, CountOk, FundedTotal;
    ds, verified, total := [], 0, 0;
    NothingVerified(ds);
    for i := 0 to |n.funding|
      invariant |ds| == i && ds == VerifyAll(cfg, chain, fault, n)[..i] && verified == CountOk(ds) &&
                total == FundedTotal(ds)
    {
      var d := VerifyDeposit(cfg, chain, fault, n.funding[i].hash, ExpectationOf(n, n.funding[i]));
      VerifiedNext(ds, d);
      ds := ds + [d];
      if d.ok {
        verified, total := verified + 1, Add(total, LineAmount(d.total));
      }
    }
  }

  lemma NothingVerified(none: seq<Deposit>)
    requires none == []
    ensures CountOk(none) == 0 && FundedTotal(none) == 0
  {
  }

  lemma VerifiedNext(ds: seq<Deposit>, d: Deposit)
    ensures CountOk(ds + [d]) == CountOk(ds) + (if d.ok then 1 else 0)
    ensures FundedTotal(ds + [d]) == if d.ok then Add(FundedTotal(ds), LineAmount(d.total)) else FundedTotal(ds)
  {
    hide LineAmount;
    assert (ds + [d])[..|ds|] == ds;
    WrapSmall(FundedTotal(ds));
  }

  lemma {:induction false} CountIsAll(ds: seq<Deposit>)
    ensures CountOk(ds) <= |ds| && (CountOk(ds) == |ds| <==> AllOk(ds))
  {
    if |ds| > 0 {
      var init := ds[..|ds| - 1];
      CountIsAll(init);
      assert AllOk(ds) ==> AllOk(init);
      assert forall i :: 0 <= i < |init| ==> ds[i] == init[i];
    }
  }

  /** validateChallengeBucketAllocation: one error for every bucket that is not spent exactly. */
  method BucketErrors(ds: seq<Deposit>, a: Allocation) returns (errors: nat)
    ensures errors == 0 <==> BucketsExact(ds, a)
  {
    hide Key, LineAmount, Allocated;
    errors := 0;
    for k := 0 to |ds|
      invariant errors == 0 <==> BucketsExact(ds[..k], a)
    {
      assert forall j :: 0 <= j < k ==> ds[..k + 1][j] == ds[..k][j];
      assert ds[..k + 1][k] == ds[k];
      if Allocated(a, Key(ds[k]), WAGER) != LineAmount(ds[k].wager) {
        errors := errors + 1;
      }
      if Allocated(a, Key(ds[k]), GUARANTEE) != LineAmount(ds[k].guarantee) {
        errors := errors + 1;
      }
    }
    assert ds[..|ds|] == ds;
  }

  /** buildSettlementChallengePlan. */
  method BuildChallengePlan(cfg: Config, chain: Ledger, v: View,
                            request: ChallengeRequest) returns (plan: ChallengePlan)
    ensures plan == PlanChallenge(cfg, chain, v, request)
  {
    hide FinalizeChallenge, VerifyAll, PlanTransfers, PlanRun, PlanTopUp, ValidHeader, DistinctParticipants, NormHeader,
         BucketsExact, NoInvalidMove, JudgePlan, CountOk, FundedTotal, AllOk;
    var n := NormHeader(cfg, request);
    if !ValidHeader(request, n.treasury) {
      return ChallengePlan(n, Challenges.StartChallenge(n).(failureCode := INVALID), NoRun(n));
    }
    n := n.(funding := TrimAll(request.funding));
    var ds, verified, total := VerifyDeposits(cfg, chain, v.fault, n);
    CountIsAll(ds);
    var r := Challenges.StartChallenge(n).(funding := ds, fundingVerified := verified, fundingTotal := Some(total));
    var errors := ParticipantErrors(ds);
    if verified != |ds| || errors > 0 {
      r := FinalizeChallengeResponse(r.(failureCode := INVALID));
      return ChallengePlan(n, r, NoRun(n));
    }
    var acc := PlanTransfersLoop(ds, n.runId, n.memo, n.treasury, request.transfers);
    n := n.(transfers := acc.transfers);
    r := r.(moves := acc.moves, requested := |acc.moves|, requestedTotal := Some(acc.total));
    assert r == LinesPlanned(n, ds, acc);
    errors := BucketErrors(ds, acc.allocation);
    if errors > 0 || !NoInvalidMove(acc.moves) {
      r := FinalizeChallengeResponse(r.(failureCode := INVALID));
      return ChallengePlan(n, r, NoRun(n));
    }
    var runRequest := RunRequestOf(n, acc.payouts);
    var _, run := BuildRunPlan(cfg, v, runRequest);
    r := FinalizeChallengeResponse(JudgePlan(r, run, PlanTopUp(cfg, v, n.runId, run)));
    plan := ChallengePlan(n, r, runRequest);
  }

  /** The refusal of a challenge whose plan or top-up failed. */
  method RefuseChallenge(r: ChallengeResponse) returns (f: ChallengeResponse)
    ensures f == RefusedChallenge(r)
  {
    hide FinalizeChallenge;
    f := FinalizeChallengeResponse(r.(moves := FailReady(r.moves, r.failureCode, r.retryable)));
  }

  method FailChallengeTopUp(r: ChallengeResponse, t: TopUp) returns (f: ChallengeResponse)
    ensures f == FailedTopUp(r, t)
  {
    hide RefusedChallenge, FirstNonEmpty;
    f := RefuseChallenge(r.(topUp := Some(t), ok := false, status := Failed,
                            failureCode := FirstNonEmpty(t.code, "ESCROW_TOP_UP_FAILED"),
                            retryable := t.response.Some? && t.response.value.retryable));
  }

  /**
   * The end of executeSettlementChallenge: the run's results are merged into the transfers, and the response finalized.
   */
  method MergeRun(r: ChallengeResponse, ts: seq<NormTransfer>, run: RunResponse) returns (f: ChallengeResponse)
    ensures f == ExecutedChallenge(r, ts, run)
  {
    hide FinalizeChallenge, Merge;
    var moves := MergeLoop(ts, run);
    f := FinalizeChallengeResponse(r.(run := Some(run), moves := moves, status := Blank, ok := false, failureCode := "",
                                      retryable := run.retryable, replay := false));
  }
}

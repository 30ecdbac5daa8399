/** What responses report: the first reason of a failure, the cause of a refusal, counts, and each line's own result. */
module Reports {
  import opened Text
  import opened Amounts
  import opened Ids
  import opened Records
  import opened Signers
  import opened Chain
  import opened Runs
  import opened RunLaws
  import opened Memo
  import opened Funding
  import opened Challenges
  import opened ChallengeLaws
  import opened ChallengeRuns
  import opened Reuse

  // ---------------------------------------------------------------- the first reason

  /** Line i is the first to give a reason. */
  predicate FirstReason(lines: seq<Line>, i: nat) {
    i < |lines| && Trim(lines[i].failureCode) != "" && forall j :: 0 <= j < i ==> Trim(lines[j].failureCode) == ""
  }

  lemma {:induction false} FirstReasonCounts(lines: seq<Line>, i: nat)
    requires FirstReason(lines, i)
    ensures FirstFailureCode(lines) == lines[i].failureCode
  {
    if i > 0 {
      FirstReasonCounts(lines[1..], i - 1);
    }
  }

  lemma {:induction false} NoReason(lines: seq<Line>)
    requires forall i :: 0 <= i < |lines| ==> Trim(lines[i].failureCode) == ""
    ensures FirstFailureCode(lines) == ""
  {
    if |lines| > 0 {
      NoReason(lines[1..]);
    }
  }

  /** The reason of an executed run or challenge: none if all went out, else the first line's, or a default. */
  ghost predicate SaysWhy(status: Status, code: string, lines: seq<Line>, partial: string, failed: string) {
    (status == Confirmed || status == Accepted || status == Blank ==> code == "") &&
    (status == Partial || status == Failed ==>
       (forall i: nat :: FirstReason(lines, i) ==> code == Trim(lines[i].failureCode)) &&
       ((forall i :: 0 <= i < |lines| ==> Trim(lines[i].failureCode) == "") ==>
          code == if status == Partial then partial else failed))
  }

  lemma ReasonOf(lines: seq<Line>, fallback: string)
    requires Trim(fallback) == fallback
    ensures var code := FirstNonEmpty("", FirstNonEmpty(FirstFailureCode(lines), fallback));
            (forall i: nat :: FirstReason(lines, i) ==> code == Trim(lines[i].failureCode)) &&
            ((forall i :: 0 <= i < |lines| ==> Trim(lines[i].failureCode) == "") ==> code == fallback)
  {
    hide Trim, FirstFailureCode;
    BlankText();
    forall i: nat | FirstReason(lines, i)
      ensures FirstNonEmpty("", FirstNonEmpty(FirstFailureCode(lines), fallback)) == Trim(lines[i].failureCode)
    {
      FirstReasonCounts(lines, i);
      TrimShape(lines[i].failureCode);
    }
    if forall i :: 0 <= i < |lines| ==> Trim(lines[i].failureCode) == "" {
      NoReason(lines);
    }
  }

  lemma BlankText()
    ensures Trim("") == ""
  {
  }

  lemma Defaults()
    ensures Trim("RUN_PARTIAL_FAILURE") == "RUN_PARTIAL_FAILURE" && Trim("RUN_FAILED") == "RUN_FAILED" &&
            Trim("CHALLENGE_PARTIAL_FAILURE") == "CHALLENGE_PARTIAL_FAILURE" &&
            Trim("CHALLENGE_FAILED") == "CHALLENGE_FAILED"
  {
  }

  /** An executed run gives the first reason of its lines. */
  lemma RunSaysWhy(plan: RunResponse, lines: seq<Line>)
    ensures var r := ExecutedRun(plan, lines);
            SaysWhy(r.status, r.failureCode, lines, "RUN_PARTIAL_FAILURE", "RUN_FAILED")
  {
    hide TallyLines, FirstFailureCode, FirstNonEmpty, FirstReason, Trim;
    Defaults();
    ReasonOf(lines, "RUN_PARTIAL_FAILURE");
    ReasonOf(lines, "RUN_FAILED");
  }

  /** A challenge that executed its run gives the first reason of its merged lines. */
  lemma ChallengeSaysWhy(r: ChallengeResponse, ts: seq<NormTransfer>, run: RunResponse)
    ensures var c := ExecutedChallenge(r, ts, run);
            SaysWhy(c.status, c.failureCode, LinesOf(Merge(ts, run)), "CHALLENGE_PARTIAL_FAILURE", "CHALLENGE_FAILED")
  {
    hide TallyLines, FirstFailureCode, FirstNonEmpty, FirstReason, Trim, Merge, LinesOf, Buckets;
    Defaults();
    ReasonOf(LinesOf(Merge(ts, run)), "CHALLENGE_PARTIAL_FAILURE");
    ReasonOf(LinesOf(Merge(ts, run)), "CHALLENGE_FAILED");
  }

  // ---------------------------------------------------------------- refused plans

  /** Why a plan with good lines is refused: what its top-up lacks, in this order, or what its run was refused for. */
  lemma RefusedPlanSaysWhy(cfg: Config, v: View, sid: string, r: ChallengeResponse, run: RunResponse)
    requires !Passes(run, PlanTopUp(cfg, v, sid, run))
    ensures JudgePlan(r, run, PlanTopUp(cfg, v, sid, run)).failureCode ==
            if run.payoutBalanceBefore.None? || run.payoutBalanceBefore.value >= RequiredBalance(cfg, run)
            then run.failureCode
            else if !cfg.autoTopUp then "PAYOUT_TOP_UP_REQUIRED"
            else if Trim(cfg.payoutAddress) == "" then "PAYOUT_SIGNER_UNAVAILABLE"
            else if Trim(cfg.escrowKeyName) == "" || Trim(cfg.escrowAddress) == "" || !v.escrowKey.Resolved?
            then "ESCROW_TOP_UP_UNCONFIGURED"
            else if v.escrowBalance.None? then "ESCROW_BALANCE_LOOKUP_FAILED"
            else "ESCROW_BALANCE_TOO_LOW"
  {
    hide RequiredBalance, Trim, TopUpId, JudgePlan;
    if run.payoutBalanceBefore.Some? && run.payoutBalanceBefore.value < RequiredBalance(cfg, run) {
      TopUpCode(r, run, PlanTopUp(cfg, v, sid, run).value);
      TopUpCodes();
    } else {
      RunCode(r, run, PlanTopUp(cfg, v, sid, run));
    }
  }

  lemma TopUpCode(r: ChallengeResponse, run: RunResponse, t: TopUp)
    requires t.required && !(t.enabled && t.possible)
    ensures JudgePlan(r, run, Some(t)).failureCode ==
            if !t.enabled then "PAYOUT_TOP_UP_REQUIRED"
            else if Trim(t.code) != "" then Trim(t.code) else Trim("ESCROW_TOP_UP_UNAVAILABLE")
  {
    hide HasSuffix, Trim;
  }

  lemma TopUpCodes()
    ensures Trim("PAYOUT_SIGNER_UNAVAILABLE") == "PAYOUT_SIGNER_UNAVAILABLE" &&
            Trim("ESCROW_TOP_UP_UNCONFIGURED") == "ESCROW_TOP_UP_UNCONFIGURED" &&
            Trim("ESCROW_BALANCE_LOOKUP_FAILED") == "ESCROW_BALANCE_LOOKUP_FAILED" &&
            Trim("ESCROW_BALANCE_TOO_LOW") == "ESCROW_BALANCE_TOO_LOW"
  {
  }

  lemma RunCode(r: ChallengeResponse, run: RunResponse, topUp: Option<TopUp>)
    requires !(topUp.Some? && topUp.value.required) && !run.ok
    ensures JudgePlan(r, run, topUp).failureCode == run.failureCode
  {
    hide HasSuffix, FirstNonEmpty;
  }

  /** Why a serviceable signer stops a transfer: which of amount, headroom and floor its balance misses first. */
  lemma StoppedSaysWhy(cfg: Config, role: string, v: View, amount: string)
    requires Serviceable(cfg, v, role) && ParseUint(Trim(amount)).Some? && (role == ESCROW || role == PAYOUT)
    requires BalanceOf(v, role) >= ReserveFor(cfg, role) && PreflightFor(cfg, role, v, amount).Stopped?
    ensures var left: int := BalanceOf(v, role) - ParseUint(Trim(amount)).value;
            var headroom: U64 := if role == ESCROW then cfg.escrowHeadroom else cfg.payoutHeadroom;
            var name := if role == ESCROW then "ESCROW" else "PAYOUT";
            PreflightFor(cfg, role, v, amount).code ==
            name + if left < 0 then "_BALANCE_TOO_LOW" else if left < headroom then "_FEE_HEADROOM_TOO_LOW"
                   else "_RESERVE_FLOOR_HIT"
  {
    hide Trim, ParseUint, IsWoloAddress;
    PreflightClearsExactly(cfg, role, v, amount);
  }

  /** Why an escrow signer that is not serviceable stops every transfer. */
  lemma EscrowSaysWhy(cfg: Config, v: View, amount: string)
    requires !Serviceable(cfg, v, ESCROW) && ParseUint(Trim(amount)).Some?
    ensures PreflightFor(cfg, ESCROW, v, amount).Stopped? &&
            PreflightFor(cfg, ESCROW, v, amount).code ==
            if v.fault.Some? then v.fault.value
            else if cfg.escrowKeyName == "" then "ESCROW_SIGNER_UNCONFIGURED"
            else if v.escrowKey.WrongAddress? then "ESCROW_ADDRESS_MISMATCH"
            else if v.escrowKey.Unresolved? then "ESCROW_SIGNER_UNAVAILABLE"
            else "ESCROW_BALANCE_LOOKUP_FAILED"
  {
    hide Trim, ParseUint, CapacityFault;
  }

  /** Why a payout signer that is not serviceable stops every transfer. */
  lemma PayoutSaysWhy(cfg: Config, v: View, amount: string)
    requires !Serviceable(cfg, v, PAYOUT) && ParseUint(Trim(amount)).Some?
    requires cfg.escrowAddress == "" || IsWoloAddress(cfg.escrowAddress)
    requires !(v.payoutKey.Resolved? && v.payoutKey.address == "")
    ensures PreflightFor(cfg, PAYOUT, v, amount).Stopped? &&
            PreflightFor(cfg, PAYOUT, v, amount).code ==
            if v.fault.Some? then v.fault.value
            else if cfg.payoutKeyName == "" then "PAYOUT_SIGNER_UNCONFIGURED"
            else if v.payoutKey.WrongAddress? then "PAYOUT_ADDRESS_MISMATCH"
            else if v.payoutKey.Unresolved? then "PAYOUT_SIGNER_UNAVAILABLE"
            else "PAYOUT_BALANCE_LOOKUP_FAILED"
  {
    hide Trim, ParseUint, IsWoloAddress, CapacityFault;
  }

  /** The top-up a plan reports: what it is for, whence and where to, and whether it is needed, allowed and possible. */
  lemma PlannedTopUpSays(cfg: Config, v: View, sid: string, run: RunResponse)
    requires run.payoutBalanceBefore.Some?
    ensures var balance, need := run.payoutBalanceBefore.value, RequiredBalance(cfg, run);
            var ready := Trim(cfg.payoutAddress) != "" && Trim(cfg.escrowKeyName) != "" &&
                         Trim(cfg.escrowAddress) != "" && v.escrowKey.Resolved?;
            PlanTopUp(cfg, v, sid, run).Some? &&
            var t := PlanTopUp(cfg, v, sid, run).value;
            t.enabled == cfg.autoTopUp && t.to == Trim(cfg.payoutAddress) && t.target == need &&
            (t.required <==> balance < need) && t.amount == (if balance < need then need - balance else 0) &&
            (t.possible <==> t.required ==> ready && v.escrowBalance.Some? && v.escrowBalance.value >= t.amount) &&
            t.from == if t.required && ready then v.escrowKey.address else ""
  {
    hide RequiredBalance, Trim, TopUpId;
  }

  /** A planned line that is ready names the run's role and signer. */
  lemma PlannedLinesSay(cfg: Config, v: View, request: RunRequest, i: nat)
    requires PlanRun(cfg, v, request).1.ok && i < |PlanRun(cfg, v, request).1.lines|
    requires PlanRun(cfg, v, request).1.lines[i].outcome == Ready
    ensures var (n, r) := PlanRun(cfg, v, request); r.lines[i].role == r.role == n.role && r.lines[i].signer == r.signer
  {
    hide Prepare, Finalize, PayoutPlan, EscrowPlan, NeedsEscrow, HasReady;
    var (n, p) := Prepare(request);
    PrepareFacts(request);
    FinalizeKeeps(p);
    FinalizeKeeps(RefuseRun(p, "ESCROW_SIGNER_REQUIRED", false));
    var q := p.(estimatedFee := EstimatedFee(cfg, |n.payouts|));
    PlansSign(cfg, v, q);
    FinalizeKeeps(PayoutPlan(cfg, v, q));
    FinalizeKeeps(EscrowPlan(cfg, v, q));
    PlanFacts(cfg, v, request);
  }

  ghost predicate Signed(r: RunResponse) {
    r.status != Blank && forall i :: 0 <= i < |r.lines| && r.lines[i].outcome == Ready ==>
      r.lines[i].role == r.role && r.lines[i].signer == r.signer
  }

  lemma PlansSign(cfg: Config, v: View, r: RunResponse)
    requires !r.ok
    ensures PayoutPlan(cfg, v, r).ok ==> Signed(PayoutPlan(cfg, v, r)) && PayoutPlan(cfg, v, r).role == PAYOUT
    ensures EscrowPlan(cfg, v, r).ok ==> Signed(EscrowPlan(cfg, v, r)) && EscrowPlan(cfg, v, r).role == ESCROW
    ensures PayoutPlan(cfg, v, r).status != Blank && EscrowPlan(cfg, v, r).status != Blank
  {
    hide HealthReport, EscrowPreflight, CapacityFault, RefuseReady;
  }

  /** A planned line of a challenge names the participant as its deposit does, and is ready to be paid as asked. */
  lemma PlannedMovesSay(cfg: Config, chain: Ledger, v: View, r: ChallengeRequest, i: nat)
    requires LinesAccepted(PlanChallenge(cfg, chain, v, r)) && i < |r.transfers|
    ensures var plan := PlanChallenge(cfg, chain, v, r);
            |plan.response.moves| == |plan.norm.transfers| == |r.transfers| &&
            var m, t := plan.response.moves[i], plan.norm.transfers[i];
            (exists k :: 0 <= k < |plan.response.funding| && m.side == plan.response.funding[k].side &&
                         m.pid == plan.response.funding[k].pid &&
                         IsParticipant(plan.response.funding[k], t.side, t.pid)) &&
            m.bucket == t.bucket && m.reason == t.reason && m.line.id == t.id && m.line.to == t.to &&
            m.line.amount == t.amount && m.line.memo == t.memo && m.line.ok && m.line.outcome == Ready
  {
    hide PlanChallenge, VerifyAll, PlanTransfers, FinalizeChallenge, JudgePlan, PlanRun, PlanTopUp, ValidHeader,
         AllProven, KeysDistinct, BucketsExact, AllRouted, RunRequestOf, TrimAll, AllOk, NormHeader, PlannedMove,
         Resolve, IsParticipant, DistinctParticipants, CountOk, FundedTotal;
    var ds, acc := AcceptedPlan(cfg, chain, v, r);
    var plan := PlanChallenge(cfg, chain, v, r);
    var run := PlanRun(cfg, v, plan.runRequest).1;
    var lines := LinesPlanned(plan.norm, ds, acc);
    JudgeKeeps(lines, run, PlanTopUp(cfg, v, plan.norm.runId, run));
    FinalizeChallengeKeeps(JudgePlan(lines, run, PlanTopUp(cfg, v, plan.norm.runId, run)));
    GoodMoves(ds, acc, i);
    ResolutionUnique(ds, acc.transfers[i].side, acc.transfers[i].pid);
  }

  lemma GoodMoves(ds: seq<Deposit>, acc: Acc, i: nat)
    requires GoodAcc(ds, acc) && i < |acc.transfers|
    ensures |acc.moves| == |acc.transfers|
    ensures var t, m := acc.transfers[i], acc.moves[i]; var w := Resolve(ds, t.side, t.pid);
            w.One? && m.side == ds[w.k].side && m.pid == ds[w.k].pid && m.bucket == t.bucket && m.reason == t.reason &&
            m.line.id == t.id && m.line.to == t.to && m.line.amount == t.amount && m.line.memo == t.memo &&
            m.line.ok && m.line.outcome == Ready
  {
    hide Resolve, Trim, ValidTransfer, Key, Spent, TransferTotal, Wrap, Allocated, PayoutOf;
    assert GoodTransfer(ds, i, acc.transfers[i]);
  }

  // ---------------------------------------------------------------- refused lines

  /** Why a line of a challenge is refused, in this order. */
  function LineObjection(ds: seq<Deposit>, treasury: string, n: NormTransfer, seen: set<string>): string {
    if !InForm(n) || n.amount == "" || n.to == "" then "INVALID_TRANSFER"
    else if !Resolve(ds, n.side, n.pid).One? then "INVALID_TRANSFER_PARTICIPANT"
    else if !Routed(treasury, n.reason, n.to) then "INVALID_TREASURY_ROUTE"
    else if n.id in seen then "DUPLICATE_REQUEST_ID"
    else ""
  }

  lemma InFormExactly(n: NormTransfer)
    ensures ValidTransfer(n) <==> InForm(n) && n.amount != "" && n.to != ""
  {
    hide RequestIdPattern, SidePattern, EventPattern, ReasonPattern, IsWoloAddress;
  }

  /**
   * A refused line says why. A line that repeats the id of an earlier one still spends its bucket, and is not paid; any
   * other refused line leaves everything as it was.
   */
  lemma LineSaysWhy(ds: seq<Deposit>, sid: string, memo: string, treasury: string, acc: Acc, t: TransferInput)
    requires |acc.moves| == |acc.transfers|
    ensures var n := NormalTransfer(t, sid, |acc.transfers|, memo, treasury);
            var after, why := PlanTransfer(ds, sid, memo, treasury, acc, t), LineObjection(ds, treasury, n, acc.seen);
            |after.moves| == |acc.moves| + 1 && after.moves[|acc.moves|].line.failureCode == why &&
            (why != "" ==> after.moves[|acc.moves|].line.outcome == Invalid && after.payouts == acc.payouts &&
                           after.total == acc.total && after.seen == acc.seen) &&
            (why != "" && why != "DUPLICATE_REQUEST_ID" ==> after.allocation == acc.allocation) &&
            (why == "" || why == "DUPLICATE_REQUEST_ID" ==>
               var slot := (Key(ds[Resolve(ds, n.side, n.pid).k]), n.bucket);
               after.allocation == acc.allocation[slot := Add(Allocated(acc.allocation, slot.0, slot.1), AmountOf(n))])
  {
    hide NormalTransfer, ValidTransfer, InForm, Resolve, Key, Add, Allocated, AmountOf, Lower;
    var n := NormalTransfer(t, sid, |acc.transfers|, memo, treasury);
    InFormExactly(n);
    TreasuryWord();
  }

  // ---------------------------------------------------------------- refused deposits

  /** Why a deposit is not verified, in this order. */
  function Objection(cfg: Config, chain: Ledger, fault: Option<string>, txHash: string, e: Expectation): string {
    var h := Upper(Trim(txHash));
    if Trim(cfg.escrowAddress) == "" then "ESCROW_UNCONFIGURED"
    else if !ValidExpectation(e) then "INVALID_CHALLENGE"
    else if !TxHash(h) then "INVALID_TX_HASH"
    else if fault.Some? then fault.value
    else if h !in chain then "TX_NOT_FOUND"
    else if KindOf(cfg, chain[h].transfers) != EscrowDeposit then "NOT_ESCROW_DEPOSIT"
    else
      var t := FirstMatch(chain[h].transfers, Wanted(cfg, e));
      if t.None? then "CHALLENGE_FUNDING_MISMATCH"
      else if ParseMemo(chain[h].memo, t.value.amount).None? then "INVALID_CHALLENGE_FUNDING_MEMO"
      else "CHALLENGE_FUNDING_MISMATCH"
  }

  lemma RefusedDepositSaysWhy(cfg: Config, chain: Ledger, fault: Option<string>, txHash: string, e: Expectation)
    ensures var d := VerifyDeposit(cfg, chain, fault, txHash, e);
            d.code == if d.ok then "" else Objection(cfg, chain, fault, txHash, e)
  {
    hide ValidExpectation, MeetsExpectation, ParseMemo, KindOf, Trim, Upper, TxHash, FirstMatch, FormatUint;
  }

  // ---------------------------------------------------------------- counts

  ghost function VerifiedOnes(ds: seq<Deposit>): set<int> {
    set i | 0 <= i < |ds| && ds[i].ok
  }

  lemma OnesSnoc(ds: seq<Deposit>)
    requires |ds| > 0
    ensures var n := |ds| - 1;
            VerifiedOnes(ds) == VerifiedOnes(ds[..n]) + (if ds[n].ok then {n} else {}) && n !in VerifiedOnes(ds[..n])
  {
  }

  /** The verified deposits are counted. */
  lemma {:induction false} VerifiedCount(ds: seq<Deposit>)
    ensures CountOk(ds) == |VerifiedOnes(ds)|
  {
    if |ds| > 0 {
      VerifiedCount(ds[..|ds| - 1]);
      OnesSnoc(ds);
      hide VerifiedOnes;
    }
  }

  /** A replayed line that is counted. */
  predicate Replays(l: Line) {
    l.replay && OptionalAmount(l.amount).Some?
  }

  lemma ReplayStep(t: Tally, l: Line)
    ensures TallyLine(t, l.status, l.outcome, l.replay, l.retryable, OptionalAmount(l.amount)).replayed ==
            t.replayed + (if Replays(l) then 1 else 0)
  {
    hide OptionalAmount, Add;
  }

  /** Replayed lines are counted, as far as their amounts can be read. */
  lemma {:induction false} ReplayedCount(lines: seq<Line>)
    ensures TallyLines(ZERO, lines).replayed == |set i | 0 <= i < |lines| && Replays(lines[i])|
  {
    hide TallyLine, Replays;
    if |lines| > 0 {
      var init, n := lines[..|lines| - 1], |lines| - 1;
      ReplayedCount(init);
      ReplayStep(TallyLines(ZERO, init), lines[n]);
      var before, all := set i | 0 <= i < |init| && Replays(init[i]), set i | 0 <= i < |lines| && Replays(lines[i]);
      assert all == if Replays(lines[n]) then before + {n} else before;
    }
  }

  // ---------------------------------------------------------------- merged lines

  /** A transfer the run reports gets that very line, with its own index, recipient, amount and memo. */
  lemma MergedSays(ts: seq<NormTransfer>, run: RunResponse, i: nat, j: nat)
    requires i < |ts| && j < |run.lines| && run.lines[j].id == ts[i].id
    requires forall k :: j < k < |run.lines| ==> run.lines[k].id != ts[i].id
    ensures var t, m := ts[i], Merge(ts, run)[i];
            m.line == run.lines[j].(index := t.index, to := t.to, amount := t.amount, memo := t.memo) &&
            m.side == t.side && m.pid == t.pid && m.bucket == t.bucket && m.reason == t.reason
  {
    hide LastLine;
    LastLineIs(run.lines, j);
  }

  /** A transfer the run does not report has not been tried: it failed without a hash. */
  lemma UnreportedSays(ts: seq<NormTransfer>, run: RunResponse, i: nat)
    requires i < |ts| && forall j :: 0 <= j < |run.lines| ==> run.lines[j].id != ts[i].id
    ensures var t, l := ts[i], Merge(ts, run)[i].line;
            !l.attempted && !l.ok && l.status == Failed && l.outcome == Invalid && l.txHash == "" && !l.retryable &&
            l.id == t.id && l.to == t.to && l.amount == t.amount
  {
    hide LastLine;
    LastLineNone(run.lines, ts[i].id);
  }

  // ---------------------------------------------------------------- normalized runs

  /** The fingerprint of a run keeps everything its request says but the role's spelling. */
  lemma RunAsAsked(r: RunRequest)
    requires ValidRunHeader(r)
    ensures var n := Prepare(r).0;
            n.runId == Trim(r.runId) && n.sourceApp == Trim(r.sourceApp) && n.sourceEventId == Trim(r.sourceEventId) &&
            n.note == Cut(Trim(r.note), 280) && n.memo == Cut(Trim(r.memo), 180) &&
            n.role == (if Trim(Lower(r.role)) == "" then "payout" else Trim(Lower(r.role)))
    ensures var n := Prepare(r).0;
            PaysItems(n.runId, n.memo, r.payouts, PrepareLines(n.runId, n.memo, n.role, r.payouts)) &&
            n.payouts == PrepareLines(n.runId, n.memo, n.role, r.payouts).payouts
  {
    hide Trim, Lower, PaysItems, PrepareLines;
    PreparedItems(Trim(r.runId), Cut(Trim(r.memo), 180), RunRole(r.role), r.payouts);
  }
}

/** The escrow top-up of a challenge: the least amount that admits the run, and what it then admits. */
module TopUps {
  import opened Text
  import opened Amounts
  import opened Ids
  import opened Records
  import opened Signers
  import opened Runs
  import opened RunLaws
  import opened Challenges

  /** The balance the payout signer needs: requested total, the larger reserve and the estimated fees, without wrap. */
  function Need(cfg: Config, run: RunResponse): nat {
    run.requestedTotal as nat + Reserve(LimitsOf(cfg, PAYOUT)) as nat +
    (if run.estimatedFee.Some? then run.estimatedFee.value else 0) as nat
  }

  lemma WrapBack(x: U64, y: U64)
    ensures Wrap(Add(x, y) - x) == y
  {
  }

  lemma RequiredIsNeed(cfg: Config, run: RunResponse)
    ensures RequiredBalance(cfg, run) == Wrap(Need(cfg, run))
  {
    hide Wrap, Add;
    var total: int := run.requestedTotal;
    WrapBack(total, cfg.payoutFloor);
    WrapSmall(0);
    WrapSmall(total);
    var reserve: int := Reserve(LimitsOf(cfg, PAYOUT));
    Added(total, cfg.payoutFloor);
    Added(total, cfg.payoutHeadroom);
    Added(total, reserve);
    if run.estimatedFee.Some? {
      Added(Wrap(total + reserve), run.estimatedFee.value);
      WrapAdd(total + reserve, run.estimatedFee.value);
    }
  }

  lemma Added(x: U64, y: U64)
    ensures Add(x, y) == Wrap(x + y)
  {
  }

  /**
   * Top-up exactness. The planned amount brings the balance to what the run needs exactly when that need fits in 64
   * bits, and then no smaller amount does.
   */
  lemma TopUpExact(cfg: Config, v: View, sid: string, run: RunResponse, x: nat)
    requires run.payoutBalanceBefore.Some?
    ensures var balance, need := run.payoutBalanceBefore.value, Need(cfg, run);
            PlanTopUp(cfg, v, sid, run).Some? &&
            var t := PlanTopUp(cfg, v, sid, run).value;
            t.id == TopUpId(sid) && (t.required <==> t.amount > 0) && t.response.None? && balance + t.amount < TWO64 &&
            (t.required ==> balance + t.amount == Wrap(need)) &&
            (balance + t.amount >= need <==> need < TWO64) &&
            (need < TWO64 ==> (balance + x >= need <==> x >= t.amount))
  {
    hide RequiredBalance, Need, TopUpId, Trim;
    RequiredIsNeed(cfg, run);
    WrapBound(Need(cfg, run));
  }

  lemma WrapBound(x: nat)
    ensures Wrap(x) <= x && (Wrap(x) == x <==> x < TWO64) && (x >= TWO64 ==> Wrap(x) <= x - TWO64)
  {
  }

  // ---------------------------------------------------------------- the rebuilt plan

  /** A payout plan passes exactly when the signer is serviceable and covers the total and the reserve. */
  lemma PayoutPlanOkExactly(cfg: Config, v: View, r: RunResponse)
    requires !r.ok
    ensures PayoutPlan(cfg, v, r).ok <==>
            Serviceable(cfg, v, PAYOUT) && BalanceOf(v, PAYOUT) >= r.requestedTotal + Reserve(LimitsOf(cfg, PAYOUT))
    ensures PayoutPlan(cfg, v, r).payoutBalanceBefore == HealthReport(cfg, v).balance
    ensures PayoutPlan(cfg, v, r).requestedTotal == r.requestedTotal &&
            PayoutPlan(cfg, v, r).estimatedFee == r.estimatedFee
    ensures PayoutPlan(cfg, v, r).status != Blank
  {
    hide IsWoloAddress, SignReady, RefuseReady;
    var h := HealthReport(cfg, v);
    if h.balance.Some? {
      CapacityIsOneComparison(LimitsOf(cfg, PAYOUT), h.balance.value, r.requestedTotal);
    }
  }

  lemma EscrowPlanOkExactly(cfg: Config, v: View, r: RunResponse)
    requires !r.ok
    ensures EscrowPlan(cfg, v, r).ok <==>
            Serviceable(cfg, v, ESCROW) && BalanceOf(v, ESCROW) >= r.requestedTotal + Reserve(LimitsOf(cfg, ESCROW))
    ensures EscrowPlan(cfg, v, r).ok ==> v.escrowKey == Resolved(EscrowPlan(cfg, v, r).signer)
    ensures EscrowPlan(cfg, v, r).status != Blank
  {
    hide Serviceable, Reserve, EscrowPreflight, SignReady, RefuseReady, FormatUint;
    ParseFormat(r.requestedTotal);
    PreflightClearsExactly(cfg, ESCROW, v, FormatUint(r.requestedTotal));
    EscrowIsPreflight(cfg, v, FormatUint(r.requestedTotal));
  }

  lemma EscrowIsPreflight(cfg: Config, v: View, amount: string)
    ensures PreflightFor(cfg, ESCROW, v, amount) == EscrowPreflight(cfg, v, amount)
    ensures SignerOf(v, ESCROW) == v.escrowKey
  {
    hide EscrowPreflight;
  }

  lemma PayoutPlanSigner(cfg: Config, v: View, r: RunResponse)
    requires !r.ok && PayoutPlan(cfg, v, r).ok
    ensures v.payoutKey == Resolved(PayoutPlan(cfg, v, r).signer)
  {
    hide IsWoloAddress, SignReady, RefuseReady, CapacityFault, ReserveFault;
  }

  /**
   * Exactly when a run is admitted, whatever its role: it has payouts, is no bet market's under the payout role, and
   * its own signer is serviceable and covers the wrapped total and its reserve; then it is planned for that signer.
   */
  lemma PlanAdmittedExactly(cfg: Config, v: View, request: RunRequest)
    ensures var (n, r) := PlanRun(cfg, v, request);
            (r.ok <==> |n.payouts| > 0 && !NeedsEscrow(n) && Serviceable(cfg, v, n.role) &&
                       BalanceOf(v, n.role) >= Wrap(Sum(Values(n.payouts))) + Reserve(LimitsOf(cfg, n.role))) &&
            (r.ok ==> SignerOf(v, n.role) == Resolved(r.signer))
  {
    hide Prepare, Finalize, PayoutPlan, EscrowPlan, HasReady, NeedsEscrow, Serviceable, Reserve, Wrap, Sum, LimitsOf;
    var (n, p) := Prepare(request);
    PrepareFacts(request);
    ReadyRun(request);
    FinalizeKeeps(p);
    FinalizeKeeps(RefuseRun(p, "ESCROW_SIGNER_REQUIRED", false));
    var q := p.(estimatedFee := EstimatedFee(cfg, |n.payouts|));
    PayoutPlanOkExactly(cfg, v, q);
    EscrowPlanOkExactly(cfg, v, q);
    FinalizeKeeps(PayoutPlan(cfg, v, q));
    FinalizeKeeps(EscrowPlan(cfg, v, q));
    if PayoutPlan(cfg, v, q).ok {
      PayoutPlanSigner(cfg, v, q);
    }
    NoPayoutsWithoutHeader(request);
  }

  lemma NoPayoutsWithoutHeader(request: RunRequest)
    ensures |Prepare(request).0.payouts| > 0 ==> ValidRunHeader(request)
  {
    hide PrepareLines, ValidRunHeader, RunRole, Trim;
  }

  /** The run a payout plan was made for, whatever balance it saw. */
  ghost predicate PayoutPlanned(cfg: Config, v: View, request: RunRequest) {
    var (n, p) := Prepare(request);
    var q := p.(estimatedFee := EstimatedFee(cfg, |n.payouts|));
    !q.ok && n.role == PAYOUT && PlanRun(cfg, v, request) == (n, Finalize(PayoutPlan(cfg, v, q)))
  }

  lemma PlannedWithBalance(cfg: Config, v: View, v': View, request: RunRequest)
    requires PlanRun(cfg, v, request).1.payoutBalanceBefore.Some?
    ensures PayoutPlanned(cfg, v, request) && PayoutPlanned(cfg, v', request)
  {
    hide Prepare, Finalize, PayoutPlan, EscrowPlan, RefuseRun, NeedsEscrow, HasReady, ValidRunHeader;
    PrepareFacts(request);
    var (n, p) := Prepare(request);
    PreparedBalance(request);
    RefusedBalance(p, "ESCROW_SIGNER_REQUIRED", false);
    var q := p.(estimatedFee := EstimatedFee(cfg, |n.payouts|));
    EscrowPlanBalance(cfg, v, q);
    if !HasReady(p.lines) {
      FinalizeKeeps(p);
    } else if NeedsEscrow(n) {
      FinalizeKeeps(RefuseRun(p, "ESCROW_SIGNER_REQUIRED", false));
    } else if n.role == ESCROW {
      FinalizeKeeps(EscrowPlan(cfg, v, q));
    }
  }

  lemma PreparedBalance(request: RunRequest)
    ensures var (n, p) := Prepare(request);
            p.payoutBalanceBefore.None? && (HasReady(p.lines) ==> n.role == PAYOUT || n.role == ESCROW)
  {
    hide PrepareLines, RunRole, ValidRunId, ValidSourceApp, ValidEventId, Trim;
  }

  lemma RefusedBalance(r: RunResponse, code: string, retryable: bool)
    ensures var f := RefuseRun(r, code, retryable); f.payoutBalanceBefore == r.payoutBalanceBefore && f.status == Failed
  {
  }

  lemma EscrowPlanBalance(cfg: Config, v: View, r: RunResponse)
    ensures var f := EscrowPlan(cfg, v, r);
            f.payoutBalanceBefore == r.payoutBalanceBefore && f.status != Blank && f.estimatedFee == r.estimatedFee
  {
    hide EscrowPreflight, SignReady, RefuseReady;
  }

  /** The view after the top-up arrived. */
  function Credited(v: View, amount: U64): View {
    v.(payoutBalance := Some(Add(BalanceOf(v, PAYOUT), amount)))
  }

  /**
   * After crediting a required top-up the rebuilt run plan is admitted if and only if the exact need fits in 64 bits,
   * and the remainder above the reserve then covers the estimated fees.
   */
  lemma TopUpAdmitsRun(cfg: Config, v: View, sid: string, request: RunRequest)
    requires PlanRun(cfg, v, request).1.payoutBalanceBefore.Some?
    requires PlanTopUp(cfg, v, sid, PlanRun(cfg, v, request).1).Some? &&
             PlanTopUp(cfg, v, sid, PlanRun(cfg, v, request).1).value.required
    requires cfg.escrowAddress == "" || IsWoloAddress(cfg.escrowAddress)
    ensures var run := PlanRun(cfg, v, request).1; var t := PlanTopUp(cfg, v, sid, run).value;
            var v' := Credited(v, t.amount); var (n, r) := PlanRun(cfg, v', request);
            (r.ok <==> Need(cfg, run) < TWO64) && n == PlanRun(cfg, v, request).0 && n.role == PAYOUT &&
            (r.ok ==> Serviceable(cfg, v', PAYOUT) && r.requestedTotal == run.requestedTotal &&
                      BalanceOf(v', PAYOUT) - r.requestedTotal - Reserve(LimitsOf(cfg, PAYOUT)) ==
                      if run.estimatedFee.Some? then run.estimatedFee.value else 0)
  {
    hide Prepare, Finalize, PayoutPlan, PlanTopUp, Wrap, Add, IsWoloAddress, PlanRun, Reserve, HealthReport;
    var (n, p) := Prepare(request);
    var q := p.(estimatedFee := EstimatedFee(cfg, |n.payouts|));
    var run := PlanRun(cfg, v, request).1;
    var t := PlanTopUp(cfg, v, sid, run).value;
    var v' := Credited(v, t.amount);
    PlannedWithBalance(cfg, v, v', request);
    PayoutPlanOkExactly(cfg, v, q);
    PayoutPlanOkExactly(cfg, v', q);
    FinalizeKeeps(PayoutPlan(cfg, v, q));
    FinalizeKeeps(PayoutPlan(cfg, v', q));
    HealthBalance(cfg, v, v');
    TopUpExact(cfg, v, sid, run, 0);
    WrapBound(Need(cfg, run));
    WrapSmall(BalanceOf(v, PAYOUT) + t.amount);
    Added(BalanceOf(v, PAYOUT), t.amount);
  }

  lemma HealthBalance(cfg: Config, v: View, v': View)
    requires HealthReport(cfg, v).balance.Some? && v' == v.(payoutBalance := v'.payoutBalance) && v'.payoutBalance.Some?
    requires cfg.escrowAddress == "" || IsWoloAddress(cfg.escrowAddress)
    ensures HealthReport(cfg, v).balance == Some(BalanceOf(v, PAYOUT)) && Serviceable(cfg, v', PAYOUT)
  {
    hide IsWoloAddress, ReserveFault;
  }

  /**
   * A topped-up challenge run whose exact total fits pays every line: the estimated fees are what is left
   * above the reserve.
   */
  lemma ToppedUpRunClears(cfg: Config, v: View, sid: string, request: RunRequest, views: seq<View>, fees: seq<nat>)
    requires PlanRun(cfg, v, request).1.payoutBalanceBefore.Some?
    requires PlanTopUp(cfg, v, sid, PlanRun(cfg, v, request).1).Some? &&
             PlanTopUp(cfg, v, sid, PlanRun(cfg, v, request).1).value.required
    requires cfg.escrowAddress == "" || IsWoloAddress(cfg.escrowAddress)
    requires Need(cfg, PlanRun(cfg, v, request).1) < TWO64
    requires var n := PlanRun(cfg, v, request).0;
             |views| == |fees| == |n.payouts| && AllServiceable(cfg, PAYOUT, views) && Readable(n.payouts) &&
             Sum(Values(n.payouts)) < TWO64 &&
             OwnDebitsOnly(BalanceOf(Credited(v, PlanTopUp(cfg, v, sid, PlanRun(cfg, v, request).1).value.amount),
                                     PAYOUT),
                           Balances(cfg, PAYOUT, views), Values(n.payouts), fees)
    requires var fee := PlanRun(cfg, v, request).1.estimatedFee; Sum(fees) <= if fee.Some? then fee.value else 0
    ensures EveryLineClears(cfg, PAYOUT, views, PlanRun(cfg, v, request).0.payouts)
  {
    hide *;
    TopUpAdmitsRun(cfg, v, sid, request);
    var v' := Credited(v, PlanTopUp(cfg, v, sid, PlanRun(cfg, v, request).1).value.amount);
    var (n, r) := PlanRun(cfg, v', request);
    AdmittedRunClears(cfg, v', request, n, r, views, fees);
  }

  /** The fee of every line of a run with n payouts. */
  function FeeEach(cfg: Config, n: nat): (fees: seq<nat>)
    ensures |fees| == n
  {
    seq(n, _ => if cfg.feePerPayout.Some? then cfg.feePerPayout.value else 0)
  }

  lemma {:induction false} FeesSum(cfg: Config, n: nat)
    ensures Sum(FeeEach(cfg, n)) == n * (if cfg.feePerPayout.Some? then cfg.feePerPayout.value else 0)
  {
    if n > 0 {
      FeesSum(cfg, n - 1);
      assert FeeEach(cfg, n)[..n - 1] == FeeEach(cfg, n - 1);
    }
  }

  lemma EstimateSums(cfg: Config, n: nat)
    ensures var fee := EstimatedFee(cfg, n);
            (fee.Some? <==> n > 0 && cfg.feePerPayout.Some? && cfg.feePerPayout.value > 0) &&
            (if fee.Some? then fee.value else 0) == Wrap(Sum(FeeEach(cfg, n)))
  {
    hide FeeEach, Wrap, Sum;
    FeesSum(cfg, n);
    WrapSmall(0);
    if cfg.feePerPayout.Some? {
      Commutes(n, cfg.feePerPayout.value);
    }
  }

  lemma Commutes(x: nat, y: nat)
    ensures x * y == y * x && (y == 0 ==> x * y == 0)
  {
  }

  lemma PlansKeepFee(cfg: Config, v: View, r: RunResponse)
    requires !r.ok
    ensures Finalize(PayoutPlan(cfg, v, r)).estimatedFee == r.estimatedFee &&
            Finalize(EscrowPlan(cfg, v, r)).estimatedFee == r.estimatedFee
  {
    hide Finalize, PayoutPlan, EscrowPlan;
    PayoutPlanOkExactly(cfg, v, r);
    EscrowPlanBalance(cfg, v, r);
    FinalizeKeeps(PayoutPlan(cfg, v, r));
    FinalizeKeeps(EscrowPlan(cfg, v, r));
  }

  /**
   * What the estimate of a plan is: one fee for each payout, summed modulo 2^64, whenever the plan got as far as a
   * signer, and nothing otherwise.
   */
  lemma EstimateIsSum(cfg: Config, v: View, request: RunRequest)
    ensures var (n, r) := PlanRun(cfg, v, request);
            var fee := if r.estimatedFee.Some? then r.estimatedFee.value else 0;
            fee == if |n.payouts| > 0 && !NeedsEscrow(n) then Wrap(Sum(FeeEach(cfg, |n.payouts|))) else 0
  {
    hide Prepare, Finalize, PayoutPlan, EscrowPlan, HasReady, NeedsEscrow, EstimatedFee, FeeEach, Sum, Wrap;
    var (n, p) := Prepare(request);
    PrepareFacts(request);
    ReadyRun(request);
    NoEstimateYet(request);
    FinalizeKeeps(p);
    FinalizeKeeps(RefuseRun(p, "ESCROW_SIGNER_REQUIRED", false));
    EstimateSums(cfg, |n.payouts|);
    PlansKeepFee(cfg, v, p.(estimatedFee := EstimatedFee(cfg, |n.payouts|)));
  }

  lemma NoEstimateYet(request: RunRequest)
    ensures Prepare(request).1.estimatedFee.None?
  {
    hide ValidRunHeader, PrepareLines, Trim, RunRole;
  }

  /**
   * A top-up pays the fee of every line: a topped-up run whose need, exact total and fees fit in 64 bits passes every
   * preflight when each line costs the configured fee.
   */
  lemma ToppedUpRunPaysEachFee(cfg: Config, v: View, sid: string, request: RunRequest, views: seq<View>)
    requires PlanRun(cfg, v, request).1.payoutBalanceBefore.Some?
    requires PlanTopUp(cfg, v, sid, PlanRun(cfg, v, request).1).Some? &&
             PlanTopUp(cfg, v, sid, PlanRun(cfg, v, request).1).value.required
    requires cfg.escrowAddress == "" || IsWoloAddress(cfg.escrowAddress)
    requires Need(cfg, PlanRun(cfg, v, request).1) < TWO64
    requires var n := PlanRun(cfg, v, request).0;
             |views| == |n.payouts| && AllServiceable(cfg, PAYOUT, views) && Readable(n.payouts) &&
             Sum(Values(n.payouts)) < TWO64 && Sum(FeeEach(cfg, |n.payouts|)) < TWO64 &&
             OwnDebitsOnly(BalanceOf(Credited(v, PlanTopUp(cfg, v, sid, PlanRun(cfg, v, request).1).value.amount),
                                     PAYOUT),
                           Balances(cfg, PAYOUT, views), Values(n.payouts), FeeEach(cfg, |n.payouts|))
    ensures EveryLineClears(cfg, PAYOUT, views, PlanRun(cfg, v, request).0.payouts)
  {
    hide *;
    var (n, r) := PlanRun(cfg, v, request);
    EstimateIsSum(cfg, v, request);
    PayoutsOfBalance(cfg, v, request);
    WrapSmall(Sum(FeeEach(cfg, |n.payouts|)));
    ToppedUpRunClears(cfg, v, sid, request, views, FeeEach(cfg, |n.payouts|));
  }

  /** A plan that looked at the payout balance has payouts, and may pay them from there. */
  lemma PayoutsOfBalance(cfg: Config, v: View, request: RunRequest)
    requires PlanRun(cfg, v, request).1.payoutBalanceBefore.Some?
    ensures var n := PlanRun(cfg, v, request).0; |n.payouts| > 0 && !NeedsEscrow(n)
  {
    hide Prepare, Finalize, PayoutPlan, EscrowPlan, RefuseRun, NeedsEscrow, HasReady;
    var (n, p) := Prepare(request);
    PrepareFacts(request);
    ReadyRun(request);
    PreparedBalance(request);
    RefusedBalance(p, "ESCROW_SIGNER_REQUIRED", false);
    FinalizeKeeps(p);
    FinalizeKeeps(RefuseRun(p, "ESCROW_SIGNER_REQUIRED", false));
  }

  /**
   * On any balance that covers the need the rebuilt run plan is admitted, and the remainder covers the estimated fees.
   */
  lemma CoveredRunIsAdmitted(cfg: Config, v: View, request: RunRequest, balance: U64)
    requires PlanRun(cfg, v, request).1.payoutBalanceBefore.Some? && balance >= Need(cfg, PlanRun(cfg, v, request).1)
    requires cfg.escrowAddress == "" || IsWoloAddress(cfg.escrowAddress)
    ensures var run := PlanRun(cfg, v, request).1; var r := PlanRun(cfg, v.(payoutBalance := Some(balance)), request).1;
            r.ok && r.requestedTotal == run.requestedTotal &&
            balance - r.requestedTotal - Reserve(LimitsOf(cfg, PAYOUT)) >=
            if run.estimatedFee.Some? then run.estimatedFee.value else 0
  {
    hide Prepare, Finalize, PayoutPlan, IsWoloAddress, PlanRun, Reserve, HealthReport;
    var (n, p) := Prepare(request);
    var q := p.(estimatedFee := EstimatedFee(cfg, |n.payouts|));
    var v' := v.(payoutBalance := Some(balance));
    PlannedWithBalance(cfg, v, v', request);
    PayoutPlanOkExactly(cfg, v, q);
    PayoutPlanOkExactly(cfg, v', q);
    FinalizeKeeps(PayoutPlan(cfg, v, q));
    FinalizeKeeps(PayoutPlan(cfg, v', q));
    HealthBalance(cfg, v, v');
  }

  /**
   * An accepted top-up lets the challenge pay exactly when the balance already covers the need of its run, and then the
   * run is admitted on that very balance, fees included; otherwise the challenge fails, stays retryable and keeps the
   * hash. A confirmed top-up lets it pay, and admits the run as soon as the credit shows.
   */
  lemma SettledTopUpAdmitsRun(cfg: Config, v: View, sid: string, request: RunRequest, answer: Response,
                              balance: Option<U64>)
    requires var run := PlanRun(cfg, v, request).1;
             run.payoutBalanceBefore.Some? && Need(cfg, run) < TWO64 && PlanTopUp(cfg, v, sid, run).Some? &&
             PlanTopUp(cfg, v, sid, run).value.required
    requires cfg.escrowAddress == "" || IsWoloAddress(cfg.escrowAddress)
    requires answer.ok && (answer.status == Accepted || answer.status == Confirmed)
    ensures var run := PlanRun(cfg, v, request).1; var t := PlanTopUp(cfg, v, sid, run).value;
            var settled := SettleTopUp(t, answer, balance);
            var rebuilt := PlanRun(cfg, v.(payoutBalance := balance), request).1;
            (answer.status == Accepted ==>
               (!TopUpFailed(settled) <==> balance.Some? && balance.value >= Need(cfg, run)) &&
               (!TopUpFailed(settled) ==> rebuilt.ok) &&
               (TopUpFailed(settled) ==>
                  settled.response.value.retryable && settled.response.value.txHash == answer.txHash)) &&
            (answer.status == Confirmed ==>
               !TopUpFailed(settled) &&
               (balance.Some? && balance.value >= run.payoutBalanceBefore.value + t.amount ==> rebuilt.ok))
  {
    hide PlanRun, Need, Reserve, IsWoloAddress, RequiredBalance, TopUpId, Trim;
    var run := PlanRun(cfg, v, request).1;
    RequiredIsNeed(cfg, run);
    WrapSmall(Need(cfg, run));
    TopUpExact(cfg, v, sid, run, 0);
    if balance.Some? && balance.value >= Need(cfg, run) {
      CoveredRunIsAdmitted(cfg, v, request, balance.value);
    }
  }
}

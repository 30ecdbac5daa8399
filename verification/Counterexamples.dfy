/** Concrete inputs on which a promise fails where the exact conditions proved elsewhere say it must. */
module Counterexamples {
  import opened Text
  import opened Amounts
  import opened Ids
  import opened Records
  import opened Signers
  import opened Transfers
  import opened Runs
  import opened RunLaws
  import opened Challenges
  import opened TopUps

  const CFG := Config("payout", "", "", "", "", true, 0, 0, 0, 0, None)

  /** A payout account without any funds. */
  const BROKE := View(None, Resolved("wolo1p"), Some(0), Unresolved, None)

  function Pay(id: string, amount: U64): RawRequest {
    RawRequest(id, "wolo1r", FormatUint(amount), 0, "")
  }

  const TWO_HALVES := RunRequest("run-1", "", "", "", "", "", [Pay("pay-1", TWO63), Pay("pay-2", TWO63)])

  lemma Names()
    ensures IsWoloAddress("wolo1r") && Trim("wolo1r") == "wolo1r"
    ensures RequestIdPattern("run-1") && RequestIdPattern("pay-1") && RequestIdPattern("pay-2")
    ensures Trim("run-1") == "run-1" && Trim("pay-1") == "pay-1" && Trim("pay-2") == "pay-2" && Trim("") == "" &&
            RunRole("") == PAYOUT
  {
    assert Lower("wolo1r") == "wolo1r";
    assert Lower("") == "";
  }

  lemma PayNormal(id: string, amount: U64)
    requires RequestIdPattern(id) && Trim(id) == id && amount > 0
    ensures ItemRaw("run-1", "", 0, Pay(id, amount)) == Pay(id, amount) &&
            ItemRaw("run-1", "", 1, Pay(id, amount)) == Pay(id, amount)
    ensures Normalize(Pay(id, amount), PAYOUT) == Some(Request(id, "wolo1r", FormatUint(amount), "", PAYOUT))
    ensures LineAmount(FormatUint(amount)) == amount
  {
    hide IsWoloAddress, FormatUint, ParseUint;
    Names();
    ParseFormat(amount);
    NotZero(amount);
  }

  lemma NotZero(amount: U64)
    requires amount > 0
    ensures FormatUint(amount) != "0"
  {
    DigitsOfFormat(amount);
    assert DigitsValue("0") == 0;
  }

  /** One payout line, prepared. */
  lemma PrepareOne(prep: Prep, id: string, amount: U64)
    requires RequestIdPattern(id) && Trim(id) == id && amount > 0 && id !in prep.seen && |prep.lines| <= 1
    ensures var p := PrepareLine("run-1", "", PAYOUT, prep, Pay(id, amount));
            p.payouts == prep.payouts + [Payout(|prep.lines|, id, "wolo1r", FormatUint(amount), "")] &&
            p.total == Add(prep.total, amount) && p.lines[|prep.lines|].outcome == Ready && p.seen == prep.seen + {id}
  {
    hide Normalize, ItemRaw, FormatUint, LineAmount, RequestIdPattern;
    PayNormal(id, amount);
  }

  lemma PreparedHalves()
    ensures var (n, p) := Prepare(TWO_HALVES);
            HasReady(p.lines) && n.role == PAYOUT && n.sourceApp == "" && p.requestedTotal == 0 && !p.ok &&
            n.payouts == [Payout(0, "pay-1", "wolo1r", FormatUint(TWO63), ""),
                          Payout(1, "pay-2", "wolo1r", FormatUint(TWO63), "")]
  {
    hide FormatUint, IsWoloAddress, RequestIdPattern, PrepareLine, PrepareLines;
    Names();
    var raws := TWO_HALVES.payouts;
    PrepareSnoc("run-1", "", PAYOUT, raws, 0);
    PrepareSnoc("run-1", "", PAYOUT, raws, 1);
    NothingPrepared(raws[..0]);
    assert raws[..2] == raws;
    var one := PrepareLines("run-1", "", PAYOUT, raws[..1]);
    PrepareOne(PrepareLines("run-1", "", PAYOUT, raws[..0]), "pay-1", TWO63);
    PrepareOne(one, "pay-2", TWO63);
    assert PrepareLines("run-1", "", PAYOUT, raws).lines[1].outcome == Ready;
  }

  lemma NothingPrepared(none: seq<RawRequest>)
    requires none == []
    ensures PrepareLines("run-1", "", PAYOUT, none) == Prep([], [], {}, false, 0)
  {
  }

  lemma NoMarket(n: NormRun)
    requires n.sourceApp == ""
    ensures !NeedsEscrow(n)
  {
    assert Trim("") == "" && Lower("") == "";
  }

  /** What planning a payout run of this source comes to. */
  lemma PlannedAs(cfg: Config, request: RunRequest)
    requires var (n, p) := Prepare(request); HasReady(p.lines) && n.role == PAYOUT && n.sourceApp == "" && !p.ok
    ensures var (n, p) := Prepare(request); var q := p.(estimatedFee := EstimatedFee(cfg, |n.payouts|));
            PlanRun(cfg, BROKE, request) == (n, Finalize(PayoutPlan(cfg, BROKE, q)))
  {
    hide Prepare, Finalize, PayoutPlan, HasReady, NeedsEscrow;
    NoMarket(Prepare(request).0);
  }

  lemma HalvesStop()
    ensures !PreflightFor(CFG, PAYOUT, BROKE, FormatUint(TWO63)).Cleared? && Serviceable(CFG, BROKE, PAYOUT)
  {
    hide FormatUint, ParseUint, Trim;
    ParseFormat(TWO63);
    PreflightClearsExactly(CFG, PAYOUT, BROKE, FormatUint(TWO63));
  }

  /**
   * A run of two halves of 2^64 has a wrapped total of zero: its plan is admitted on an empty account, and then no line
   * clears its preflight, as the exact condition says.
   */
  lemma WrappedRunIsAdmitted()
    ensures var (n, r) := PlanRun(CFG, BROKE, TWO_HALVES);
            r.ok && n.role == PAYOUT && |n.payouts| == 2 && Sum(Values(n.payouts)) >= TWO64 &&
            ClearedLinesDebit(CFG, PAYOUT, 0, [BROKE, BROKE], n.payouts, [0, 0]) &&
            !EveryLineClears(CFG, PAYOUT, [BROKE, BROKE], n.payouts) &&
            forall k :: 0 <= k < 2 ==> !PreflightFor(CFG, PAYOUT, BROKE, n.payouts[k].amount).Cleared?
  {
    hide FormatUint, Prepare, PlanRun, PreflightFor, LineAmount, Finalize, PayoutPlan, Sum, Values, Serviceable;
    PreparedHalves();
    PlannedAs(CFG, TWO_HALVES);
    var (n, p) := Prepare(TWO_HALVES);
    var q := p.(estimatedFee := EstimatedFee(CFG, |n.payouts|));
    HalvesStop();
    PayoutPlanOkExactly(CFG, BROKE, q);
    FinalizeKeeps(PayoutPlan(CFG, BROKE, q));
    NoFees();
    AdmittedRunClearsExactly(CFG, BROKE, TWO_HALVES, n, PlanRun(CFG, BROKE, TWO_HALVES).1, [BROKE, BROKE], [0, 0]);
    ReadableHalves(n.payouts);
  }

  lemma NoFees()
    ensures Sum([0, 0]) == 0
  {
    assert [0, 0][..1] == [0] && [0][..0] == [];
    assert Sum([0]) == 0;
  }

  lemma ReadableHalves(payouts: seq<Payout>)
    requires forall k :: 0 <= k < |payouts| ==> payouts[k].amount == FormatUint(TWO63)
    ensures Readable(payouts)
  {
    hide FormatUint, ParseUint;
    ParseFormat(TWO63);
  }

  const FLOOR := CFG.(payoutFloor := 1)
  const WHOLE := RunRequest("run-1", "", "", "", "", "", [Pay("pay-1", TWO64 - 1)])

  lemma PreparedWhole()
    ensures var (n, p) := Prepare(WHOLE);
            HasReady(p.lines) && n.role == PAYOUT && n.sourceApp == "" && p.requestedTotal == TWO64 - 1 && !p.ok &&
            |n.payouts| == 1
  {
    hide FormatUint, IsWoloAddress, RequestIdPattern, PrepareLine, PrepareLines;
    Names();
    var raws := WHOLE.payouts;
    PrepareSnoc("run-1", "", PAYOUT, raws, 0);
    NothingPrepared(raws[..0]);
    assert raws[..1] == raws;
    PrepareOne(PrepareLines("run-1", "", PAYOUT, raws[..0]), "pay-1", TWO64 - 1);
    assert PrepareLines("run-1", "", PAYOUT, raws).lines[0].outcome == Ready;
  }

  /**
   * A run of 2^64 - 1 on an empty account with a floor of one is refused, and its need of exactly 2^64 wraps to zero:
   * no top-up is planned although the account is short of everything.
   */
  lemma WrappedNeedPlansNoTopUp()
    ensures var run := PlanRun(FLOOR, BROKE, WHOLE).1; var t := PlanTopUp(FLOOR, BROKE, "run-1", run);
            !run.ok && run.payoutBalanceBefore == Some(0) && Need(FLOOR, run) == TWO64 && t.Some? &&
            !t.value.required && t.value.amount == 0
  {
    hide Prepare, PlanRun, Finalize, PayoutPlan, TopUpId, Trim;
    PreparedWhole();
    PlannedAs(FLOOR, WHOLE);
    var (n, p) := Prepare(WHOLE);
    var q := p.(estimatedFee := EstimatedFee(FLOOR, |n.payouts|));
    PayoutPlanOkExactly(FLOOR, BROKE, q);
    FinalizeKeeps(PayoutPlan(FLOOR, BROKE, q));
    RequiredIsNeed(FLOOR, PlanRun(FLOOR, BROKE, WHOLE).1);
  }

  const STRICT := CFG.(payoutFloor := 5)

  /** A payout account with three left. */
  const LOW := BROKE.(payoutBalance := Some(3))

  /**
   * With a balance below the floor a payout of one is refused for good: its record is replayed ever after, although the
   * same refusal without a floor, for a payout of four, can be tried again.
   */
  lemma LowReserveIsFinal(req: Request)
    ensures var p := PreflightFor(STRICT, PAYOUT, LOW, "1"); var q := PreflightFor(CFG, PAYOUT, LOW, "4");
            p.Stopped? && q.Stopped? && !p.retryable && q.retryable &&
            Decide(Some(NewRecord(req, "wolo1p", Refusal(req, p))), req) ==
            Some(Refusal(req, p).(replay := true)) &&
            Decide(Some(NewRecord(req, "wolo1p", Refusal(req, q))), req) == None
  {
    hide IsWoloAddress, PreflightFor, Trim;
    Numbers();
    PreflightClearsExactly(STRICT, PAYOUT, LOW, "1");
    PreflightClearsExactly(CFG, PAYOUT, LOW, "4");
    RefusalsToRetry(STRICT, PAYOUT, LOW, "1");
    RefusalsToRetry(CFG, PAYOUT, LOW, "4");
  }

  lemma Numbers()
    ensures Trim("1") == "1" && Trim("4") == "4" && ParseUint("1") == Some(1) && ParseUint("4") == Some(4)
  {
    assert "1"[..0] == "" && "4"[..0] == "";
  }
}

/** Grouped runs: preparing the lines, planning against one signer, and tallying the results. */
module Runs {
  import opened Text
  import opened Amounts
  import opened Ids
  import opened Records
  import opened Signers
  import opened Transfers

  const MAX_RUN_PAYOUTS := 250

  datatype RunRequest = RunRequest(
    runId: string, sourceApp: string, sourceEventId: string, note: string, memo: string, role: string,
    payouts: seq<RawRequest>)

  datatype Payout = Payout(index: nat, id: string, to: string, amount: string, memo: string)

  /** A normalized run request; it is also the run's fingerprint. */
  datatype NormRun = NormRun(
    runId: string, sourceApp: string, sourceEventId: string, note: string, memo: string, role: string,
    payouts: seq<Payout>)

  datatype Line = Line(
    index: nat, id: string, attempted: bool, ok: bool, status: Status, outcome: Outcome, failureCode: string,
    retryable: bool, replay: bool, role: string, signer: string, to: string, amount: string, memo: string,
    txHash: string)

  /** Counts and wrapping totals over the lines of a run or a challenge. */
  datatype Tally = Tally(
    executed: nat, confirmed: nat, accepted: nat, refused: nat, rejected: nat, replayed: nat,
    executedTotal: U64, confirmedTotal: U64, acceptedTotal: U64, refusedTotal: U64, rejectedTotal: U64,
    retryable: bool)

  const ZERO := Tally(0, 0, 0, 0, 0, 0, 0, 0, 0, 0, 0, false)

  datatype RunResponse = RunResponse(
    ok: bool, status: Status, failureCode: string, retryable: bool, replay: bool,
    runId: string, role: string, signer: string,
    requested: nat, requestedTotal: U64, tally: Tally,
    balanceBefore: Option<U64>, payoutBalanceBefore: Option<U64>, estimatedFee: Option<U64>,
    lines: seq<Line>)

  datatype RunRecord = RunRecord(request: NormRun, fingerprint: NormRun, response: RunResponse)

  const EMPTY_RUN := NormRun("", "", "", "", "", "", [])

  // ---------------------------------------------------------------- preparing the lines

  datatype Prep = Prep(payouts: seq<Payout>, lines: seq<Line>, seen: set<string>, invalid: bool, total: U64)

  function LineAmount(amount: string): U64 {
    if OptionalAmount(amount).Some? then OptionalAmount(amount).value else 0
  }

  function ItemRaw(runId: string, memo: string, index: nat, raw: RawRequest): RawRequest {
    var id := if Trim(raw.id) == "" then ItemId(runId, index) else Trim(raw.id);
    var itemMemo := if Trim(raw.memo) == "" then memo else Trim(raw.memo);
    RawRequest(id, raw.to, raw.amountUWolo, raw.amountWolo, itemMemo)
  }

  /** One pass of the loop in prepareSettlementRunRequest. */
  function PrepareLine(runId: string, memo: string, role: string, prep: Prep, raw: RawRequest): Prep {
    var index := |prep.lines|;
    var item := ItemRaw(runId, memo, index, raw);
    var n := Normalize(item, role);
    var bad := Line(index, item.id, false, false, Failed, Invalid, "INVALID_PAYOUT", false, false, role, "", "", "",
                    item.memo, "");
    if n.None? then prep.(lines := prep.lines + [bad], invalid := true)
    else if n.value.id in prep.seen then
      prep.(lines := prep.lines +
            [bad.(to := n.value.to, amount := n.value.amount, failureCode := "DUPLICATE_REQUEST_ID")],
            invalid := true)
    else
      var ready := Line(index, item.id, false, true, Validated, Ready, "", false, false, role, "", n.value.to,
                        n.value.amount, n.value.memo, "");
      Prep(prep.payouts + [Payout(index, n.value.id, n.value.to, n.value.amount, n.value.memo)],
           prep.lines + [ready], prep.seen + {n.value.id}, prep.invalid, Add(prep.total, LineAmount(n.value.amount)))
  }

  function PrepareLines(runId: string, memo: string, role: string, raws: seq<RawRequest>): (p: Prep)
    ensures |p.lines| == |raws|
  {
    if |raws| == 0 then Prep([], [], {}, false, 0)
    else PrepareLine(runId, memo, role, PrepareLines(runId, memo, role, raws[..|raws| - 1]), raws[|raws| - 1])
  }

  lemma PrepareSnoc(runId: string, memo: string, role: string, raws: seq<RawRequest>, i: nat)
    requires i < |raws|
    ensures PrepareLines(runId, memo, role, raws[..i + 1]) ==
            PrepareLine(runId, memo, role, PrepareLines(runId, memo, role, raws[..i]), raws[i])
  {
    assert raws[..i + 1][..i] == raws[..i];
  }

  method PrepareLinesLoop(runId: string, memo: string, role: string, raws: seq<RawRequest>) returns (p: Prep)
    ensures p == PrepareLines(runId, memo, role, raws)
  {
    var payouts: seq<Payout>, lines: seq<Line>, seen: set<string> := [], [], {};
    var invalid, total: U64 := false, 0;
    for index := 0 to |raws|
      invariant Prep(payouts, lines, seen, invalid, total) == PrepareLines(runId, memo, role, raws[..index])
    {
      var raw := raws[index];
      PrepareSnoc(runId, memo, role, raws, index);
      var item := ItemRaw(runId, memo, index, raw);
      var line := Line(index, item.id, false, false, Failed, Invalid, "", false, false, role, "", "", "",
                       item.memo, "");
      match Normalize(item, role) {
        case None =>
          lines := lines + [line.(failureCode := "INVALID_PAYOUT")];
          invalid := true;
        case Some(n) =>
          line := line.(to := n.to, amount := n.amount);
          if n.id in seen {
            lines := lines + [line.(failureCode := "DUPLICATE_REQUEST_ID")];
            invalid := true;
          } else {
            seen := seen + {n.id};
            payouts := payouts + [Payout(index, n.id, n.to, n.amount, n.memo)];
            total := Add(total, LineAmount(n.amount));
            lines := lines + [line.(ok := true, status := Validated, outcome := Ready, memo := n.memo)];
          }
      }
    }
    assert raws[..|raws|] == raws;
    p := Prep(payouts, lines, seen, invalid, total);
  }

  function RunRole(role: string): string {
    var r := Trim(Lower(role));
    if r == "" then PAYOUT else r
  }

  predicate ValidRunHeader(r: RunRequest) {
    RunRole(r.role) in {PAYOUT, ESCROW} && ValidRunId(Trim(r.runId)) && ValidSourceApp(Trim(r.sourceApp)) &&
    ValidEventId(Trim(r.sourceEventId)) && 1 <= |r.payouts| <= MAX_RUN_PAYOUTS
  }

  function StartRun(r: RunRequest): RunResponse {
    RunResponse(false, Failed, "", false, false, Trim(r.runId), RunRole(r.role), "", 0, 0, ZERO, None, None, None, [])
  }

  /** prepareSettlementRunRequest. An invalid header leaves the normalized request empty. */
  function Prepare(r: RunRequest): (NormRun, RunResponse) {
    if !ValidRunHeader(r) then (EMPTY_RUN, StartRun(r).(failureCode := "INVALID_RUN"))
    else
      var runId, memo, role := Trim(r.runId), Cut(Trim(r.memo), 180), RunRole(r.role);
      var p := PrepareLines(runId, memo, role, r.payouts);
      (NormRun(runId, Trim(r.sourceApp), Trim(r.sourceEventId), Cut(Trim(r.note), 280), memo, role, p.payouts),
       StartRun(r).(requested := |r.payouts|, requestedTotal := p.total, lines := p.lines,
                    failureCode := if p.invalid then "INVALID_RUN" else ""))
  }

  // ---------------------------------------------------------------- tallying

  function TallyLine(t: Tally, status: Status, outcome: Outcome, replay: bool, retryable: bool,
                     amount: Option<U64>): Tally {
    if amount.None? then t
    else
      var a := amount.value;
      var t := match status
        case Confirmed => t.(confirmed := t.confirmed + 1, executed := t.executed + 1,
                             executedTotal := Add(t.executedTotal, a), confirmedTotal := Add(t.confirmedTotal, a))
        case Accepted => t.(accepted := t.accepted + 1, executed := t.executed + 1,
                            executedTotal := Add(t.executedTotal, a), acceptedTotal := Add(t.acceptedTotal, a))
        case _ => t;
      var t := match outcome
        case Refused => t.(refused := t.refused + 1, refusedTotal := Add(t.refusedTotal, a))
        case Invalid => t.(refused := t.refused + 1, refusedTotal := Add(t.refusedTotal, a))
        case Rejected => t.(rejected := t.rejected + 1, rejectedTotal := Add(t.rejectedTotal, a))
        case _ => t;
      t.(replayed := t.replayed + (if replay then 1 else 0), retryable := t.retryable || retryable)
  }

  /** The tally of the lines, added to the counters a response already holds; totals always start again. */
  function TallyLines(start: Tally, lines: seq<Line>): Tally {
    if |lines| == 0 then start
    else
      var l := lines[|lines| - 1];
      TallyLine(TallyLines(start, lines[..|lines| - 1]), l.status, l.outcome, l.replay, l.retryable,
                OptionalAmount(l.amount))
  }

  /** Counters carry over, totals do not. */
  function Recount(t: Tally, retryable: bool): Tally {
    t.(executedTotal := 0, confirmedTotal := 0, acceptedTotal := 0, refusedTotal := 0, rejectedTotal := 0,
       retryable := retryable)
  }

  function FirstFailureCode(lines: seq<Line>): string {
    if |lines| == 0 then ""
    else if Trim(lines[0].failureCode) != "" then lines[0].failureCode
    else FirstFailureCode(lines[1..])
  }

  /** deriveSettlementRunStatus and deriveSettlementChallengeStatus: only called while the status is blank. */
  function DeriveStatus(requested: nat, t: Tally): Status {
    if t.confirmed == requested && requested > 0 then Confirmed
    else if t.executed == requested && requested > 0 then Accepted
    else if t.executed > 0 && (t.refused > 0 || t.rejected > 0) then Partial
    else if t.executed == 0 && (t.refused > 0 || t.rejected > 0) then Failed
    else Blank
  }

  /** finalizeSettlementRunResponse. */
  function Finalize(r: RunResponse): RunResponse {
    var t := TallyLines(Recount(r.tally, r.retryable), r.lines);
    var requested := if r.requested == 0 then |r.lines| else r.requested;
    var r' := r.(tally := t, requested := requested, retryable := t.retryable);
    if r.status != Blank then r'
    else if r.failureCode == "INVALID_RUN" then r'.(status := Failed, ok := false)
    else
      var s := DeriveStatus(requested, t);
      r'.(status := s,
          ok := if s == Blank then r.ok else s == Confirmed || s == Accepted,
          failureCode := match s
            case Confirmed => ""
            case Accepted => ""
            case Partial =>
              FirstNonEmpty(r.failureCode, FirstNonEmpty(FirstFailureCode(r.lines), "RUN_PARTIAL_FAILURE"))
            case Failed => FirstNonEmpty(r.failureCode, FirstNonEmpty(FirstFailureCode(r.lines), "RUN_FAILED"))
            case _ => r.failureCode)
  }

  lemma TallyNext(start: Tally, lines: seq<Line>, i: nat)
    requires i < |lines|
    ensures var l := lines[i];
            TallyLines(start, lines[..i + 1]) ==
            TallyLine(TallyLines(start, lines[..i]), l.status, l.outcome, l.replay, l.retryable,
                      OptionalAmount(l.amount))
  {
    hide TallyLine, OptionalAmount;
    assert lines[..i + 1][..i] == lines[..i];
  }

  /** The counting loop shared by both finalizers. */
  method TallyLoop(start: Tally, lines: seq<Line>) returns (t: Tally)
    ensures t == TallyLines(start, lines)
  {
    hide TallyLines, OptionalAmount, Add;
    t := start;
    assert TallyLines(start, lines[..0]) == start by { EmptyTally(start, lines[..0]); }
    for i := 0 to |lines|
      invariant t == TallyLines(start, lines[..i])
    {
      var line := lines[i];
      TallyNext(start, lines, i);
      var amount := OptionalAmount(line.amount);
      if amount.None? {
        continue;
      }
      var a := amount.value;
      if line.status == Confirmed {
        t := t.(confirmed := t.confirmed + 1, executed := t.executed + 1,
                executedTotal := Add(t.executedTotal, a), confirmedTotal := Add(t.confirmedTotal, a));
      } else if line.status == Accepted {
        t := t.(accepted := t.accepted + 1, executed := t.executed + 1,
                executedTotal := Add(t.executedTotal, a), acceptedTotal := Add(t.acceptedTotal, a));
      }
      if line.outcome == Refused || line.outcome == Invalid {
        t := t.(refused := t.refused + 1, refusedTotal := Add(t.refusedTotal, a));
      } else if line.outcome == Rejected {
        t := t.(rejected := t.rejected + 1, rejectedTotal := Add(t.rejectedTotal, a));
      }
      if line.replay {
        t := t.(replayed := t.replayed + 1);
      }
      if line.retryable {
        t := t.(retryable := true);
      }
    }
    assert lines[..|lines|] == lines;
  }

  lemma EmptyTally(start: Tally, none: seq<Line>)
    requires none == []
    ensures TallyLines(start, none) == start
  {
  }

  // ---------------------------------------------------------------- planning

  predicate HasReady(lines: seq<Line>) {
    exists i :: 0 <= i < |lines| && lines[i].outcome == Ready
  }

  /** markRunReadyPayoutsRefused. */
  function RefuseReady(lines: seq<Line>, code: string, retryable: bool): (r: seq<Line>)
    ensures |r| == |lines|
  {
    seq(|lines|, i requires 0 <= i < |lines| =>
      if lines[i].outcome != Ready then lines[i]
      else lines[i].(ok := false, status := Failed, outcome := Refused, failureCode := code, retryable := retryable))
  }

  function SignReady(lines: seq<Line>, role: string, signer: string): (r: seq<Line>)
    ensures |r| == |lines|
  {
    seq(|lines|, i requires 0 <= i < |lines| =>
      if lines[i].outcome != Ready then lines[i] else lines[i].(role := role, signer := signer))
  }

  /** A run that settles an AoE2 bet market: its source says so, and its event or its run id does. */
  predicate BetMarket(n: NormRun) {
    Lower(Trim(n.sourceApp)) == "aoe2hdbets" &&
    ("bet-market-" <= Lower(Trim(n.sourceEventId)) || "aoe2-bet-market-" <= Lower(Trim(n.runId)))
  }

  /** requiresEscrowSignerForSettlementRun: bet-market runs may not be paid by the payout signer. */
  predicate NeedsEscrow(n: NormRun) {
    BetMarket(n) && n.role != ESCROW
  }

  function RefuseRun(r: RunResponse, code: string, retryable: bool): RunResponse {
    r.(ok := false, status := Failed, failureCode := code, retryable := retryable,
       lines := RefuseReady(r.lines, code, retryable))
  }

  /** estimateSettlementRunFee. */
  function EstimatedFee(cfg: Config, payouts: nat): Option<U64> {
    if payouts > 0 && cfg.feePerPayout.Some? && cfg.feePerPayout.value > 0
    then Some(Wrap(cfg.feePerPayout.value * payouts)) else None
  }

  /** buildPayoutSettlementRunPlan. */
  function PayoutPlan(cfg: Config, v: View, r: RunResponse): RunResponse {
    var h := HealthReport(cfg, v);
    var r := r.(role := PAYOUT, signer := h.address, payoutBalanceBefore := h.balance, balanceBefore := h.balance,
                lines := SignReady(r.lines, PAYOUT, h.address));
    var balance: U64 := if h.balance.Some? then h.balance.value else 0;
    if !h.ok then RefuseRun(r, h.code, h.code == "RPC_UNREACHABLE")
    else if cfg.payoutKeyName == "" then RefuseRun(r, "PAYOUT_SIGNER_UNCONFIGURED", false)
    else if h.address == "" then RefuseRun(r, "PAYOUT_SIGNER_UNAVAILABLE", false)
    else
      var fault := CapacityFault(LimitsOf(cfg, PAYOUT), balance, r.requestedTotal);
      if fault.Some? then RefuseRun(r, fault.value, true)
      else r.(ok := true, status := Validated)
  }

  /** buildEscrowSettlementRunPlan. */
  function EscrowPlan(cfg: Config, v: View, r: RunResponse): RunResponse {
    var p := EscrowPreflight(cfg, v, FormatUint(r.requestedTotal));
    var r := r.(role := ESCROW, signer := p.signer, lines := SignReady(r.lines, ESCROW, p.signer));
    if p.Stopped? then RefuseRun(r, p.code, p.retryable)
    else r.(balanceBefore := Some(p.balance), ok := true, status := Validated)
  }

  /** buildSettlementRunPlan. */
  function PlanRun(cfg: Config, v: View, request: RunRequest): (NormRun, RunResponse) {
    var (n, r) := Prepare(request);
    if !HasReady(r.lines) then (n, Finalize(r))
    else if NeedsEscrow(n) then (n, Finalize(RefuseRun(r, "ESCROW_SIGNER_REQUIRED", false)))
    else
      var r := r.(estimatedFee := EstimatedFee(cfg, |n.payouts|));
      (n, Finalize(if n.role == ESCROW then EscrowPlan(cfg, v, r) else PayoutPlan(cfg, v, r)))
  }

  // ---------------------------------------------------------------- executing

  function ItemRequest(p: Payout): RawRequest {
    RawRequest(p.id, p.to, p.amount, 0, p.memo)
  }

  /** settlementRunPayoutResultFromExecuteResponse. */
  function LineFrom(p: Payout, r: Response): Line {
    Line(p.index, r.id, true, r.ok, r.status, OutcomeOf(r), r.failureCode, r.retryable, r.replay, r.role, r.signer,
         r.to, r.amount, p.memo, r.txHash)
  }

  /** The response written after every line was executed: cleared, then finalized. */
  function ExecutedRun(plan: RunResponse, lines: seq<Line>): RunResponse {
    Finalize(plan.(lines := lines, ok := false, status := Blank, failureCode := "", retryable := false, replay := false,
                   tally := ZERO))
  }

  predicate HasRetryable(lines: seq<Line>) {
    exists i :: 0 <= i < |lines| && lines[i].retryable
  }

  /** settlementRunResponseIsFinal. */
  predicate FinalRun(r: RunResponse) {
    !HasRetryable(r.lines) && (r.ok || r.status == Failed || r.status == Partial)
  }

  function FailedRun(code: string, retryable: bool, runId: string, role: string): RunResponse {
    RunResponse(false, Failed, code, retryable, false, runId, role, "", 0, 0, ZERO, None, None, None, [])
  }

  /** What a run under its lock does with the record it read. */
  function DecideRun(stored: Option<RunRecord>, n: NormRun, plan: RunResponse): Option<RunResponse> {
    if stored.None? then None
    else if stored.value.fingerprint != n then
      Some(FailedRun("IDEMPOTENCY_CONFLICT", false, plan.runId, plan.role).(signer := plan.signer))
    else if FinalRun(stored.value.response) then Some(stored.value.response.(replay := true))
    else None
  }
}

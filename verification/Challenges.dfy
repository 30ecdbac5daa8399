/** Challenge settlements: proving deposits, spending every bucket exactly once, topping up, merging run results. */
module Challenges {
  import opened Text
  import opened Amounts
  import opened Ids
  import opened Records
  import opened Chain
  import opened Signers
  import opened Runs
  import opened Funding

  const WAGER := "wager"
  const GUARANTEE := "guarantee"

  datatype FundingInput = FundingInput(
    hash: string, depositor: string, runId: string, side: string, pid: string,
    expected: string, wager: string, guarantee: string)

  datatype TransferInput = TransferInput(
    id: string, side: string, pid: string, bucket: string, reason: string, to: string,
    amountUWolo: string, amountWolo: int, memo: string)

  datatype ChallengeRequest = ChallengeRequest(
    runId: string, sourceApp: string, challengeId: string, sourceEventId: string, treasury: string,
    note: string, memo: string, funding: seq<FundingInput>, transfers: seq<TransferInput>)

  datatype NormTransfer = NormTransfer(
    index: nat, id: string, side: string, pid: string, bucket: string, reason: string,
    to: string, amount: string, memo: string)

  /** A normalized challenge request; it is also the challenge's fingerprint. */
  datatype NormChallenge = NormChallenge(
    runId: string, sourceApp: string, challengeId: string, sourceEventId: string, treasury: string,
    note: string, memo: string, funding: seq<FundingInput>, transfers: seq<NormTransfer>)

  /** One bucket movement: the participant and bucket it spends, and the payout line that pays it. */
  datatype Move = Move(side: string, pid: string, bucket: string, reason: string, line: Line)

  datatype BucketTotals = BucketTotals(requested: U64, executed: U64, confirmed: U64, accepted: U64, refused: U64,
                                       rejected: U64)

  const NO_TOTALS := BucketTotals(0, 0, 0, 0, 0, 0)

  datatype TopUp = TopUp(
    required: bool, enabled: bool, possible: bool, code: string, id: string, from: string, to: string,
    amount: U64, target: U64, response: Option<Response>)

  datatype ChallengeResponse = ChallengeResponse(
    ok: bool, status: Status, failureCode: string, retryable: bool, replay: bool,
    runId: string, sourceApp: string, challengeId: string, sourceEventId: string,
    fundingVerified: nat, fundingTotal: Option<U64>, requested: nat, requestedTotal: Option<U64>,
    tally: Tally, buckets: map<string, BucketTotals>, topUp: Option<TopUp>,
    funding: seq<Deposit>, moves: seq<Move>, run: Option<RunResponse>)

  datatype ChallengeRecord = ChallengeRecord(request: NormChallenge, fingerprint: NormChallenge,
                                             response: ChallengeResponse)

  datatype ChallengePlan = ChallengePlan(norm: NormChallenge, response: ChallengeResponse, runRequest: RunRequest)

  // ---------------------------------------------------------------- verifying the deposits

  function TrimFunding(f: FundingInput): FundingInput {
    FundingInput(Upper(Trim(f.hash)), Trim(f.depositor), Trim(f.runId), Trim(f.side), Trim(f.pid),
                 Trim(f.expected), Trim(f.wager), Trim(f.guarantee))
  }

  function TrimAll(fs: seq<FundingInput>): (r: seq<FundingInput>)
    ensures |r| == |fs| && forall i :: 0 <= i < |fs| ==> r[i] == TrimFunding(fs[i])
  {
    seq(|fs|, i requires 0 <= i < |fs| => TrimFunding(fs[i]))
  }

  function ExpectationOf(n: NormChallenge, f: FundingInput): Expectation {
    Expectation(f.depositor, n.sourceApp, f.runId, n.challengeId, n.sourceEventId, f.side, f.pid, f.expected, f.wager,
                f.guarantee)
  }

  function VerifyAll(cfg: Config, chain: Ledger, fault: Option<string>, n: NormChallenge): (ds: seq<Deposit>)
    ensures |ds| == |n.funding|
  {
    seq(|n.funding|, i requires 0 <= i < |n.funding| =>
      VerifyDeposit(cfg, chain, fault, n.funding[i].hash, ExpectationOf(n, n.funding[i])))
  }

  predicate AllOk(ds: seq<Deposit>) {
    forall i :: 0 <= i < |ds| ==> ds[i].ok
  }

  /** The wrapped total of what the verified deposits carry. */
  function FundedTotal(ds: seq<Deposit>): U64 {
    if |ds| == 0 then 0
    else
      var d := ds[|ds| - 1];
      Add(FundedTotal(ds[..|ds| - 1]), if d.ok then LineAmount(d.total) else 0)
  }

  // ---------------------------------------------------------------- normalizing the transfers

  function MoveId(sid: string, index: nat, id: string): string {
    if Trim(id) == "" then ChallengeTransferId(sid, index) else Trim(id)
  }

  /** normalizeSettlementChallengeTransfer, without the verdict. */
  function NormalTransfer(t: TransferInput, sid: string, index: nat, memo: string, treasury: string): NormTransfer {
    var reason := Trim(Lower(t.reason));
    var to := if Trim(t.to) == "" && reason == "treasury" then treasury else Trim(t.to);
    var amount := NormalizeAmount(t.amountUWolo, t.amountWolo);
    NormTransfer(index, MoveId(sid, index, t.id), Trim(t.side), Trim(t.pid), Trim(Lower(t.bucket)), reason, to,
                 if amount.Some? then amount.value else "", Cut(if Trim(t.memo) == "" then memo else Trim(t.memo), 180))
  }

  predicate ValidTransfer(n: NormTransfer) {
    RequestIdPattern(n.id) && (n.side != "" || n.pid != "") && (n.side == "" || SidePattern(n.side)) &&
    ValidEventId(n.pid) &&
    (n.bucket == WAGER || n.bucket == GUARANTEE) && ReasonPattern(n.reason) && n.to != "" && IsWoloAddress(n.to) &&
    n.amount != ""
  }

  function AmountOf(n: NormTransfer): U64 {
    if ParseUint(n.amount).Some? then ParseUint(n.amount).value else 0
  }

  /** Why a normalized transfer cannot be a line of the plan, or nothing. */
  function TransferFault(ds: seq<Deposit>, treasury: string, n: NormTransfer, seen: set<string>): string {
    if !ValidTransfer(n) then "INVALID_TRANSFER"
    else if !Resolve(ds, n.side, n.pid).One? then "INVALID_TRANSFER_PARTICIPANT"
    else if EqualFold(n.reason, "treasury") && treasury != "" && !EqualFold(n.to, treasury)
    then "INVALID_TREASURY_ROUTE"
    else if n.id in seen then "DUPLICATE_REQUEST_ID"
    else ""
  }

  /** The result line of a planned transfer; a line that is spent reports the participant its deposit names. */
  function PlannedMove(ds: seq<Deposit>, n: NormTransfer, fault: string): Move {
    var good := fault == "";
    var ok := good || fault == "INVALID_TRANSFER_PARTICIPANT" || fault == "INVALID_TREASURY_ROUTE";
    var line := Line(n.index, n.id, false, ok, if good then Validated else Failed, if good then Ready
                                               else Invalid, fault,
                     false, false, "", "", if fault != "INVALID_TRANSFER" then n.to else "", n.amount, n.memo, "");
    var r := Resolve(ds, n.side, n.pid);
    if r.One? && (good || fault == "DUPLICATE_REQUEST_ID")
    then Move(ds[r.k].side, ds[r.k].pid, n.bucket, n.reason, line)
    else Move(n.side, n.pid, n.bucket, n.reason, line)
  }

  // ---------------------------------------------------------------- the allocation loop

  type Allocation = map<(string, string), U64>

  datatype Acc = Acc(
    transfers: seq<NormTransfer>, moves: seq<Move>, allocation: Allocation, seen: set<string>,
    total: U64, payouts: seq<RawRequest>)

  function Allocated(a: Allocation, key: string, bucket: string): U64 {
    if (key, bucket) in a then a[(key, bucket)] else 0
  }

  /**
   * One pass of the transfer loop in buildSettlementChallengePlan. A duplicate line is still allocated before
   * it is refused.
   */
  function PlanTransfer(ds: seq<Deposit>, sid: string, memo: string, treasury: string, acc: Acc,
                        t: TransferInput): Acc {
    var n := NormalTransfer(t, sid, |acc.transfers|, memo, treasury);
    var fault := TransferFault(ds, treasury, n, acc.seen);
    var amount := AmountOf(n);
    var noted := acc.(transfers := acc.transfers + [n], moves := acc.moves + [PlannedMove(ds, n, fault)]);
    var r := Resolve(ds, n.side, n.pid);
    if fault in {"INVALID_TRANSFER", "INVALID_TRANSFER_PARTICIPANT", "INVALID_TREASURY_ROUTE"} then noted
    else
      var key := Key(ds[r.k]);
      var spent := noted.(allocation := acc.allocation[(key, n.bucket) := Add(Allocated(acc.allocation, key, n.bucket),
                                                                              amount)]);
      if fault != "" then spent
      else spent.(seen := acc.seen + {n.id}, total := Add(acc.total, amount),
                  payouts := acc.payouts + [RawRequest(n.id, n.to, n.amount, 0, n.memo)])
  }

  const START := Acc([], [], map[], {}, 0, [])

  function PlanTransfers(ds: seq<Deposit>, sid: string, memo: string, treasury: string,
                         ts: seq<TransferInput>): (acc: Acc)
    ensures |acc.transfers| == |acc.moves| == |ts|
  {
    if |ts| == 0 then START
    else PlanTransfer(ds, sid, memo, treasury, PlanTransfers(ds, sid, memo, treasury, ts[..|ts| - 1]), ts[|ts| - 1])
  }

  method PlanTransfersLoop(ds: seq<Deposit>, sid: string, memo: string, treasury: string,
                           ts: seq<TransferInput>) returns (acc: Acc)
    ensures acc == PlanTransfers(ds, sid, memo, treasury, ts)
  {
    hide PlanTransfers, NormalTransfer, PlannedMove, Resolve, Key, ValidTransfer, EqualFold;
    var transfers: seq<NormTransfer>, moves: seq<Move>, payouts: seq<RawRequest> := [], [], [];
    var allocation: Allocation, seen: set<string>, total: U64 := map[], {}, 0;
    PlanTransfersSnoc(ds, sid, memo, treasury, ts, 0);
    for index := 0 to |ts|
      invariant Acc(transfers, moves, allocation, seen, total, payouts) == PlanTransfers(ds, sid, memo, treasury,
                                                                                         ts[..index])
      invariant |transfers| == index
    {
      PlanTransfersSnoc(ds, sid, memo, treasury, ts, index);
      var n := NormalTransfer(ts[index], sid, index, memo, treasury);
      var fault := TransferFault(ds, treasury, n, seen);
      transfers, moves := transfers + [n], moves + [PlannedMove(ds, n, fault)];
      var owner := ResolveLoop(ds, n.side, n.pid);
      if fault == "INVALID_TRANSFER" || fault == "INVALID_TRANSFER_PARTICIPANT" || fault == "INVALID_TREASURY_ROUTE" {
        continue;
      }
      var slot := (Key(ds[owner.k]), n.bucket);
      allocation := allocation[slot := Add(Allocated(allocation, slot.0, slot.1), AmountOf(n))];
      if fault != "" {
        continue;
      }
      seen := seen + {n.id};
      total := Add(total, AmountOf(n));
      payouts := payouts + [RawRequest(n.id, n.to, n.amount, 0, n.memo)];
    }
    assert ts[..|ts|] == ts;
    acc := Acc(transfers, moves, allocation, seen, total, payouts);
  }

  lemma PlanTransfersSnoc(ds: seq<Deposit>, sid: string, memo: string, treasury: string, ts: seq<TransferInput>, i: nat)
    requires i <= |ts|
    ensures PlanTransfers(ds, sid, memo, treasury, ts[..0]) == START
    ensures i < |ts| ==>
              PlanTransfers(ds, sid, memo, treasury, ts[..i + 1]) ==
              PlanTransfer(ds, sid, memo, treasury, PlanTransfers(ds, sid, memo, treasury, ts[..i]), ts[i])
  {
    if i < |ts| {
      assert ts[..i + 1][..i] == ts[..i];
    }
  }

  /** validateChallengeBucketAllocation: each participant's wager and guarantee are allocated exactly. */
  predicate BucketsExact(ds: seq<Deposit>, a: Allocation) {
    forall k :: 0 <= k < |ds| ==>
      Allocated(a, Key(ds[k]), WAGER) == LineAmount(ds[k].wager) &&
      Allocated(a, Key(ds[k]), GUARANTEE) == LineAmount(ds[k].guarantee)
  }

  /** hasInvalidChallengeTransfers, negated. */
  predicate NoInvalidMove(moves: seq<Move>) {
    forall i :: 0 <= i < |moves| ==> moves[i].line.outcome != Invalid
  }

  // ---------------------------------------------------------------- totals

  function BucketLine(b: BucketTotals, l: Line, a: U64): BucketTotals {
    var b := b.(requested := Add(b.requested, a));
    var b := match l.status
      case Confirmed => b.(executed := Add(b.executed, a), confirmed := Add(b.confirmed, a))
      case Accepted => b.(executed := Add(b.executed, a), accepted := Add(b.accepted, a))
      case _ => b;
    match l.outcome
    case Refused => b.(refused := Add(b.refused, a))
    case Invalid => b.(refused := Add(b.refused, a))
    case Rejected => b.(rejected := Add(b.rejected, a))
    case _ => b
  }

  function BucketOf(bs: map<string, BucketTotals>, bucket: string): BucketTotals {
    if bucket in bs then bs[bucket] else NO_TOTALS
  }

  function Buckets(moves: seq<Move>): map<string, BucketTotals> {
    if |moves| == 0 then map[]
    else
      var bs, m := Buckets(moves[..|moves| - 1]), moves[|moves| - 1];
      var a := OptionalAmount(m.line.amount);
      if a.None? then bs else bs[m.bucket := BucketLine(BucketOf(bs, m.bucket), m.line, a.value)]
  }

  function LinesOf(moves: seq<Move>): (ls: seq<Line>)
    ensures |ls| == |moves|
  {
    seq(|moves|, i requires 0 <= i < |moves| => moves[i].line)
  }

  method BucketsLoop(moves: seq<Move>) returns (bs: map<string, BucketTotals>)
    ensures bs == Buckets(moves)
  {
    bs := map[];
    for i := 0 to |moves|
      invariant bs == Buckets(moves[..i])
    {
      assert moves[..i + 1][..i] == moves[..i];
      var m := moves[i];
      var amount := OptionalAmount(m.line.amount);
      if amount.None? {
        continue;
      }
      var a := amount.value;
      var b := BucketOf(bs, m.bucket);
      b := b.(requested := Add(b.requested, a));
      if m.line.status == Confirmed {
        b := b.(executed := Add(b.executed, a), confirmed := Add(b.confirmed, a));
      } else if m.line.status == Accepted {
        b := b.(executed := Add(b.executed, a), accepted := Add(b.accepted, a));
      }
      if m.line.outcome == Refused || m.line.outcome == Invalid {
        b := b.(refused := Add(b.refused, a));
      } else if m.line.outcome == Rejected {
        b := b.(rejected := Add(b.rejected, a));
      }
      bs := bs[m.bucket := b];
    }
    assert moves[..|moves|] == moves;
  }

  /**
   * finalizeSettlementChallengeResponse. Counters add to what the response holds. A response without a requested total
   * has no moves either, and keeps none.
   */
  function FinalizeChallenge(r: ChallengeResponse): ChallengeResponse {
    var lines := LinesOf(r.moves);
    var t := TallyLines(Recount(r.tally, r.retryable), lines);
    var requested := if r.requested == 0 then |r.moves| else r.requested;
    var all := Buckets(r.moves);
    var buckets := map b | b in {WAGER, GUARANTEE} && b in all :: all[b];
    var again := t.retryable || (r.run.Some? && r.run.value.retryable);
    var r' := r.(tally := t, requested := requested, buckets := buckets, retryable := again);
    if r.status != Blank then r'
    else if r.failureCode == "INVALID_CHALLENGE" then r'.(status := Failed, ok := false)
    else
      var s := DeriveStatus(requested, t);
      r'.(status := s,
          ok := if s == Blank then r.ok else s == Confirmed || s == Accepted,
          failureCode := match s
            case Confirmed => ""
            case Accepted => ""
            case Partial =>
              FirstNonEmpty(r.failureCode, FirstNonEmpty(FirstFailureCode(lines), "CHALLENGE_PARTIAL_FAILURE"))
            case Failed => FirstNonEmpty(r.failureCode, FirstNonEmpty(FirstFailureCode(lines), "CHALLENGE_FAILED"))
            case _ => r.failureCode)
  }

  // ---------------------------------------------------------------- topping up

  /**
   * The balance a payout signer needs: the requested total, the larger reserve and the estimated fees, as uint64
   * arithmetic gives it.
   */
  function RequiredBalance(cfg: Config, run: RunResponse): U64 {
    var required: U64 := run.requestedTotal;
    var required := if cfg.payoutFloor > Wrap(required - run.requestedTotal)
                    then Add(run.requestedTotal, cfg.payoutFloor) else required;
    var required := if cfg.payoutHeadroom > Wrap(required - run.requestedTotal)
                    then Add(run.requestedTotal, cfg.payoutHeadroom) else required;
    if run.estimatedFee.Some? then Add(required, run.estimatedFee.value) else required
  }

  /** buildChallengeTopUpPlan. */
  function PlanTopUp(cfg: Config, v: View, sid: string, run: RunResponse): Option<TopUp> {
    if run.payoutBalanceBefore.None? then None
    else
      var balance := run.payoutBalanceBefore.value;
      var target := RequiredBalance(cfg, run);
      var shortfall: U64 := if balance < target then target - balance else 0;
      var plan := TopUp(shortfall > 0, cfg.autoTopUp, shortfall == 0, "", TopUpId(sid), "", Trim(cfg.payoutAddress),
                        shortfall, target, None);
      if shortfall == 0 then Some(plan)
      else if Trim(cfg.payoutAddress) == "" then Some(plan.(code := "PAYOUT_SIGNER_UNAVAILABLE"))
      else if Trim(cfg.escrowKeyName) == "" || Trim(cfg.escrowAddress) == "" || !v.escrowKey.Resolved? then
        Some(plan.(code := "ESCROW_TOP_UP_UNCONFIGURED"))
      else
        var plan := plan.(from := v.escrowKey.address);
        if v.escrowBalance.None? then Some(plan.(code := "ESCROW_BALANCE_LOOKUP_FAILED"))
        else if v.escrowBalance.value < shortfall then Some(plan.(code := "ESCROW_BALANCE_TOO_LOW"))
        else Some(plan.(possible := true))
  }

  function TopUpMemo(sid: string): string {
    Cut("challenge top-up " + sid, 180)
  }

  function TopUpRaw(sid: string, t: TopUp): RawRequest {
    RawRequest(t.id, t.to, FormatUint(t.amount), 0, TopUpMemo(sid))
  }

  /**
   * executeChallengeTopUp after the escrow transfer answered: an accepted top-up counts only once the balance shows it.
   */
  function SettleTopUp(t: TopUp, r: Response, balance: Option<U64>): TopUp {
    var t := t.(response := Some(r), code := r.failureCode, from := r.signer, to := r.to);
    if r.ok && r.status == Accepted && !(balance.Some? && balance.value >= t.target) then
      var pending := "ESCROW_TOP_UP_PENDING_CONFIRMATION";
      t.(code := pending,
         response := Some(r.(ok := false, status := Failed, failureCode := pending, retryable := true)))
    else t
  }

  // ---------------------------------------------------------------- the plan

  predicate ValidHeader(r: ChallengeRequest, treasury: string) {
    ValidRunId(Trim(r.runId)) && Trim(r.sourceApp) != "" && ValidSourceApp(Trim(r.sourceApp)) &&
    ValidEventId(Trim(r.challengeId)) &&
    ValidEventId(Trim(r.sourceEventId)) && (Trim(r.challengeId) != "" || Trim(r.sourceEventId) != "") &&
    (treasury == "" || IsWoloAddress(treasury)) && |r.funding| > 0 && |r.transfers| > 0
  }

  function TreasuryOf(cfg: Config, r: ChallengeRequest): string {
    if Trim(r.treasury) == "" then Trim(cfg.treasuryAddress) else Trim(r.treasury)
  }

  function NormHeader(cfg: Config, r: ChallengeRequest): NormChallenge {
    NormChallenge(Trim(r.runId), Trim(r.sourceApp), Trim(r.challengeId), Trim(r.sourceEventId), TreasuryOf(cfg, r),
                  Cut(Trim(r.note), 280), Cut(Trim(r.memo), 180), [], [])
  }

  function StartChallenge(n: NormChallenge): ChallengeResponse {
    ChallengeResponse(false, Failed, "", false, false, n.runId, n.sourceApp, n.challengeId, n.sourceEventId,
                      0, None, 0, None, ZERO, map[], None, [], [], None)
  }

  function CountOk(ds: seq<Deposit>): nat {
    if |ds| == 0 then 0 else CountOk(ds[..|ds| - 1]) + (if ds[|ds| - 1].ok then 1 else 0)
  }

  function RunRequestOf(n: NormChallenge, payouts: seq<RawRequest>): RunRequest {
    RunRequest(n.runId, n.sourceApp, FirstNonEmpty(n.sourceEventId, n.challengeId), n.note, n.memo, "", payouts)
  }

  predicate HasSuffix(s: string, suffix: string) {
    |suffix| <= |s| && s[|s| - |suffix|..] == suffix
  }

  /** The verdict of the plan once its lines are good: the run's, or the top-up's when one is needed. */
  function JudgePlan(r: ChallengeResponse, run: RunResponse, topUp: Option<TopUp>): ChallengeResponse {
    var r := r.(run := Some(run), topUp := topUp);
    if topUp.Some? && topUp.value.required then
      if !topUp.value.enabled then r.(failureCode := "PAYOUT_TOP_UP_REQUIRED", retryable := true)
      else if !topUp.value.possible then
        var code := FirstNonEmpty(topUp.value.code, "ESCROW_TOP_UP_UNAVAILABLE");
        r.(failureCode := code, retryable := HasSuffix(code, "_LOOKUP_FAILED") || HasSuffix(code, "_TOO_LOW"))
      else r.(ok := true, status := Validated)
    else if run.ok then r.(ok := true, status := Validated)
    else r.(failureCode := run.failureCode, retryable := run.retryable)
  }

  /** The response once the deposits were looked up. */
  function FundingChecked(n: NormChallenge, ds: seq<Deposit>): ChallengeResponse {
    StartChallenge(n).(funding := ds, fundingVerified := CountOk(ds), fundingTotal := Some(FundedTotal(ds)))
  }

  /** The response with the accumulated transfers, up to the run plan. */
  function LinesPlanned(n: NormChallenge, ds: seq<Deposit>, acc: Acc): ChallengeResponse {
    FundingChecked(n, ds).(moves := acc.moves, requested := |acc.moves|, requestedTotal := Some(acc.total))
  }

  const INVALID := "INVALID_CHALLENGE"

  function NoRun(n: NormChallenge): RunRequest {
    RunRequestOf(n, [])
  }

  /** buildSettlementChallengePlan. */
  function PlanChallenge(cfg: Config, chain: Ledger, v: View, request: ChallengeRequest): ChallengePlan {
    var n := NormHeader(cfg, request);
    if !ValidHeader(request, n.treasury) then ChallengePlan(n, StartChallenge(n).(failureCode := INVALID), NoRun(n))
    else
      var n := n.(funding := TrimAll(request.funding));
      var ds := VerifyAll(cfg, chain, v.fault, n);
      if !AllOk(ds) || !DistinctParticipants(ds) then
        ChallengePlan(n, FinalizeChallenge(FundingChecked(n, ds).(failureCode := INVALID)), NoRun(n))
      else
        var acc := PlanTransfers(ds, n.runId, n.memo, n.treasury, request.transfers);
        var n := n.(transfers := acc.transfers);
        var r := LinesPlanned(n, ds, acc);
        if !BucketsExact(ds, acc.allocation) || !NoInvalidMove(acc.moves) then
          ChallengePlan(n, FinalizeChallenge(r.(failureCode := INVALID)), NoRun(n))
        else
          var runRequest := RunRequestOf(n, acc.payouts);
          var run := PlanRun(cfg, v, runRequest).1;
          ChallengePlan(n, FinalizeChallenge(JudgePlan(r, run, PlanTopUp(cfg, v, n.runId, run))), runRequest)
  }

  // ---------------------------------------------------------------- executing

  /** The last line a run reports for an id. */
  function LastLine(lines: seq<Line>, id: string): Option<Line> {
    if |lines| == 0 then None
    else if lines[|lines| - 1].id == id then Some(lines[|lines| - 1])
    else LastLine(lines[..|lines| - 1], id)
  }

  function MergeOne(t: NormTransfer, found: Option<Line>): Move {
    var base := Line(t.index, t.id, false, false, Failed, Invalid, "", false, false, "", "",
                     t.to, t.amount, t.memo, "");
    Move(t.side, t.pid, t.bucket, t.reason,
         if found.None? then base
         else
           var p := found.value;
           base.(attempted := p.attempted, ok := p.ok, status := p.status, outcome := p.outcome,
                 failureCode := p.failureCode,
                 retryable := p.retryable, replay := p.replay, role := p.role, signer := p.signer, txHash := p.txHash))
  }

  /** mergeChallengeRunResults. */
  function Merge(ts: seq<NormTransfer>, run: RunResponse): (ms: seq<Move>)
    ensures |ms| == |ts| && forall i :: 0 <= i < |ts| ==> ms[i] == MergeOne(ts[i], LastLine(run.lines, ts[i].id))
  {
    seq(|ts|, i requires 0 <= i < |ts| => MergeOne(ts[i], LastLine(run.lines, ts[i].id)))
  }

  method MergeLoop(ts: seq<NormTransfer>, run: RunResponse) returns (ms: seq<Move>)
    ensures ms == Merge(ts, run)
  {
    var byId: map<string, Line> := map[];
    for i := 0 to |run.lines|
      invariant forall id :: LastLine(run.lines[..i], id) == if id in byId then Some(byId[id]) else None
    {
      assert run.lines[..i + 1][..i] == run.lines[..i];
      byId := byId[run.lines[i].id := run.lines[i]];
    }
    assert run.lines[..|run.lines|] == run.lines;
    ms := [];
    for i := 0 to |ts|
      invariant |ms| == i && forall k :: 0 <= k < i ==> ms[k] == MergeOne(ts[k], LastLine(run.lines, ts[k].id))
    {
      ms := ms + [MergeOne(ts[i], if ts[i].id in byId then Some(byId[ts[i].id]) else None)];
    }
  }

  /** markChallengeReadyTransfersFailed. */
  function FailReady(moves: seq<Move>, code: string, retryable: bool): (r: seq<Move>)
    ensures |r| == |moves|
  {
    seq(|moves|, i requires 0 <= i < |moves| =>
      if moves[i].line.outcome != Ready then moves[i]
      else moves[i].(line := moves[i].line.(ok := false, status := Failed, outcome := Refused, failureCode := code,
                                            retryable := retryable)))
  }

  function RefusedChallenge(r: ChallengeResponse): ChallengeResponse {
    FinalizeChallenge(r.(moves := FailReady(r.moves, r.failureCode, r.retryable)))
  }

  predicate TopUpFailed(t: TopUp) {
    t.response.None? || !t.response.value.ok
  }

  function FailedTopUp(r: ChallengeResponse, t: TopUp): ChallengeResponse {
    var r := r.(topUp := Some(t), ok := false, status := Failed,
                failureCode := FirstNonEmpty(t.code, "ESCROW_TOP_UP_FAILED"),
                retryable := t.response.Some? && t.response.value.retryable);
    RefusedChallenge(r)
  }

  function ExecutedChallenge(r: ChallengeResponse, ts: seq<NormTransfer>, run: RunResponse): ChallengeResponse {
    FinalizeChallenge(r.(run := Some(run), moves := Merge(ts, run), status := Blank, ok := false, failureCode := "",
                         retryable := run.retryable, replay := false))
  }

  /** settlementChallengeResponseIsFinal. */
  predicate FinalChallenge(r: ChallengeResponse) {
    !r.retryable && (r.ok || r.status == Failed || r.status == Partial)
  }

  function FailedChallenge(code: string, retryable: bool, n: NormChallenge): ChallengeResponse {
    StartChallenge(n).(failureCode := code, retryable := retryable)
  }

  /** What a challenge under its lock does with the record it read. */
  function DecideChallenge(stored: Option<ChallengeRecord>, n: NormChallenge): Option<ChallengeResponse> {
    if stored.None? then None
    else if stored.value.fingerprint != n then Some(FailedChallenge("IDEMPOTENCY_CONFLICT", false, n))
    else if FinalChallenge(stored.value.response) then Some(stored.value.response.(replay := true))
    else None
  }
}

/** Every step of a challenge settlement keeps the store and its whole stack of frames in order. */
module ChallengeSteps {
  import opened Text
  import opened Amounts
  import opened Records
  import opened Signers
  import opened Chain
  import opened Transfers
  import opened Runs
  import opened RunLaws
  import opened Funding
  import opened Challenges
  import opened ChallengeLaws
  import opened ChallengeRuns
  import opened ChallengeSound
  import opened Audit
  import opened Machine
  import opened Invariants
  import opened Stability
  import opened CallLaws
  import opened RunSteps

  // ---------------------------------------------------------------- plans

  predicate QuietMoves(moves: seq<Move>) {
    forall i :: 0 <= i < |moves| ==> moves[i].line.txHash == ""
  }

  lemma {:induction false} PlannedQuiet(ds: seq<Deposit>, sid: string, memo: string, treasury: string,
                                        ts: seq<TransferInput>)
    ensures QuietMoves(PlanTransfers(ds, sid, memo, treasury, ts).moves)
  {
    hide NormalTransfer, Resolve, TransferFault, Key;
    if |ts| > 0 {
      var before := PlanTransfers(ds, sid, memo, treasury, ts[..|ts| - 1]);
      PlannedQuiet(ds, sid, memo, treasury, ts[..|ts| - 1]);
      var n := NormalTransfer(ts[|ts| - 1], sid, |before.transfers|, memo, treasury);
      assert PlanTransfers(ds, sid, memo, treasury, ts).moves == before.moves +
             [PlannedMove(ds, n, TransferFault(ds, treasury, n, before.seen))];
    }
  }

  lemma FinalizedQuiet(r: ChallengeResponse)
    requires Quiet(r) && r.status != Blank
    ensures Quiet(FinalizeChallenge(r))
  {
    hide FinalizeChallenge;
    FinalizeChallengeKeeps(r);
  }

  lemma RunPlanQuiet(cfg: Config, v: View, request: RunRequest)
    ensures var r := PlanRun(cfg, v, request).1; forall i :: 0 <= i < |r.lines| ==> r.lines[i].txHash == ""
  {
    hide PlanRun, Prepare, ValidRunHeader, GoodPayouts, AdmittedRun, Trim;
    PlanFacts(cfg, v, request);
  }

  lemma JudgedQuiet(r: ChallengeResponse, run: RunResponse, topUp: Option<TopUp>)
    requires Quiet(r) && r.status == Failed && !r.ok && (forall i :: 0 <= i < |run.lines| ==> run.lines[i].txHash == "")
    requires topUp.Some? ==> topUp.value.response.None?
    ensures Quiet(JudgePlan(r, run, topUp)) && JudgePlan(r, run, topUp).status != Blank
  {
    hide JudgePlan;
    JudgeKeeps(r, run, topUp);
  }

  lemma StartsQuiet(n: NormChallenge, ds: seq<Deposit>, acc: Acc)
    requires QuietMoves(acc.moves)
    ensures Quiet(Challenges.StartChallenge(n).(failureCode := INVALID)) &&
            Quiet(FundingChecked(n, ds).(failureCode := INVALID))
    ensures Quiet(LinesPlanned(n, ds, acc)) && Quiet(LinesPlanned(n, ds, acc).(failureCode := INVALID))
    ensures LinesPlanned(n, ds, acc).status == Failed && !LinesPlanned(n, ds, acc).ok
  {
    hide FundedTotal, CountOk;
  }

  /** No plan reports a hash. */
  lemma PlanQuiet(cfg: Config, chain: Ledger, v: View, request: ChallengeRequest)
    ensures Quiet(PlanChallenge(cfg, chain, v, request).response)
  {
    hide FinalizeChallenge, VerifyAll, PlanTransfers, PlanRun, PlanTopUp, ValidHeader, DistinctParticipants, NormHeader,
         BucketsExact, NoInvalidMove, JudgePlan, AllOk, LinesPlanned, FundingChecked, Quiet, Challenges.StartChallenge;
    var h := NormHeader(cfg, request);
    var n := h.(funding := TrimAll(request.funding));
    var ds := VerifyAll(cfg, chain, v.fault, n);
    var acc := PlanTransfers(ds, n.runId, n.memo, n.treasury, request.transfers);
    var m := n.(transfers := acc.transfers);
    var runRequest := RunRequestOf(m, acc.payouts);
    var run := PlanRun(cfg, v, runRequest).1;
    var topUp := PlanTopUp(cfg, v, m.runId, run);
    PlannedQuiet(ds, n.runId, n.memo, n.treasury, request.transfers);
    StartsQuiet(h, ds, acc);
    StartsQuiet(n, ds, acc);
    StartsQuiet(m, ds, acc);
    RunPlanQuiet(cfg, v, runRequest);
    PlannedTopUp(cfg, v, m.runId, run);
    JudgedQuiet(LinesPlanned(m, ds, acc), run, topUp);
    FailedStatus(n, ds, acc);
    FailedStatus(m, ds, acc);
    FinalizedQuiet(FundingChecked(n, ds).(failureCode := INVALID));
    FinalizedQuiet(LinesPlanned(m, ds, acc).(failureCode := INVALID));
    FinalizedQuiet(JudgePlan(LinesPlanned(m, ds, acc), run, topUp));
  }

  lemma FailedStatus(n: NormChallenge, ds: seq<Deposit>, acc: Acc)
    ensures FundingChecked(n, ds).status == Failed && LinesPlanned(n, ds, acc).status == Failed
  {
  }

  // ---------------------------------------------------------------- responses

  lemma RefusedRecord(cfg: Config, s: Store, n: NormChallenge, r: ChallengeResponse)
    requires Quiet(r.(topUp := None)) && !r.ok && r.status == Failed && HashedTopUpOk(s.requests, r.topUp)
    ensures ChallengeRecordOk(cfg, s, n.runId, ChallengeRecord(n, n, RefusedChallenge(r)))
  {
    hide FinalizeChallenge, HashedTopUpOk, Explained;
    FinalizeChallengeKeeps(r.(moves := FailReady(r.moves, r.failureCode, r.retryable)));
  }

  lemma FailedTopUpRecord(cfg: Config, s: Store, n: NormChallenge, r: ChallengeResponse, t: TopUp)
    requires Quiet(r.(topUp := None)) && HashedTopUpOk(s.requests, Some(t))
    ensures ChallengeRecordOk(cfg, s, n.runId, ChallengeRecord(n, n, FailedTopUp(r, t)))
  {
    hide RefusedChallenge, HashedTopUpOk, ChallengeRecordOk, FirstNonEmpty;
    var failed := r.(topUp := Some(t), ok := false, status := Failed,
                     failureCode := FirstNonEmpty(t.code, "ESCROW_TOP_UP_FAILED"),
                     retryable := t.response.Some? && t.response.value.retryable);
    RefusedRecord(cfg, s, n, failed);
  }

  /** A settled top-up either failed and reports a recorded hash or none, or is done. */
  lemma SettledTopUp(cfg: Config, s: Store, plan: ChallengePlan, req: Request, r: Response, balance: Option<U64>)
    requires RequestsOk(cfg, s) && plan.response.topUp.Some? && plan.response.topUp.value.required
    requires TopUpRequest(plan) == Some(req) && AnswerOk(s.requests, req, r)
    ensures var t := SettleTopUp(plan.response.topUp.value, r, balance);
            HashedTopUpOk(s.requests, Some(t)) && (!TopUpFailed(t) ==> TopUpDone(s.requests, plan, Some(t)))
  {
    hide TopUpRequest, SameRequest, GoodRequest, Linked, TxHash;
    if r.txHash != "" {
      assert RecordOk(cfg, s, req.id, s.requests[req.id]);
    }
  }

  lemma InvalidTopUp(s: Store, t: TopUp, raw: RawRequest)
    ensures var settled := SettleTopUp(t, InvalidRequest(raw, ESCROW), None);
            TopUpFailed(settled) && HashedTopUpOk(s.requests, Some(settled))
  {
    hide Trim;
  }

  lemma AfterTopUpKeeps(cfg: Config, s: Store, l: LockTable, pid: nat, f: ChallengeFrame, answer: Response,
                        balance: Option<U64>)
    requires ChallengeInv(cfg, s, l, pid, f) && f.pc.ToppingUp?
    requires var t := SettleTopUp(f.topUp.value, answer, balance);
             HashedTopUpOk(s.requests, Some(t)) && (!TopUpFailed(t) ==> TopUpDone(s.requests, f.plan, Some(t)))
    ensures ChallengeInv(cfg, s, l, pid, AfterTopUp(f, answer, balance))
  {
    hide PlanSound, OpenChallenge, TopUpDone, HashedTopUpOk, FailedTopUp, SettleTopUp, ChallengeRecordOk, TopUpFailed;
    var t := SettleTopUp(f.topUp.value, answer, balance);
    FailedTopUpRecord(cfg, s, f.plan.norm, Current(f), t);
  }

  // ---------------------------------------------------------------- merged results

  lemma MergedHash(requests: Requests, role: string, t: NormTransfer, l: Line)
    requires LineGood(requests, role, RunPayout(t), l)
    ensures HashedLineOk(requests, MergeOne(t, Some(l)).line)
  {
    hide Trim, StoredRole, ExecutedLine;
  }

  lemma DoneAnswers(requests: Requests, n: NormRun, r: RunResponse)
    requires RunDone(requests, n, r)
    ensures RunAnswers(n.payouts, r) && HashedLinesOk(requests, r.lines)
  {
    hide TallyLines, NeedsEscrow, FinalRun, Answers, HashedLineOk, Trim, StoredRole;
    forall j | 0 <= j < |r.lines| ensures Answers(n.payouts[j], r.lines[j]) && HashedLineOk(requests, r.lines[j]) {
      assert LineGood(requests, n.role, n.payouts[j], r.lines[j]);
    }
  }

  /** Every merged line that reports a hash reports a recorded one. */
  lemma MergedHashes(requests: Requests, plan: ChallengePlan, run: RunResponse)
    requires ReadyPlan(plan) && RunResponseOk(requests, Prepare(plan.runRequest).0, run)
    ensures HashedLinesOk(requests, LinesOf(Merge(plan.norm.transfers, run))) && HashedLinesOk(requests, run.lines)
  {
    hide Prepare, RunDone, HashedLineOk, ReadyPlan, Merge;
    var n, ts := Prepare(plan.runRequest).0, plan.norm.transfers;
    if RunIdle(run) {
      IdleHashes(requests, ts, run);
    } else {
      DoneAnswers(requests, n, run);
      ReadyPayouts(plan);
      forall i | 0 <= i < |ts| ensures HashedLineOk(requests, Merge(ts, run)[i].line) {
        OneMergedHash(requests, n, ts, run, i);
      }
      MovesHashed(requests, Merge(ts, run));
    }
  }

  lemma MovesHashed(requests: Requests, moves: seq<Move>)
    requires forall i :: 0 <= i < |moves| ==> HashedLineOk(requests, moves[i].line)
    ensures HashedLinesOk(requests, LinesOf(moves))
  {
    hide HashedLineOk;
  }

  lemma ReadyPayouts(plan: ChallengePlan)
    requires ReadyPlan(plan)
    ensures var n := Prepare(plan.runRequest).0;
            n.payouts == RunPayouts(plan.norm.transfers) && IdsDistinct(plan.norm.transfers) &&
            PayoutIdsDistinct(n.payouts) &&
            n.runId == plan.norm.runId && n.role == PAYOUT && Trim(plan.runRequest.runId) == plan.norm.runId &&
            ValidRunHeader(plan.runRequest) && |plan.runRequest.payouts| == |plan.norm.transfers|
  {
    hide Prepare, ValidRunHeader, IdsDistinct, TransferTotal, RunPayouts, SameExecution, Recount, GoodPayouts,
         AllPlanned, Trim, RunRole, Values, Sum, Wrap;
    PrepareFacts(plan.runRequest);
    DistinctPayouts(Prepare(plan.runRequest).0);
  }

  lemma OneMergedHash(requests: Requests, n: NormRun, ts: seq<NormTransfer>, run: RunResponse, i: nat)
    requires RunDone(requests, n, run) && RunAnswers(n.payouts, run) && n.payouts == RunPayouts(ts) && i < |ts|
    requires IdsDistinct(ts) && PayoutIdsDistinct(n.payouts)
    ensures HashedLineOk(requests, Merge(ts, run)[i].line)
  {
    hide TallyLines, NeedsEscrow, FinalRun, HashedLineOk, LineGood, IdsDistinct, PayoutIdsDistinct, Answers, RunPayouts,
         ChallengeRuns.Kept, RunPayout, LastLine, MergeOne;
    MergedLine(ts, run.lines, i);
    PayoutAt(ts, i);
    if ChallengeRuns.Kept(ts[i]) {
      var k := |RunPayouts(ts[..i])|;
      assert LineGood(requests, n.role, n.payouts[k], run.lines[k]);
      MergedHash(requests, n.role, ts[i], run.lines[k]);
    } else {
      UnmergedHash(requests, ts[i]);
    }
  }

  lemma UnmergedHash(requests: Requests, t: NormTransfer)
    ensures HashedLineOk(requests, MergeOne(t, None).line)
  {
  }

  lemma IdleHashes(requests: Requests, ts: seq<NormTransfer>, run: RunResponse)
    requires RunIdle(run)
    ensures HashedLinesOk(requests, LinesOf(Merge(ts, run))) && HashedLinesOk(requests, run.lines)
  {
    forall i | 0 <= i < |ts| ensures Merge(ts, run)[i].line.txHash == "" {
      IdleLast(run.lines, ts[i].id);
    }
  }

  lemma DoneTopUpHash(cfg: Config, s: Store, plan: ChallengePlan, t: Option<TopUp>)
    requires RequestsOk(cfg, s) && TopUpDone(s.requests, plan, t) && Quiet(plan.response)
    ensures HashedTopUpOk(s.requests, t)
  {
    hide TopUpRequest, SameRequest, GoodRequest, Linked, TxHash;
    if plan.response.topUp.Some? && plan.response.topUp.value.required {
      var req := TopUpRequest(plan).value;
      assert RecordOk(cfg, s, req.id, s.requests[req.id]);
    }
  }

  lemma DerivedEnds(requested: nat, t: Tally)
    ensures DeriveStatus(requested, t) != Validated
  {
  }

  lemma PaidRecord(cfg: Config, s: Store, plan: ChallengePlan, t: Option<TopUp>, run: RunResponse)
    requires RequestsOk(cfg, s) && Quiet(plan.response) && PlanSound(cfg, s.chain, plan) &&
             TopUpDone(s.requests, plan, t)
    requires RunAnswerOk(s, plan.norm.runId, Prepare(plan.runRequest).0, run) && Settles(|plan.norm.transfers|, run)
    ensures var r := ExecutedChallenge(plan.response.(topUp := t), plan.norm.transfers, run);
            ChallengeRecordOk(cfg, s, plan.norm.runId, ChallengeRecord(plan.norm, plan.norm, r))
  {
    hide Prepare, ExecutedChallenge, Merge, LinesOf, Quiet, TopUpDone, RunResponseOk, HashedLinesOk, HashedTopUpOk,
         FundingStands, AllocationStands, TopUpPlanned, GoodNames, SameNames, TallyLines, Recount, Buckets,
         DeriveStatus, FinalRun, RequestsOk, SameExecution, ValidRunHeader, RunMatches, PaidTransfer;
    var n, r := plan.norm, ExecutedChallenge(plan.response.(topUp := t), plan.norm.transfers, run);
    ExecutedChallengeForm(plan.response.(topUp := t), n.transfers, run);
    DerivedEnds(|n.transfers|, r.tally);
    MergedHashes(s.requests, plan, run);
    DoneTopUpHash(cfg, s, plan, t);
    assert ConfirmedBy(cfg, s, n, r, plan, t, run);
  }

  // ---------------------------------------------------------------- starting a run

  lemma NewRunInv(cfg: Config, s: Store, l: LockTable, pid: nat, request: RunRequest, v: View, f: RunFrame)
    requires NewRun(cfg, request, v, f)
    ensures RunInv(s, l, pid, f) && f.norm == Prepare(request).0 && f.plan.runId == Trim(request.runId)
    ensures ValidRunHeader(request) ==> f.plan.requested == |request.payouts|
  {
    hide PlanRun, Prepare, ValidRunHeader, GoodPayouts, AllPlanned, Serviceable, NeedsEscrow, Trim, Sum, Values,
         Reserve, Wrap, GoodView;
    PlanFacts(cfg, v, request);
  }

  // ---------------------------------------------------------------- steps

  ghost predicate StackOk(cfg: Config, s: Store, lr: LockTable, ln: LockTable, pid: nat, f: ChallengeFrame,
                          run: Option<RunFrame>, call: Option<Call>) {
    CallsOk(cfg, s, lr, pid, call) && (run.Some? ==> RunInv(s, ln, pid, run.value)) &&
    Stacked(Process(Some(f), run, call))
  }

  lemma ChallengeWriteKeeps(cfg: Config, s: Store, l: LockTable, pid: nat, f: ChallengeFrame)
    requires StoreOk(cfg, s) && ChallengeInv(cfg, s, l, pid, f) && f.pc.ChallengeWriting?
    ensures var rec := ChallengeRecord(f.plan.norm, f.plan.norm, f.pc.written);
            var s' := s.(challenges := s.challenges[f.plan.norm.runId := rec]);
            StoreOk(cfg, s') && Preserved(s, s') && Local(l, l, pid, s.challenges, s'.challenges)
  {
    hide ChainOk, RequestsOk, RunsOk, PlanSound, ChallengeRecordOk, FinalRun, FinalChallenge, Grows, SendsKept,
         RequestsKept, RunsKept, Quiet, TopUpDone;
    var rec := ChallengeRecord(f.plan.norm, f.plan.norm, f.pc.written);
    var s' := s.(challenges := s.challenges[f.plan.norm.runId := rec]);
    ChainUnmoved(s, s');
    PreservedSame(s);
    assert ChallengesKept(s.challenges, s'.challenges);
    RequestsStable(cfg, s, s');
    RunsStable(s, s');
    forall x | x in s'.challenges ensures ChallengeRecordOk(cfg, s', x, s'.challenges[x]) {
      ChallengeRecordStable(cfg, s, s', x, s'.challenges[x]);
    }
  }

  lemma ReadChallengeKeeps(cfg: Config, s: Store, l: LockTable, pid: nat, f: ChallengeFrame, f': ChallengeFrame)
    requires ChallengeInv(cfg, s, l, pid, f) && f.pc.ChallengeReading?
    requires var id := f.plan.norm.runId;
             var answer := DecideChallenge(if id in s.challenges then Some(s.challenges[id]) else None, f.plan.norm);
             f' == f.(pc := if answer.Some? then ChallengeUnlocking(answer.value)
                            else if !f.plan.response.ok then ChallengeWriting(RefusedChallenge(f.plan.response))
                            else if TopUpDue(f) then ToppingUp else Paying)
    ensures ChallengeInv(cfg, s, l, pid, f')
  {
    hide PlanSound, FinalChallenge, RefusedChallenge, ChallengeRecordOk, HashedTopUpOk, FailedChallenge;
    if !f.plan.response.ok {
      QuietTopUp(s.requests, f.plan.response);
      RefusedRecord(cfg, s, f.plan.norm, f.plan.response);
    }
  }

  lemma QuietTopUp(requests: Requests, r: ChallengeResponse)
    requires Quiet(r)
    ensures HashedTopUpOk(requests, r.topUp) && Quiet(r.(topUp := None))
  {
  }

  lemma CollectRunKeeps(cfg: Config, s: Store, ln: LockTable, l: LockTable, pid: nat, f: ChallengeFrame, run: RunFrame,
                        f': ChallengeFrame)
    requires StoreOk(cfg, s) && ChallengeInv(cfg, s, l, pid, f) && RunInv(s, ln, pid, run) && f.pc.Paying? &&
             run.pc.RunReturned?
    requires run.norm == Prepare(f.plan.runRequest).0 && run.plan.runId == f.plan.norm.runId &&
             run.plan.requested == |f.plan.norm.transfers|
    requires f' == f.(pc := ChallengeWriting(ExecutedChallenge(Current(f), f.plan.norm.transfers, run.pc.answer)))
    ensures ChallengeInv(cfg, s, l, pid, f')
  {
    hide PlanSound, OpenChallenge, TopUpDone, ChallengeRecordOk, Quiet, Prepare, ExecutedChallenge, PlanOk, RunAnswerOk,
         Settles, ChainOk, RequestsOk, RunsOk, ChallengesOk;
    PaidRecord(cfg, s, f.plan, f.topUp, run.pc.answer);
  }

  lemma StartPayingKeeps(cfg: Config, s: Store, ln: LockTable, l: LockTable, pid: nat, f: ChallengeFrame, v: View,
                         run: RunFrame)
    requires ChallengeInv(cfg, s, l, pid, f) && f.pc.Paying? && NewRun(cfg, f.plan.runRequest, v, run)
    ensures RunInv(s, ln, pid, run) && Stacked(Process(Some(f), Some(run), None))
  {
    hide ReadyPlan, FundingStands, AllocationStands, TopUpPlanned, GoodNames, SameNames, OpenChallenge, TopUpDone,
         ChallengeRecordOk, Quiet, Prepare, NewRun, RunInv, Trim, IdsDistinct, PayoutIdsDistinct, RunPayouts,
         ValidRunHeader;
    NewRunInv(cfg, s, ln, pid, f.plan.runRequest, v, run);
    ReadyPayouts(f.plan);
  }

  lemma SubmitTopUpKeeps(cfg: Config, s: Store, lr: LockTable, l: LockTable, pid: nat, f: ChallengeFrame,
                         f': ChallengeFrame, call': Option<Call>)
    requires ChallengeInv(cfg, s, l, pid, f) && f.pc.ToppingUp?
    requires var raw := TopUpRaw(f.plan.norm.runId, f.topUp.value); var req := Normalize(raw, ESCROW);
             if req.None? then f' == AfterTopUp(f, InvalidRequest(raw, ESCROW), None) && call' == None
             else f' == f && call' == Some(Call(req.value, Locking))
    ensures ChallengeInv(cfg, s, l, pid, f') && CallsOk(cfg, s, lr, pid, call') &&
            Stacked(Process(Some(f'), None, call'))
  {
    hide PlanSound, OpenChallenge, TopUpDone, ChallengeRecordOk, Quiet, AfterTopUp, SettleTopUp, InvalidRequest,
         CallInv, Normalize, HashedTopUpOk;
    var raw := TopUpRaw(f.plan.norm.runId, f.topUp.value);
    if Normalize(raw, ESCROW).None? {
      InvalidTopUp(s, f.topUp.value, raw);
      AfterTopUpKeeps(cfg, s, l, pid, f, InvalidRequest(raw, ESCROW), None);
    } else {
      NewCall(cfg, s, lr, pid, raw, ESCROW);
    }
  }

  lemma CollectTopUpKeeps(cfg: Config, s: Store, lr: LockTable, l: LockTable, pid: nat, f: ChallengeFrame, call: Call,
                          balance: Option<U64>)
    requires StoreOk(cfg, s) && ChallengeInv(cfg, s, l, pid, f) && f.pc.ToppingUp? && CallInv(cfg, s, lr, pid, call) &&
             call.pc.Returned?
    requires TopUpRequest(f.plan) == Some(call.req)
    ensures ChallengeInv(cfg, s, l, pid, AfterTopUp(f, call.pc.answer, balance))
  {
    hide PlanSound, OpenChallenge, TopUpDone, ChallengeRecordOk, Quiet, AfterTopUp, SettleTopUp, HashedTopUpOk,
         AnswerOk, RecordOk, GoodRequest, TopUpRequest, ChainOk, RequestsOk, RunsOk, ChallengesOk;
    SettledTopUp(cfg, s, f.plan, call.req, call.pc.answer, balance);
    AfterTopUpKeeps(cfg, s, l, pid, f, call.pc.answer, balance);
  }

  /** One step of a challenge keeps the store in order, changes no final record and keeps its whole stack in order. */
  lemma ChallengeStepKeeps(cfg: Config, pid: nat, act: ChallengeAct, s: Store, lr: LockTable, ln: LockTable,
                           l: LockTable, f: ChallengeFrame, run: Option<RunFrame>,
                           call: Option<Call>, s': Store, l': LockTable, f': ChallengeFrame, run': Option<RunFrame>,
                           call': Option<Call>)
    requires StoreOk(cfg, s) && ChallengeInv(cfg, s, l, pid, f) && StackOk(cfg, s, lr, ln, pid, f, run, call)
    requires ChallengeStep(cfg, pid, act, s, l, f, run, call, s', l', f', run', call')
    ensures StoreOk(cfg, s') && Preserved(s, s') && ChallengeInv(cfg, s', l', pid, f') &&
            StackOk(cfg, s', lr, ln, pid, f', run', call')
    ensures Local(l, l', pid, s.challenges, s'.challenges) && s'.requests == s.requests && s'.runs == s.runs
  {
    hide StoreOk, Preserved, Quiet, PlanSound, OpenChallenge, TopUpDone, ChallengeRecordOk, CallInv, RunInv, Normalize,
         DecideChallenge, ExecutedChallenge, RefusedChallenge, AfterTopUp, InvalidRequest, NewRun, Prepare,
         FailedChallenge, TopUpRaw;
    PreservedSame(s);
    match act
    case AcquireChallenge =>
    case ContendedChallenge =>
    case ReadChallenge => ReadChallengeKeeps(cfg, s, l, pid, f, f');
    case SubmitTopUp => SubmitTopUpKeeps(cfg, s, lr, l, pid, f, f', call');
    case CollectTopUp(balance) => CollectTopUpKeeps(cfg, s, lr, l, pid, f, call.value, balance);
    case StartPaying(view) => StartPayingKeeps(cfg, s, ln, l, pid, f, view, run'.value);
    case CollectRun => CollectRunKeeps(cfg, s, ln, l, pid, f, run.value, f');
    case WriteChallenge => ChallengeWriteKeeps(cfg, s, l, pid, f);
    case ReleaseChallenge =>
  }
}

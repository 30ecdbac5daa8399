/** Every step of a grouped run keeps the store, its own frame and the call of its current line in order. */
module RunSteps {
  import opened Text
  import opened Amounts
  import opened Ids
  import opened Records
  import opened Chain
  import opened Transfers
  import opened Runs
  import opened RunLaws
  import opened Challenges
  import opened ChallengeRuns
  import opened Audit
  import opened Machine
  import opened Invariants
  import opened Stability
  import opened CallLaws

  lemma NormalizeGood(raw: RawRequest, role: string)
    requires Normalize(raw, role).Some? && (role == PAYOUT || role == ESCROW)
    ensures var req := Normalize(raw, role).value; GoodRequest(req) && req.role == role
  {
    hide RequestIdPattern, IsWoloAddress, Trim, NormalizeAmount, StoredRole;
    RolesStored();
    NormalizeFixed(raw, role, role);
  }

  /** The request a payout line submits. */
  lemma SubmittedRequest(p: Payout, role: string)
    requires NormalPayout(p)
    ensures Trim(p.id) == p.id && Trim(p.to) == p.to && Trim(p.amount) == p.amount
    ensures var req := Normalize(ItemRequest(p), role);
            req.Some? ==>
              req.value == Request(p.id, p.to, p.amount, Trim(p.memo), role) && OptionalAmount(p.amount).Some?
  {
    hide RequestIdPattern, IsWoloAddress, Trim, ParseUint;
    TrimShape(p.memo);
    assert Cut(Trim(p.memo), 180) == Trim(p.memo);
  }

  lemma InvalidLineGood(requests: Requests, role: string, p: Payout)
    requires NormalPayout(p)
    ensures LineGood(requests, role, p, LineFrom(p, InvalidRequest(ItemRequest(p), role)))
  {
    hide RequestIdPattern, IsWoloAddress, ParseUint;
  }

  /** The outcome of a sound answer is the one its class of line expects. */
  lemma SoundLineExecuted(p: Payout, r: Response)
    requires Sound(r) && OptionalAmount(r.amount).Some?
    ensures ExecutedLine(LineFrom(p, r))
  {
    hide OptionalAmount, TxHash, Trim;
    if r.txHash != "" {
      TxHashTrimmed(r.txHash);
    } else {
      TrimShape("");
    }
  }

  lemma AnswerLineGood(cfg: Config, s: Store, role: string, p: Payout, req: Request, r: Response)
    requires RequestsOk(cfg, s) && NormalPayout(p) && (role == PAYOUT || role == ESCROW)
    requires Normalize(ItemRequest(p), role) == Some(req) && AnswerOk(s.requests, req, r)
    ensures LineGood(s.requests, role, p, LineFrom(p, r))
  {
    hide NormalPayout, Normalize, Trim, ExecutedLine, OptionalAmount, GoodRequest, Linked, OutcomeOf, TxHash,
         StoredRole;
    SubmittedRequest(p, role);
    RolesStored();
    assert OptionalAmount("").Some? by { EmptyAmount(); }
    SoundLineExecuted(p, r);
    if r.txHash != "" {
      assert RecordOk(cfg, s, req.id, s.requests[req.id]);
    }
  }

  lemma EmptyAmount()
    ensures OptionalAmount("").Some?
  {
  }

  lemma LinesExtended(requests: Requests, n: NormRun, lines: seq<Line>, l: Line)
    requires LinesGood(requests, n, lines) && |lines| < |n.payouts| && LineGood(requests, n.role, n.payouts[|lines|], l)
    ensures LinesGood(requests, n, lines + [l])
  {
    hide LineGood;
  }

  // ---------------------------------------------------------------- finishing

  lemma GoodLinesExecuted(requests: Requests, n: NormRun, lines: seq<Line>)
    requires LinesGood(requests, n, lines)
    ensures AllExecuted(lines)
    ensures AllConfirmed(lines) ==> !HasRetryable(lines)
  {
    hide ExecutedLine, HashedLineOk, StoredRole, Trim;
    forall j | 0 <= j < |lines|
      ensures ExecutedLine(lines[j]) && (lines[j].status == Confirmed ==> !lines[j].retryable)
    {
      assert LineGood(requests, n.role, n.payouts[j], lines[j]);
      ConfirmedIsOk(lines[j]);
    }
  }

  lemma ConfirmedIsOk(l: Line)
    requires ExecutedLine(l)
    ensures l.status == Confirmed ==> l.ok
  {
  }

  lemma FinishedRun(requests: Requests, n: NormRun, plan: RunResponse, lines: seq<Line>)
    requires PlanOk(n, plan) && plan.ok && LinesGood(requests, n, lines) && |lines| == |n.payouts|
    ensures RunRecordOk(requests, plan.runId, RunRecord(n, n, ExecutedRun(plan, lines))) &&
            Settles(plan.requested, ExecutedRun(plan, lines))
  {
    hide ExecutedRun, LinesGood, TallyLines, AllPlanned, GoodPayouts, NeedsEscrow, AllExecuted, SumsClasses, Count,
         HasRetryable, AllConfirmed, NoVerdict, DeriveStatus;
    if AllConfirmed(lines) && |lines| > 0 {
      AllConfirmedStatus(plan, lines, requests, n);
    }
    GoodLinesExecuted(requests, n, lines);
    ExecutedRunForm(plan, lines);
    RunStatusAndTotals(plan, lines);
    StatusOk(plan.requested, TallyLines(ZERO, lines));
  }

  /** A run with only confirmed lines is confirmed or, when invalid lines were requested too, left without a status. */
  lemma AllConfirmedStatus(plan: RunResponse, lines: seq<Line>, requests: Requests, n: NormRun)
    requires AllConfirmed(lines) && LinesGood(requests, n, lines) && 0 < |lines| <= plan.requested
    ensures var s := ExecutedRun(plan, lines).status; s == Confirmed || s == Blank
  {
    hide ExecutedRun, LinesGood, TallyLines, Count, Class, AllExecuted;
    GoodLinesExecuted(requests, n, lines);
    ExecutedRunForm(plan, lines);
    TallyCounts(lines);
    CountAll(lines, IsConfirmed);
    ClassesPartition(lines);
    assert forall i :: 0 <= i < |lines| ==> Class(lines[i]) == IsConfirmed by { ConfirmedClass(lines); }
  }

  lemma ConfirmedClass(lines: seq<Line>)
    requires AllConfirmed(lines)
    ensures forall i :: 0 <= i < |lines| ==> Class(lines[i]) == IsConfirmed
  {
  }

  // ---------------------------------------------------------------- reading and writing

  lemma ReplayedRun(requests: Requests, n: NormRun, r: RunResponse)
    requires RunResponseOk(requests, n, r)
    ensures RunResponseOk(requests, n, r.(replay := true))
  {
    hide LinesGood, TallyLines, NeedsEscrow, AllPlanned, HasRetryable;
  }

  lemma RunDecisionOk(s: Store, f: RunFrame)
    requires RunsOk(s) && PlanOk(f.norm, f.plan)
    ensures var id := f.plan.runId;
            var answer := DecideRun(if id in s.runs then Some(s.runs[id]) else None, f.norm, f.plan);
            if answer.Some? then RunAnswerOk(s, id, f.norm, answer.value) && Settles(f.plan.requested, answer.value)
            else OpenRun(s.runs, f)
  {
    hide RunResponseOk, FinalRun, PlanOk, AllConfirmed;
    var id := f.plan.runId;
    if id in s.runs && s.runs[id].fingerprint == f.norm {
      ReplayedRun(s.requests, f.norm, s.runs[id].response);
      if FinalRun(s.runs[id].response) {
        FinalSettles(s.requests, f.norm, s.runs[id].response, f.plan.requested);
      }
    }
    IdleFailure(s.requests, f.norm, "IDEMPOTENCY_CONFLICT", false, id, f.plan.role, f.plan.signer);
  }

  lemma FinalSettles(requests: Requests, n: NormRun, r: RunResponse, requested: nat)
    requires RunResponseOk(requests, n, r) && FinalRun(r)
    ensures Settles(requested, r) && Settles(requested, r.(replay := true))
  {
    hide LinesGood, TallyLines, NeedsEscrow, FinalRun;
    IdleSettles(r, requested);
  }

  lemma IdleSettles(r: RunResponse, requested: nat)
    ensures RunIdle(r) ==> Settles(requested, r)
  {
    if RunIdle(r) && |r.lines| == requested > 0 {
      assert PlannedLine(r.lines[0]);
    }
  }

  lemma IdleFailure(requests: Requests, n: NormRun, code: string, retryable: bool, id: string, role: string,
                    signer: string)
    ensures RunResponseOk(requests, n, FailedRun(code, retryable, id, role).(signer := signer))
    ensures FailedRun(code, retryable, id, role).status == Failed
  {
  }

  lemma RefusedPlanRecord(requests: Requests, n: NormRun, plan: RunResponse)
    requires PlanOk(n, plan) && !plan.ok
    ensures RunRecordOk(requests, plan.runId, RunRecord(n, n, plan)) && Settles(plan.requested, plan)
  {
    hide AllPlanned, GoodPayouts, NeedsEscrow, RunDone;
    IdleSettles(plan, plan.requested);
  }

  lemma RunWriteKeeps(cfg: Config, s: Store, l: LockTable, pid: nat, f: RunFrame)
    requires StoreOk(cfg, s) && RunInv(s, l, pid, f) && f.pc.RunWriting?
    ensures var rec := RunRecord(f.norm, f.norm, f.pc.written); var s' := s.(runs := s.runs[f.plan.runId := rec]);
            StoreOk(cfg, s') && Preserved(s, s') && RunAnswerOk(s', f.plan.runId, f.norm, f.pc.written) &&
            Local(l, l, pid, s.runs, s'.runs)
  {
    hide ChainOk, RequestsOk, ChallengesOk, PlanOk, RunResponseOk, FinalRun, FinalChallenge, Grows, SendsKept,
         RequestsKept, ChallengesKept;
    var rec := RunRecord(f.norm, f.norm, f.pc.written);
    var s' := s.(runs := s.runs[f.plan.runId := rec]);
    ChainUnmoved(s, s');
    PreservedSame(s);
    assert RunsKept(s.runs, s'.runs);
    assert RunsOk(s');
    RequestsStable(cfg, s, s');
    ChallengesStable(cfg, s, s');
    ConfirmedIsFinal(s.requests, f.norm, f.pc.written);
  }

  lemma ConfirmedIsFinal(requests: Requests, n: NormRun, r: RunResponse)
    requires RunResponseOk(requests, n, r)
    ensures r.status == Confirmed ==> FinalRun(r)
  {
    hide LinesGood, TallyLines, NeedsEscrow, AllPlanned, FinalRun;
  }

  // ---------------------------------------------------------------- steps

  /** The call of a run's current line. */
  ghost predicate LineCall(f: RunFrame, call: Option<Call>) {
    call.Some? ==>
      f.pc.RunLines? && |f.lines| < |f.norm.payouts| && Normalize(Submitted(f), f.norm.role) == Some(call.value.req)
  }

  ghost predicate CallsOk(cfg: Config, s: Store, l: LockTable, pid: nat, call: Option<Call>) {
    call.Some? ==> CallInv(cfg, s, l, pid, call.value)
  }

  lemma NewCall(cfg: Config, s: Store, l: LockTable, pid: nat, raw: RawRequest, role: string)
    requires Normalize(raw, role).Some? && (role == PAYOUT || role == ESCROW)
    ensures CallInv(cfg, s, l, pid, Call(Normalize(raw, role).value, Locking))
  {
    hide Normalize, GoodRequest;
    NormalizeGood(raw, role);
  }

  lemma SubmitKeeps(cfg: Config, s: Store, lr: LockTable, l: LockTable, pid: nat, f: RunFrame, s': Store, l': LockTable,
                    f': RunFrame, call': Option<Call>)
    requires RunInv(s, l, pid, f) && RunStep(pid, SubmitLine, s, l, f, None, s', l', f', call')
    ensures RunInv(s', l', pid, f') && LineCall(f', call') && CallsOk(cfg, s', lr, pid, call')
  {
    hide LinesGood, OpenRun, Normalize, InvalidRequest, LineFrom, CallInv, AllPlanned, NeedsEscrow, NormalPayout;
    var p := f.norm.payouts[|f.lines|];
    if Normalize(Submitted(f), f.norm.role).None? {
      InvalidLineGood(s.requests, f.norm.role, p);
      LinesExtended(s.requests, f.norm, f.lines, LineFrom(p, InvalidRequest(ItemRequest(p), f.norm.role)));
      StillOpenRun(s.runs, f, f');
    } else {
      NewCall(cfg, s, lr, pid, Submitted(f), f.norm.role);
    }
  }

  lemma StillOpenRun(runs: RunStore, f: RunFrame, f': RunFrame)
    requires OpenRun(runs, f) && f'.norm == f.norm && f'.plan == f.plan
    ensures OpenRun(runs, f')
  {
    hide FinalRun;
  }

  lemma CollectKeeps(cfg: Config, s: Store, lr: LockTable, l: LockTable, pid: nat, f: RunFrame, call: Call, s': Store,
                     l': LockTable, f': RunFrame)
    requires StoreOk(cfg, s) && RunInv(s, l, pid, f) && LineCall(f, Some(call)) && CallInv(cfg, s, lr, pid, call)
    requires RunStep(pid, CollectLine, s, l, f, Some(call), s', l', f', None)
    ensures RunInv(s', l', pid, f')
  {
    hide LinesGood, OpenRun, Normalize, LineFrom, AllPlanned, NeedsEscrow, NormalPayout, ChainOk, RequestsOk, RunsOk,
         ChallengesOk, AnswerOk, GoodRequest, RecordOk, SignedBy;
    var p := f.norm.payouts[|f.lines|];
    AnswerLineGood(cfg, s, f.norm.role, p, call.req, call.pc.answer);
    LinesExtended(s.requests, f.norm, f.lines, LineFrom(p, call.pc.answer));
    StillOpenRun(s.runs, f, f');
  }

  /** One step of a run keeps the store in order, changes no final record and keeps its own promises. */
  lemma RunStepKeeps(cfg: Config, pid: nat, act: RunAct, s: Store, lr: LockTable, l: LockTable, f: RunFrame,
                     call: Option<Call>,
                     s': Store, l': LockTable, f': RunFrame, call': Option<Call>)
    requires StoreOk(cfg, s) && RunInv(s, l, pid, f) && LineCall(f, call) && CallsOk(cfg, s, lr, pid, call)
    requires RunStep(pid, act, s, l, f, call, s', l', f', call')
    ensures StoreOk(cfg, s') && Preserved(s, s') && RunInv(s', l', pid, f') && LineCall(f', call') &&
            CallsOk(cfg, s', lr, pid, call')
    ensures Local(l, l', pid, s.runs, s'.runs) && s'.requests == s.requests && s'.challenges == s.challenges
  {
    hide StoreOk, Preserved, PlanOk, LinesGood, RunRecordOk, RunAnswerOk, OpenRun, CallInv, Normalize, DecideRun,
         ExecutedRun, LineFrom, Settles, InvalidRequest;
    PreservedSame(s);
    match act
    case AcquireRun =>
    case ContendedRun => ContendedRunAnswer(s, f);
    case ReadRun =>
      StoreParts(cfg, s);
      RunDecisionOk(s, f);
      if !f.plan.ok { RefusedPlanRecord(s.requests, f.norm, f.plan); }
      ReadRunKeeps(s, l, pid, f, f');
    case SubmitLine => SubmitKeeps(cfg, s, lr, l, pid, f, s', l', f', call');
    case CollectLine => CollectKeeps(cfg, s, lr, l, pid, f, call.value, s', l', f');
    case FinishLines =>
      FinishedRun(s.requests, f.norm, f.plan, f.lines);
      StillOpenRun(s.runs, f, f');
    case WriteRun => RunWriteKeeps(cfg, s, l, pid, f);
    case ReleaseRun =>
  }

  lemma ReadRunKeeps(s: Store, l: LockTable, pid: nat, f: RunFrame, f': RunFrame)
    requires RunInv(s, l, pid, f) && f.pc.RunReading? && f.lines == []
    requires var id := f.plan.runId;
             var answer := DecideRun(if id in s.runs then Some(s.runs[id]) else None, f.norm, f.plan);
             (if answer.Some? then RunAnswerOk(s, id, f.norm, answer.value) && Settles(f.plan.requested, answer.value)
              else OpenRun(s.runs, f)) &&
             f' == f.(pc := if answer.Some? then RunUnlocking(answer.value)
                            else if !f.plan.ok then RunWriting(f.plan) else RunLines)
    requires !f.plan.ok ==>
               RunRecordOk(s.requests, f.plan.runId, RunRecord(f.norm, f.norm, f.plan)) &&
               Settles(f.plan.requested, f.plan)
    ensures RunInv(s, l, pid, f')
  {
    hide PlanOk, RunRecordOk, RunAnswerOk, DecideRun, LineGood, FinalRun, Settles;
  }

  lemma ContendedRunAnswer(s: Store, f: RunFrame)
    ensures RunAnswerOk(s, f.plan.runId, f.norm, RunInProgress(f)) && Settles(f.plan.requested, RunInProgress(f))
  {
    hide FinalRun, RunDone;
  }
}

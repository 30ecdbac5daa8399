/** What may be tried again, in every reachable state: told from the stored records, and from what the network said. */
module Retries {
  import opened Text
  import opened Amounts
  import opened Ids
  import opened Records
  import opened Signers
  import opened Transfers
  import opened Runs
  import opened RunLaws
  import opened Challenges
  import opened ChallengeLaws
  import opened Audit
  import opened Machine
  import opened Once
  import opened Invariants
  import opened Safety
  import opened Theorems
  import opened TopUps
  import opened Reuse

  // ---------------------------------------------------------------- requests

  /** The same payment under the same signer role; records from before roles existed were payouts. */
  predicate SamePayment(stored: Request, req: Request) {
    stored.to == req.to && stored.amount == req.amount && stored.memo == req.memo &&
    (if Trim(Lower(stored.role)) == "" then PAYOUT else Trim(Lower(stored.role))) == req.role
  }

  /**
   * A stored transfer is tried again if and only if the same payment is asked for and the stored answer is retryable;
   * otherwise it is answered from its record, or, for another payment, refused without a hash.
   */
  lemma RequestRetriedExactly(cfg: Config, ws: seq<World>, steps: seq<Step>, i: nat, req: Request)
    requires Behaviour(cfg, ws, steps) && i < |ws| && req.id in ws[i].store.requests
    requires req.role == PAYOUT || req.role == ESCROW
    ensures var rec := ws[i].store.requests[req.id]; var answer := Decide(Some(rec), req);
            if !SamePayment(rec.request, req) then
              answer.Some? && answer.value.failureCode == "IDEMPOTENCY_CONFLICT" && answer.value.txHash == "" &&
              !answer.value.retryable && !answer.value.ok
            else if rec.response.retryable then answer.None? && rec.response.txHash == ""
            else answer == Some(rec.response.(replay := true))
  {
    hide Next, Init, Execution, ProcessesOk, LogOk, OnceInv, ChainOk, RunsOk, ChallengesOk, Trim, Lower, Linked,
         GoodRequest;
    ReachableInv(cfg, ws, steps, i);
    assert RecordOk(cfg, ws[i].store, req.id, ws[i].store.requests[req.id]);
    RolesStored();
  }

  /** A refused or sent transfer is tried again exactly when its refusal, or the node without a hash, says so. */
  lemma AnswersToRetry(req: Request, signer: string, p: Preflight, v: Verdict)
    requires p.Stopped?
    ensures Decide(Some(NewRecord(req, signer, Refusal(req, p))), req).None? <==> p.retryable
    ensures var r := Refusal(req, p);
            r.failureCode == p.code && r.signer == p.signer && !r.ok && r.status == Failed && r.txHash == "" &&
            r.id == req.id && r.to == req.to && r.amount == req.amount && r.role == req.role
    ensures Decide(Some(NewRecord(req, signer, BroadcastResponse(req, signer, v))), req).None? <==>
            v.NoHash? && v.retryable
    ensures v.Hashed() && HashOf(v) != "" ==>
              Reports(Decide(Some(NewRecord(req, signer, BroadcastResponse(req, signer, v))), req).value, v)
  {
    hide StoredRole;
  }

  /** An answer that something is in progress says nothing happened, and can be tried again. */
  lemma BusyAnswersRetry(req: Request, f: RunFrame, n: NormChallenge)
    ensures var r := InProgress(req); !r.ok && r.retryable && r.txHash == "" && r.failureCode == "REQUEST_IN_PROGRESS"
    ensures var r := RunInProgress(f); !r.ok && r.retryable && r.lines == [] && r.failureCode == "RUN_IN_PROGRESS"
    ensures var r := FailedChallenge("CHALLENGE_IN_PROGRESS", true, n);
            !r.ok && r.retryable && r.moves == [] && r.failureCode == "CHALLENGE_IN_PROGRESS"
  {
  }

  /**
   * Records say what the network said. In every reachable state the hash a broadcast returned is in the record of its
   * id, as confirmed, accepted or failed just as the network had it, unless its own process still carries it there.
   */
  lemma VerdictsAreRecorded(cfg: Config, ws: seq<World>, steps: seq<Step>, i: nat, k: nat)
    requires Behaviour(cfg, ws, steps) && i < |ws| && k < |ws[i].log| && ws[i].log[k].verdict.Hashed()
    ensures var w, id, v := ws[i], ws[i].log[k].req.id, ws[i].log[k].verdict;
            (id in w.store.requests && w.store.requests[id].response.txHash == v.hash &&
             w.store.requests[id].response.status == StatusOf(v)) ||
            exists pid :: pid in w.procs && Carrying(w.procs[pid], id, v)
  {
    hide Next, Init, Execution, RailOk, Owned, AtMostOnce;
    ReachableInv(cfg, ws, steps, i);
    assert Accounted(ws[i], ws[i].log[k]);
  }

  // ---------------------------------------------------------------- runs

  lemma FinalRunExactly(requests: Requests, n: NormRun, r: RunResponse)
    requires RunResponseOk(requests, n, r)
    ensures FinalRun(r) <==> r.status != Blank && forall i :: 0 <= i < |r.lines| ==> !r.lines[i].retryable
  {
    hide LinesGood, TallyLines, NeedsEscrow, AllConfirmed;
    RunStatuses(requests, n, r);
  }

  lemma RunStatuses(requests: Requests, n: NormRun, r: RunResponse)
    requires RunResponseOk(requests, n, r)
    ensures r.status != Validated && (r.ok <==> r.status == Confirmed || r.status == Accepted)
  {
    hide LinesGood, TallyLines, NeedsEscrow, FinalRun, AllConfirmed;
  }

  /**
   * A stored run is executed again if and only if the same run is asked for and some line of it is retryable, or it was
   * left without a status; otherwise it is replayed, or, for another run, refused.
   */
  lemma RunRetriedExactly(cfg: Config, ws: seq<World>, steps: seq<Step>, i: nat, id: string, n: NormRun,
                          plan: RunResponse)
    requires Behaviour(cfg, ws, steps) && i < |ws| && id in ws[i].store.runs
    ensures var rec := ws[i].store.runs[id]; var answer := DecideRun(Some(rec), n, plan);
            if n != rec.request then
              answer.Some? && answer.value.failureCode == "IDEMPOTENCY_CONFLICT" && answer.value.lines == [] &&
              !answer.value.ok
            else if rec.response.status == Blank || HasRetryable(rec.response.lines) then answer.None?
            else answer == Some(rec.response.(replay := true))
  {
    hide Next, Init, Execution, ProcessesOk, LogOk, OnceInv, ChainOk, RequestsOk, ChallengesOk, RunResponseOk,
         FinalRun;
    ReachableInv(cfg, ws, steps, i);
    var s := ws[i].store;
    assert RunRecordOk(s.requests, id, s.runs[id]);
    FinalRunExactly(s.requests, s.runs[id].request, s.runs[id].response);
  }

  // ---------------------------------------------------------------- challenges

  /**
   * A stored challenge is settled again if and only if the same challenge is asked for and it is retryable or was left
   * without a status; otherwise it is replayed, or, for another challenge, refused.
   */
  lemma ChallengeRetriedExactly(cfg: Config, ws: seq<World>, steps: seq<Step>, i: nat, n: NormChallenge)
    requires Behaviour(cfg, ws, steps) && i < |ws| && n.runId in ws[i].store.challenges
    ensures var rec := ws[i].store.challenges[n.runId]; var answer := DecideChallenge(Some(rec), n);
            if n != rec.request then
              answer.Some? && answer.value.failureCode == "IDEMPOTENCY_CONFLICT" && answer.value.moves == [] &&
              !answer.value.ok
            else if rec.response.status == Blank || rec.response.retryable then answer.None?
            else answer == Some(rec.response.(replay := true))
  {
    hide Next, Init, Execution, ProcessesOk, LogOk, OnceInv, ChainOk, RequestsOk, RunsOk, HashesOk, Explained;
    ReachableInv(cfg, ws, steps, i);
    assert ChallengeRecordOk(cfg, ws[i].store, n.runId, ws[i].store.challenges[n.runId]);
  }

  lemma {:induction false} RetryableTally(t: Tally, lines: seq<Line>)
    ensures TallyLines(t, lines).retryable <==>
            t.retryable || exists i :: 0 <= i < |lines| && OptionalAmount(lines[i].amount).Some? && lines[i].retryable
  {
    hide OptionalAmount, Add;
    if |lines| > 0 {
      var init, l := lines[..|lines| - 1], lines[|lines| - 1];
      RetryableTally(t, init);
      if i :| 0 <= i < |lines| && OptionalAmount(lines[i].amount).Some? && lines[i].retryable {
        assert i < |init| ==> init[i] == lines[i];
      }
      assert forall i :: 0 <= i < |init| ==> init[i] == lines[i];
    }
  }

  /** Whether a line that can be totalled may be tried again. */
  predicate SomeRetryable(moves: seq<Move>) {
    exists i ::
      0 <= i < |moves| && OptionalAmount(moves[i].line.amount).Some? && moves[i].line.retryable
  }

  lemma FinalizedRetryable(r: ChallengeResponse)
    ensures FinalizeChallenge(r).retryable <==>
            r.retryable || (r.run.Some? && r.run.value.retryable) || SomeRetryable(r.moves)
  {
    hide TallyLines, Buckets, FirstFailureCode, FirstNonEmpty, OptionalAmount, DeriveStatus;
    var lines := LinesOf(r.moves);
    RetryableTally(Recount(r.tally, r.retryable), lines);
    assert forall i :: 0 <= i < |lines| ==> lines[i] == r.moves[i].line;
    if SomeRetryable(r.moves) {
      var i :| 0 <= i < |r.moves| && OptionalAmount(r.moves[i].line.amount).Some? && r.moves[i].line.retryable;
      assert OptionalAmount(lines[i].amount).Some? && lines[i].retryable;
    }
  }

  /**
   * A challenge that stopped before paying can be tried again exactly when its refusal, or its run's, is retryable; no
   * line stays ready, and none gets a hash.
   */
  lemma RefusedEndsExactly(r: ChallengeResponse)
    requires r.status == Failed && !r.ok && !SomeRetryable(r.moves)
    ensures var c := RefusedChallenge(r);
            c.status == Failed && !c.ok && c.failureCode == r.failureCode && |c.moves| == |r.moves| &&
            (c.retryable <==> r.retryable || (r.run.Some? && r.run.value.retryable)) &&
            forall i :: 0 <= i < |c.moves| ==>
              c.moves[i].line.outcome != Ready && c.moves[i].line.txHash == r.moves[i].line.txHash &&
              (r.moves[i].line.outcome == Ready ==>
                 c.moves[i].line.status == Failed && !c.moves[i].line.ok &&
                 c.moves[i].line.failureCode == r.failureCode)
  {
    hide FinalizeChallenge, OptionalAmount;
    var q := r.(moves := FailReady(r.moves, r.failureCode, r.retryable));
    FinalizedRetryable(q);
    FinalizeChallengeKeeps(q);
    FailedKeepsCode(q);
    if SomeRetryable(q.moves) {
      var i :| 0 <= i < |q.moves| && OptionalAmount(q.moves[i].line.amount).Some? && q.moves[i].line.retryable;
      assert r.moves[i].line.amount == q.moves[i].line.amount;
      assert r.moves[i].line.outcome == Ready || SomeRetryable(r.moves);
    }
  }

  lemma FailedKeepsCode(r: ChallengeResponse)
    requires r.status == Failed
    ensures FinalizeChallenge(r).failureCode == r.failureCode
  {
    hide TallyLines, Buckets, FirstFailureCode, FirstNonEmpty;
  }

  /** A challenge whose top-up failed can be tried again exactly when the top-up or the run can. */
  lemma FailedTopUpEndsExactly(r: ChallengeResponse, t: TopUp)
    requires !SomeRetryable(r.moves)
    ensures var c := FailedTopUp(r, t);
            c.status == Failed && !c.ok && c.topUp == Some(t) &&
            c.failureCode == FirstNonEmpty(t.code, "ESCROW_TOP_UP_FAILED") &&
            (c.retryable <==>
             (t.response.Some? && t.response.value.retryable) || (r.run.Some? && r.run.value.retryable))
  {
    hide RefusedChallenge, FirstNonEmpty, SomeRetryable;
    var q := r.(topUp := Some(t), ok := false, status := Failed,
                failureCode := FirstNonEmpty(t.code, "ESCROW_TOP_UP_FAILED"),
                retryable := t.response.Some? && t.response.value.retryable);
    RefusedEndsExactly(q);
    RefusedKeepsTopUp(q);
  }

  lemma RefusedKeepsTopUp(r: ChallengeResponse)
    ensures RefusedChallenge(r).topUp == r.topUp
  {
    hide FinalizeChallenge;
    FinalizeChallengeKeeps(r.(moves := FailReady(r.moves, r.failureCode, r.retryable)));
  }

  /** A challenge that executed its run can be settled again exactly when the run, or one of its lines, can. */
  lemma ExecutedEndsExactly(r: ChallengeResponse, ts: seq<NormTransfer>, run: RunResponse)
    ensures var c := ExecutedChallenge(r, ts, run);
            c.retryable <==> run.retryable || SomeRetryable(Merge(ts, run))
  {
    hide FinalizeChallenge, Merge, SomeRetryable;
    var q := r.(run := Some(run), moves := Merge(ts, run), status := Blank, ok := false, failureCode := "",
                retryable := run.retryable, replay := false);
    FinalizedRetryable(q);
  }

  // ---------------------------------------------------------------- refused plans

  /**
   * A refused plan that needs a top-up can be tried again exactly when top-ups are switched off, or everything is
   * configured and the escrow balance is unknown or too low; one that needs none, exactly when its run can.
   */
  lemma RefusedPlanRetries(cfg: Config, v: View, sid: string, r: ChallengeResponse, run: RunResponse)
    requires !r.ok && r.status == Failed && !r.retryable
    requires !Passes(run, PlanTopUp(cfg, v, sid, run))
    ensures JudgePlan(r, run, PlanTopUp(cfg, v, sid, run)).retryable <==>
            if run.payoutBalanceBefore.None? || run.payoutBalanceBefore.value >= RequiredBalance(cfg, run)
            then run.retryable
            else
              !cfg.autoTopUp ||
              (Trim(cfg.payoutAddress) != "" && Trim(cfg.escrowKeyName) != "" && Trim(cfg.escrowAddress) != "" &&
               v.escrowKey.Resolved?)
  {
    hide RequiredBalance, Trim, TopUpId, JudgePlan, Transient;
    if run.payoutBalanceBefore.Some? && run.payoutBalanceBefore.value < RequiredBalance(cfg, run) {
      var t := PlanTopUp(cfg, v, sid, run).value;
      JudgedRetryable(r, run, t);
      LastingCodes();
      TransientCodes();
    } else {
      JudgedByRun(r, run, PlanTopUp(cfg, v, sid, run));
    }
  }

  lemma JudgedByRun(r: ChallengeResponse, run: RunResponse, topUp: Option<TopUp>)
    requires !r.ok && !(topUp.Some? && topUp.value.required) && !run.ok
    ensures JudgePlan(r, run, topUp).retryable == run.retryable
  {
    hide HasSuffix, FirstNonEmpty;
  }

  lemma JudgedRetryable(r: ChallengeResponse, run: RunResponse, t: TopUp)
    requires !r.retryable && t.required && !(t.enabled && t.possible)
    ensures JudgePlan(r, run, Some(t)).retryable <==> !t.enabled || Transient(t.code)
  {
    hide HasSuffix, FirstNonEmpty;
  }

  /** Codes that end in a failed lookup or in a balance that is too low can be tried again. */
  predicate Transient(code: string) {
    HasSuffix(FirstNonEmpty(code, "ESCROW_TOP_UP_UNAVAILABLE"), "_LOOKUP_FAILED") ||
    HasSuffix(FirstNonEmpty(code, "ESCROW_TOP_UP_UNAVAILABLE"), "_TOO_LOW")
  }

  lemma OwnCode(code: string)
    requires Trim(code) == code && code != ""
    ensures FirstNonEmpty(code, "ESCROW_TOP_UP_UNAVAILABLE") == code
  {
    hide Trim;
  }

  lemma LastingCodes()
    ensures !Transient("PAYOUT_SIGNER_UNAVAILABLE") && !Transient("ESCROW_TOP_UP_UNCONFIGURED")
  {
    hide FirstNonEmpty;
    LastingTrimmed();
    OwnCode("PAYOUT_SIGNER_UNAVAILABLE");
    OwnCode("ESCROW_TOP_UP_UNCONFIGURED");
    EndsApart("PAYOUT_SIGNER_UNAVAILABLE", 'E');
    EndsApart("ESCROW_TOP_UP_UNCONFIGURED", 'D');
    assert "ESCROW_TOP_UP_UNCONFIGURED"[|"ESCROW_TOP_UP_UNCONFIGURED"| - 3] == 'R';
  }

  lemma LastingTrimmed()
    ensures Trim("PAYOUT_SIGNER_UNAVAILABLE") == "PAYOUT_SIGNER_UNAVAILABLE" &&
            Trim("ESCROW_TOP_UP_UNCONFIGURED") == "ESCROW_TOP_UP_UNCONFIGURED"
  {
  }

  /** A code with a transient suffix ends as the suffix does. */
  lemma EndsApart(code: string, last: char)
    requires |code| > 20 && code[|code| - 1] == last
    ensures HasSuffix(code, "_LOOKUP_FAILED") ==> last == 'D' && code[|code| - 3] == 'L'
    ensures HasSuffix(code, "_TOO_LOW") ==> last == 'W'
  {
    var a, b := "_LOOKUP_FAILED", "_TOO_LOW";
    if HasSuffix(code, a) {
      assert code[|code| - |a|..][|a| - 1] == a[|a| - 1] && code[|code| - |a|..][|a| - 3] == a[|a| - 3];
    }
    if HasSuffix(code, b) {
      assert code[|code| - |b|..][|b| - 1] == b[|b| - 1];
    }
  }

  lemma TransientCodes()
    ensures Transient("ESCROW_BALANCE_LOOKUP_FAILED") && Transient("ESCROW_BALANCE_TOO_LOW")
  {
    hide FirstNonEmpty;
    TransientTrimmed();
    OwnCode("ESCROW_BALANCE_LOOKUP_FAILED");
    OwnCode("ESCROW_BALANCE_TOO_LOW");
    assert "ESCROW_BALANCE_LOOKUP_FAILED"[14..] == "_LOOKUP_FAILED";
    assert "ESCROW_BALANCE_TOO_LOW"[14..] == "_TOO_LOW";
  }

  lemma TransientTrimmed()
    ensures Trim("ESCROW_BALANCE_LOOKUP_FAILED") == "ESCROW_BALANCE_LOOKUP_FAILED" &&
            Trim("ESCROW_BALANCE_TOO_LOW") == "ESCROW_BALANCE_TOO_LOW"
  {
  }

  /**
   * A payout run that is refused before it starts can be tried again, and its record is not final, exactly when it is
   * no bet market's and the node was unreachable, or a serviceable signer has its reserve but not the total as well.
   */
  lemma RefusedRunRetries(cfg: Config, v: View, request: RunRequest)
    requires var n := Prepare(request).0; n.role == PAYOUT && |n.payouts| > 0
    requires !PlanRun(cfg, v, request).1.ok
    ensures var r := PlanRun(cfg, v, request).1;
            (r.retryable <==>
             !NeedsEscrow(Prepare(request).0) &&
             (v.fault == Some("RPC_UNREACHABLE") ||
              (Serviceable(cfg, v, PAYOUT) && BalanceOf(v, PAYOUT) >= Reserve(LimitsOf(cfg, PAYOUT))))) &&
            r.status == Failed && (FinalRun(r) <==> !r.retryable)
  {
    hide Prepare, Finalize, PayoutPlan, RefuseRun, NeedsEscrow, HasReady, Serviceable, Reserve;
    var (n, p) := Prepare(request);
    PrepareFacts(request);
    PreparedRetries(request);
    ReadyRun(request);
    var refused := RefuseRun(p, "ESCROW_SIGNER_REQUIRED", false);
    RefusedLines(p, "ESCROW_SIGNER_REQUIRED", false);
    FinalizeKeeps(refused);
    FinalizedRun(refused);
    var q := p.(estimatedFee := EstimatedFee(cfg, |n.payouts|));
    PayoutPlanRetries(cfg, v, q);
    PayoutPlanOkExactly(cfg, v, q);
    FinalizeKeeps(PayoutPlan(cfg, v, q));
    FinalizedRun(PayoutPlan(cfg, v, q));
  }

  lemma FinalizedRun(r: RunResponse)
    ensures Finalize(r).retryable <==>
            r.retryable ||
            exists i :: 0 <= i < |r.lines| && OptionalAmount(r.lines[i].amount).Some? && r.lines[i].retryable
  {
    hide TallyLines, FirstFailureCode, FirstNonEmpty, OptionalAmount, DeriveStatus;
    RetryableTally(Recount(r.tally, r.retryable), r.lines);
  }

  lemma PreparedRetries(request: RunRequest)
    ensures var p := Prepare(request).1; !p.retryable && forall i :: 0 <= i < |p.lines| ==> !p.lines[i].retryable
  {
    hide ValidRunHeader, Trim, RunRole;
    if ValidRunHeader(request) {
      PreparedLinesRetry(Trim(request.runId), Cut(Trim(request.memo), 180), RunRole(request.role), request.payouts);
    }
  }

  lemma {:induction false} PreparedLinesRetry(runId: string, memo: string, role: string, raws: seq<RawRequest>)
    ensures forall l :: l in PrepareLines(runId, memo, role, raws).lines ==> !l.retryable
  {
    hide Normalize, ItemRaw;
    if |raws| > 0 {
      PreparedLinesRetry(runId, memo, role, raws[..|raws| - 1]);
    }
  }

  /** A refused run is refused line by line. */
  lemma RefusedLines(r: RunResponse, code: string, retryable: bool)
    requires forall i :: 0 <= i < |r.lines| ==> !r.lines[i].retryable
    ensures var f := RefuseRun(r, code, retryable);
            !f.ok && f.status == Failed && f.retryable == retryable && |f.lines| == |r.lines| &&
            (HasReady(r.lines) ==> (HasRetryable(f.lines) <==> retryable)) &&
            (HasRetryable(f.lines) ==> retryable) &&
            forall i :: 0 <= i < |r.lines| && r.lines[i].outcome == Ready ==>
              f.lines[i].status == Failed && f.lines[i].outcome == Refused && f.lines[i].failureCode == code
  {
    var f := RefuseRun(r, code, retryable);
    if HasReady(r.lines) && retryable {
      var i :| 0 <= i < |r.lines| && r.lines[i].outcome == Ready;
      assert f.lines[i].retryable;
    }
  }

  lemma SignedReady(lines: seq<Line>, role: string, signer: string)
    requires forall i :: 0 <= i < |lines| ==> !lines[i].retryable
    ensures var s := SignReady(lines, role, signer);
            (HasReady(s) <==> HasReady(lines)) && forall i :: 0 <= i < |s| ==> !s[i].retryable
  {
    var s := SignReady(lines, role, signer);
    if i :| 0 <= i < |lines| && lines[i].outcome == Ready {
      assert s[i].outcome == Ready;
    }
    if i :| 0 <= i < |s| && s[i].outcome == Ready {
      assert lines[i].outcome == Ready;
    }
  }

  lemma PayoutPlanRetries(cfg: Config, v: View, r: RunResponse)
    requires !r.ok && !r.retryable && HasReady(r.lines) && forall i :: 0 <= i < |r.lines| ==> !r.lines[i].retryable
    ensures var p := PayoutPlan(cfg, v, r);
            !p.ok ==>
              (p.retryable <==>
               v.fault == Some("RPC_UNREACHABLE") ||
               (Serviceable(cfg, v, PAYOUT) && BalanceOf(v, PAYOUT) >= Reserve(LimitsOf(cfg, PAYOUT)))) &&
              p.status == Failed && (HasRetryable(p.lines) <==> p.retryable)
  {
    hide IsWoloAddress, CapacityFault, RefuseRun, SignReady, HasReady, HasRetryable, Serviceable, Reserve, HealthReport;
    var h := HealthReport(cfg, v);
    NoHealthCodeIsUnreachable(cfg, v);
    if h.balance.Some? {
      CapacityIsOneComparison(LimitsOf(cfg, PAYOUT), h.balance.value, r.requestedTotal);
    }
    HealthyExactly(cfg, v);
    UnhealthyFault(cfg, v);
    SignedReady(r.lines, PAYOUT, h.address);
    var s := r.(role := PAYOUT, signer := h.address, payoutBalanceBefore := h.balance, balanceBefore := h.balance,
                lines := SignReady(r.lines, PAYOUT, h.address));
    forall code, again ensures RefuseRun(s, code, again).retryable == again && !RefuseRun(s, code, again).ok &&
                               RefuseRun(s, code, again).status == Failed &&
                               (HasRetryable(RefuseRun(s, code, again).lines) <==> again) {
      RefusedLines(s, code, again);
    }
  }

  lemma UnhealthyFault(cfg: Config, v: View)
    ensures HealthReport(cfg, v).ok ==> v.fault.None?
  {
    hide IsWoloAddress;
  }

  // ---------------------------------------------------------------- executed runs

  /** What each payout was answered, as the run's lines report it. */
  function Reported(payouts: seq<Payout>, answers: seq<Response>): (ls: seq<Line>)
    requires |answers| == |payouts|
    ensures |ls| == |payouts|
  {
    seq(|payouts|, i requires 0 <= i < |payouts| => LineFrom(payouts[i], answers[i]))
  }

  /**
   * An executed run says what its transfers were answered: it is confirmed exactly when all of them were, its
   * lines carry their hashes, and it can be run again exactly when one of them can be tried again or it is left
   * without a status.
   */
  lemma ExecutedRunSays(plan: RunResponse, payouts: seq<Payout>, answers: seq<Response>)
    requires |answers| == |payouts| && plan.requested >= |payouts|
    requires forall i :: 0 <= i < |answers| ==>
               Sound(answers[i]) && answers[i].id == payouts[i].id && OptionalAmount(answers[i].amount).Some?
    ensures var lines := Reported(payouts, answers); var r := ExecutedRun(plan, lines);
            (r.status == Confirmed <==>
             plan.requested > 0 && |answers| == plan.requested &&
             forall i :: 0 <= i < |answers| ==> answers[i].status == Confirmed) &&
            (FinalRun(r) <==> r.status != Blank && forall i :: 0 <= i < |answers| ==> !answers[i].retryable) &&
            |r.lines| == |answers| && forall i :: 0 <= i < |answers| ==> Repeats(payouts[i], answers[i], r.lines[i])
  {
    hide TallyLines, Finalize, ExecutedRun, Count, Class, ExecutedLine, LineFrom, Sound, OptionalAmount, SumsClasses;
    var lines := Reported(payouts, answers);
    forall i | 0 <= i < |lines| ensures ExecutedLine(lines[i]) && Repeats(payouts[i], answers[i], lines[i]) {
      ReportedLine(payouts[i], answers[i]);
    }
    RunStatusAndTotals(plan, lines);
    ExecutedRunForm(plan, lines);
    ExecutedStatus(plan, lines);
    assert AllConfirmed(lines) <==> forall i :: 0 <= i < |answers| ==> answers[i].status == Confirmed;
  }

  /** A line that repeats what its payout was answered. */
  predicate Repeats(p: Payout, r: Response, l: Line) {
    l.id == r.id && l.txHash == r.txHash && l.status == r.status && l.signer == r.signer && l.role == r.role &&
    l.replay == r.replay && l.failureCode == r.failureCode && l.to == r.to && l.amount == r.amount &&
    l.retryable == r.retryable && l.memo == p.memo
  }

  lemma ReportedLine(p: Payout, r: Response)
    requires Sound(r) && OptionalAmount(r.amount).Some?
    ensures ExecutedLine(LineFrom(p, r)) && Repeats(p, r, LineFrom(p, r))
  {
    hide OptionalAmount, Trim, TxHash;
    BlankOrHash(r.txHash);
  }

  lemma BlankOrHash(h: string)
    ensures (TxHash(h) ==> Trim(h) != "") && Trim("") == ""
  {
    if TxHash(h) {
      TxHashTrimmed(h);
    }
  }

  lemma ExecutedStatus(plan: RunResponse, lines: seq<Line>)
    ensures ExecutedRun(plan, lines).status != Validated
  {
    hide TallyLines, FirstFailureCode, FirstNonEmpty;
  }

  /** The health report is good exactly without faults, with a valid escrow address and the reserve in place. */
  lemma HealthyExactly(cfg: Config, v: View)
    ensures var h := HealthReport(cfg, v);
            h.ok && cfg.payoutKeyName != "" && h.address != "" <==>
            Serviceable(cfg, v, PAYOUT) && BalanceOf(v, PAYOUT) >= Reserve(LimitsOf(cfg, PAYOUT))
    ensures HealthReport(cfg, v).ok && HealthReport(cfg, v).address != "" ==>
              HealthReport(cfg, v).balance == Some(BalanceOf(v, PAYOUT))
  {
    hide IsWoloAddress;
  }
}

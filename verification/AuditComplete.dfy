/** Audit completeness: exactly when the audit of a fully confirmed challenge passes, in every reachable state. */
module AuditComplete {
  import opened Text
  import opened Amounts
  import opened Ids
  import opened Records
  import opened Chain
  import opened Runs
  import opened RunLaws
  import opened Funding
  import opened Challenges
  import opened ChallengeLaws
  import opened ChallengeRuns
  import opened ChallengeSound
  import opened Audit
  import opened AuditLaws
  import opened Machine
  import opened Once
  import opened Invariants
  import opened ChallengeSteps
  import opened Safety
  import opened Theorems
  import opened Reverify

  // ---------------------------------------------------------------- what a confirmed challenge entails

  /** Every transfer was paid by its own confirmed line. */
  ghost predicate FullyPaid(requests: Requests, n: NormRun, ts: seq<NormTransfer>, run: RunResponse) {
    RunDone(requests, n, run) && n.payouts == RunPayouts(ts) && |n.payouts| == |ts| && AllConfirmed(run.lines) &&
    run.status == Confirmed &&
    IdsDistinct(ts) && PayoutIdsDistinct(n.payouts) && forall i :: 0 <= i < |ts| ==> ChallengeRuns.Kept(ts[i])
  }

  lemma {:induction false} AllKept(ts: seq<NormTransfer>)
    requires |RunPayouts(ts)| == |ts|
    ensures forall i :: 0 <= i < |ts| ==> ChallengeRuns.Kept(ts[i])
  {
    hide ChallengeRuns.Kept, RunPayout;
    if |ts| > 0 {
      AllKept(ts[..|ts| - 1]);
      assert forall i :: 0 <= i < |ts| - 1 ==> ts[i] == ts[..|ts| - 1][i];
    }
  }

  lemma {:induction false} KeptPrefix(ts: seq<NormTransfer>, i: nat)
    requires i <= |ts| && forall k :: 0 <= k < |ts| ==> ChallengeRuns.Kept(ts[k])
    ensures |RunPayouts(ts[..i])| == i
  {
    hide ChallengeRuns.Kept, RunPayout;
    if i > 0 {
      KeptPrefix(ts, i - 1);
      assert ts[..i][..i - 1] == ts[..i - 1];
    }
  }

  /** A run with nothing executed cannot confirm a challenge. */
  lemma IdleConfirmsNothing(plan: ChallengePlan, t: Option<TopUp>, run: RunResponse)
    requires ReadyPlan(plan) && IdleRun(run)
    ensures ExecutedChallenge(plan.response.(topUp := t), plan.norm.transfers, run).status != Confirmed
  {
    hide ExecutedChallenge, ReadyPlan, AllPlanned, LinesOf, BucketsHold, IdleRun;
    PositiveRequested(plan);
    RefinesIdle(plan, t, run);
  }

  lemma ConfirmedIsFullyPaid(requests: Requests, plan: ChallengePlan, t: Option<TopUp>, run: RunResponse)
    requires ReadyPlan(plan) && RunResponseOk(requests, Prepare(plan.runRequest).0, run) &&
             Settles(|plan.norm.transfers|, run)
    requires ExecutedChallenge(plan.response.(topUp := t), plan.norm.transfers, run).status == Confirmed
    ensures FullyPaid(requests, Prepare(plan.runRequest).0, plan.norm.transfers, run)
  {
    hide ReadyPlan, Prepare, IdleRun, ExecutedChallenge, IdsDistinct, PayoutIdsDistinct, RunPayouts, OwnResults,
         BucketsHold, ChallengeRuns.Kept, ValidRunHeader, Trim, NeedsEscrow, FinalRun, LinesGood, AllConfirmed,
         TallyLines, AllExecuted, Count, Class, Answered;
    var n, ts := Prepare(plan.runRequest).0, plan.norm.transfers;
    if RunIdle(run) {
      IdleConfirmsNothing(plan, t, run);
    }
    ReadyPayouts(plan);
    PositiveRequested(plan);
    DoneAnswers(requests, n, run);
    RefinesCore(plan, t, run);
    RunSteps.GoodLinesExecuted(requests, n, run.lines);
    TallyCounts(run.lines);
    CountAll(run.lines, IsConfirmed);
    ClassConfirmed(run.lines);
    AllKept(ts);
  }

  lemma PositiveRequested(plan: ChallengePlan)
    requires ReadyPlan(plan)
    ensures |plan.norm.transfers| > 0
  {
  }

  lemma ClassConfirmed(lines: seq<Line>)
    ensures (forall i :: 0 <= i < |lines| ==> Class(lines[i]) == IsConfirmed) ==> AllConfirmed(lines)
  {
  }

  // ---------------------------------------------------------------- deposits

  lemma CompletedIsAudited(rec: ChallengeRecord, i: nat)
    requires i < |rec.request.funding| && |rec.response.funding| == |rec.request.funding|
    ensures AuditExpectation(rec, i) == Completed(ExpectationOf(rec.request, rec.request.funding[i]),
                                                  rec.response.funding[i])
  {
    hide FirstNonEmpty;
  }

  lemma StoredAgreesSelf(d: Deposit)
    ensures StoredAgrees(d, d)
  {
  }

  lemma DepositAudits(site: Site, rec: ChallengeRecord, i: nat)
    requires site.fault == None && HonestChain(site.chain) && i < |rec.request.funding|
    requires FundingStands(site.cfg, site.chain, rec.request, rec.response)
    ensures Reverified(site, rec, i) == rec.response.funding[i] && DepositHolds(site, rec, i)
  {
    hide VerifyDeposit, HonestChain, StoredAgrees, FundedTotal, AuditExpectation, Completed, ExpectationOf;
    var e := ExpectationOf(rec.request, rec.request.funding[i]);
    assert rec.response.funding[i] == Deposited(site.cfg, site.chain, rec.request, i);
    VerifiesAgain(site.cfg, site.chain, rec.request.funding[i].hash, e);
    CompletedIsAudited(rec, i);
    StoredAgreesSelf(rec.response.funding[i]);
  }

  lemma FundingAudits(site: Site, rec: ChallengeRecord)
    requires site.fault == None && HonestChain(site.chain) &&
             FundingStands(site.cfg, site.chain, rec.request, rec.response)
    ensures FundingHolds(site, rec) && Verified(site, rec, |rec.request.funding|) == rec.response.funding
  {
    hide HonestChain, DepositHolds, Reverified, FundedTotal, Deposited, Verified;
    forall i | 0 <= i < |rec.request.funding|
      ensures DepositHolds(site, rec, i) && Reverified(site, rec, i) == rec.response.funding[i]
    {
      DepositAudits(site, rec, i);
    }
    AllVerified(site, rec, |rec.request.funding|);
    assert Verified(site, rec, |rec.request.funding|) == rec.response.funding;
  }

  // ---------------------------------------------------------------- allocation and totals

  /** Treasury lines name the treasury address exactly. */
  predicate TreasuryExact(n: NormChallenge) {
    forall i ::
      0 <= i < |n.transfers| && EqualFold(n.transfers[i].reason, "treasury") ==> n.transfers[i].to == n.treasury
  }

  lemma KeptAmount(t: NormTransfer)
    requires ChallengeRuns.Kept(t) && Trim(t.amount) == t.amount
    ensures OptionalAmount(t.amount) == ParseUint(t.amount) && OptionalAmount(t.amount).Some? && t.amount != ""
  {
    hide Trim;
  }

  lemma TransferParts(ds: seq<Deposit>, i: nat, t: NormTransfer)
    requires GoodTransfer(ds, i, t)
    ensures Trim(t.to) == t.to && Trim(t.amount) == t.amount && Trim(t.id) == t.id && Resolve(ds, t.side, t.pid).One? &&
            IsWoloAddress(t.to)
  {
    hide Trim, Resolve, RequestIdPattern, SidePattern, ReasonPattern, ValidEventId, IsWoloAddress;
  }

  lemma AllocationAudits(n: NormChallenge, r: ChallengeResponse)
    requires AllocationStands(n, r) && GoodNames(n) &&
             forall i :: 0 <= i < |n.transfers| ==> ChallengeRuns.Kept(n.transfers[i])
    ensures RoutesHold(n, r.funding, |n.transfers|) <==> TreasuryExact(n)
    ensures BucketsExact(r.funding, Reallocated(r.funding, n.transfers)) && AllPlaced(r.funding, n.transfers)
  {
    hide GoodTransfer, Resolve, Trim, OptionalAmount, ChallengeRuns.Kept, EqualFold, BucketsConserved, KeysDistinct,
         Reallocated, TransferTotal, Wrap, ValidRunId, ValidSourceApp, ValidEventId, BucketsExact;
    var ds, ts := r.funding, n.transfers;
    forall i | 0 <= i < |ts|
      ensures OptionalAmount(ts[i].amount).Some? && Resolve(ds, ts[i].side, ts[i].pid).One? &&
              Trim(ts[i].to) == ts[i].to
    {
      TransferParts(ds, i, ts[i]);
      KeptAmount(ts[i]);
    }
    RoutesExactly(n, ds);
    assert AllPlaced(ds, ts);
    ReallocatedIsSpent(ds, ts);
    ConservedIsExact(ds, ts);
  }

  lemma RoutesExactly(n: NormChallenge, ds: seq<Deposit>)
    requires Trim(n.treasury) == n.treasury
    requires forall i :: 0 <= i < |n.transfers| ==>
               OptionalAmount(n.transfers[i].amount).Some? &&
               Resolve(ds, n.transfers[i].side, n.transfers[i].pid).One? &&
               Trim(n.transfers[i].to) == n.transfers[i].to
    ensures RoutesHold(n, ds, |n.transfers|) <==> TreasuryExact(n)
  {
    hide Resolve, Trim, OptionalAmount, EqualFold;
    if RoutesHold(n, ds, |n.transfers|) {
      forall i | 0 <= i < |n.transfers| && EqualFold(n.transfers[i].reason, "treasury")
        ensures n.transfers[i].to == n.treasury
      {
        assert RouteHolds(n, ds, n.transfers[i]);
      }
    }
  }

  lemma ConservedIsExact(ds: seq<Deposit>, ts: seq<NormTransfer>)
    requires AllocatesSpent(ds, Reallocated(ds, ts), ts) && BucketsConserved(ds, ts)
    ensures BucketsExact(ds, Reallocated(ds, ts))
  {
    hide Wrap, LineAmount, Spent, Key, Reallocated, Allocated;
    forall k | 0 <= k < |ds|
      ensures Allocated(Reallocated(ds, ts), Key(ds[k]), WAGER) == LineAmount(ds[k].wager) &&
              Allocated(Reallocated(ds, ts), Key(ds[k]), GUARANTEE) == LineAmount(ds[k].guarantee)
    {
      assert BucketConserved(ds, ts, k, WAGER, LineAmount(ds[k].wager)) &&
             BucketConserved(ds, ts, k, GUARANTEE, LineAmount(ds[k].guarantee));
    }
  }

  lemma {:induction false} BucketSumAll(ts: seq<NormTransfer>)
    ensures BucketSum(ts, None) == Wrap(TransferTotal(ts))
  {
    hide Wrap, LineAmount;
    if |ts| == 0 {
      WrapSmall(0);
    } else {
      BucketSumAll(ts[..|ts| - 1]);
      WrapAdd(TransferTotal(ts[..|ts| - 1]), LineAmount(ts[|ts| - 1].amount));
    }
  }

  /** The requested total of a bucket in a response is the bucket's transfers, whatever became of them. */
  lemma {:induction false} BucketRequested(ts: seq<NormTransfer>, moves: seq<Move>, b: string)
    requires |moves| == |ts|
    requires forall i ::
               0 <= i < |ts| ==>
                 moves[i].bucket == ts[i].bucket && moves[i].line.amount == ts[i].amount &&
                 OptionalAmount(ts[i].amount).Some?
    ensures BucketOf(Buckets(moves), b).requested == BucketSum(ts, Some(b))
  {
    hide OptionalAmount, Wrap;
    if |ts| > 0 {
      BucketRequested(ts[..|ts| - 1], moves[..|ts| - 1], b);
      var bs, m := Buckets(moves[..|ts| - 1]), moves[|ts| - 1];
      WrapSmall(BucketOf(bs, b).requested);
      RequestedStep(BucketOf(bs, m.bucket), m.line, OptionalAmount(m.line.amount).value);
    }
  }

  lemma RequestedStep(b: BucketTotals, l: Line, a: U64)
    ensures BucketLine(b, l, a).requested == Add(b.requested, a)
  {
    hide Add;
  }

  // ---------------------------------------------------------------- the run

  lemma {:induction false} LastPayoutIs(payouts: seq<Payout>, j: nat)
    requires j < |payouts| && PayoutIdsDistinct(payouts)
    ensures LastPayout(payouts, payouts[j].id) == Some(payouts[j])
  {
    if j < |payouts| - 1 {
      LastPayoutIs(payouts[..|payouts| - 1], j);
    }
  }

  lemma {:induction false} LastTransferIs(ts: seq<NormTransfer>, i: nat)
    requires i < |ts| && IdsDistinct(ts)
    ensures LastTransfer(ts, ts[i].id) == Some(ts[i])
  {
    if i < |ts| - 1 {
      LastTransferIs(ts[..|ts| - 1], i);
    }
  }

  lemma PaidPayout(requests: Requests, n: NormRun, ts: seq<NormTransfer>, run: RunResponse, i: nat)
    requires FullyPaid(requests, n, ts, run) && i < |ts|
    ensures n.payouts[i] == RunPayout(ts[i]) && |run.lines| == |ts| &&
            LineGood(requests, n.role, RunPayout(ts[i]), run.lines[i]) &&
            run.lines[i].status == Confirmed && LastLine(run.lines, ts[i].id) == Some(run.lines[i]) &&
            Merge(ts, run)[i] == MergeOne(ts[i], Some(run.lines[i]))
  {
    hide ChallengeRuns.Kept, IdsDistinct, PayoutIdsDistinct, TallyLines, NeedsEscrow, FinalRun, LineGood, RunPayouts,
         RunPayout, LastLine;
    KeptPrefix(ts, i);
    PayoutAt(ts, i);
    DoneAnswers(requests, n, run);
    MergedLine(ts, run.lines, i);
    assert LineGood(requests, n.role, n.payouts[i], run.lines[i]);
  }

  lemma PayoutsAudit(requests: Requests, n: NormRun, ts: seq<NormTransfer>, run: RunResponse)
    requires FullyPaid(requests, n, ts, run)
    ensures PayoutsHold(n.payouts, ts)
  {
    hide FullyPaid, LastPayout, LineGood, Merge, LastLine, Trim;
    forall i | 0 <= i < |ts| ensures PayoutHolds(LastPayout(n.payouts, ts[i].id), ts[i]) {
      PaidPayout(requests, n, ts, run, i);
      PaidIds(requests, n, ts, run);
      LastPayoutIs(n.payouts, i);
      TrimShape(ts[i].memo);
    }
  }

  lemma PaidIds(requests: Requests, n: NormRun, ts: seq<NormTransfer>, run: RunResponse)
    requires FullyPaid(requests, n, ts, run)
    ensures PayoutIdsDistinct(n.payouts) && IdsDistinct(ts) && |n.payouts| == |ts|
  {
    hide RunDone, ChallengeRuns.Kept, IdsDistinct, PayoutIdsDistinct;
  }

  // ---------------------------------------------------------------- transactions

  /**
   * On an honest chain the transaction of a recorded send is found for its amount exactly when the amount
   * is printed canonically.
   */
  lemma SendMatches(tx: Tx, req: Request, signer: string)
    requires HonestTx(tx) && Carries(tx, req, signer) && Trim(signer) == signer && signer != "" &&
             Trim(req.to) == req.to && req.to != "" &&
             Trim(req.amount) == req.amount && req.amount != ""
    ensures MatchTransfer(tx.transfers, Expect(signer, req.to, req.amount)).Some? <==> Canonical(req.amount)
  {
    hide Trim, EqualFold, FormatUint, ParseUint, IsWoloAddress;
    var e := Expect(signer, req.to, req.amount);
    if Canonical(req.amount) {
      var t := Transfer(signer, req.to, FormatUint(ParseUint(req.amount).value), DENOM);
      SelfFold(signer);
      SelfFold(req.to);
      assert t in tx.transfers && Matches(t, e);
    }
    if MatchTransfer(tx.transfers, e).Some? {
      MatchedIn(tx.transfers, e);
      assert HonestTransfer(MatchTransfer(tx.transfers, e).value);
    }
  }

  lemma WoloNonEmpty(a: string)
    requires IsWoloAddress(a)
    ensures Trim(a) != "" && a != ""
  {
    assert |Lower(Trim(a))| == |Trim(a)|;
    assert Trim("") == "";
  }

  /** The lookup of a recorded send that is on the chain and succeeded. */
  lemma RecordedLookup(cfg: Config, s: Store, rec: Record, memo: string, status: Status)
    requires ChainOk(s) && RecordOk(cfg, s, rec.request.id, rec) && rec.response.txHash != ""
    requires rec.response.txHash in s.chain && s.chain[rec.response.txHash].success &&
             (status == Confirmed || status == Accepted)
    requires Trim(memo) == Trim(rec.request.memo)
    ensures var l := LookupTx(cfg, s.chain, None, rec.response.txHash,
                              Expect(rec.response.signer, rec.request.to, rec.request.amount));
            Reconciles(l, status, memo) <==> Canonical(rec.request.amount)
  {
    hide Trim, Canonical, KindOf, Upper, TxHash, SignedBy, MatchTransfer, StoredRole, IsWoloAddress, RequestIdPattern,
         HonestTx, Carries;
    var h := rec.response.txHash;
    TxHashTrimmed(h);
    SignerShape(cfg, StoredRole(rec.request.role), rec.response.signer);
    WoloNonEmpty(rec.request.to);
    assert HonestTx(s.chain[h]);
    assert Carries(s.chain[h], rec.request, rec.response.signer);
    CarriedMemo(s.chain[h], rec.request, rec.response.signer);
    SendMatches(s.chain[h], rec.request, rec.response.signer);
  }

  lemma CarriedMemo(tx: Tx, req: Request, signer: string)
    requires Carries(tx, req, signer)
    ensures tx.memo == req.memo
  {
  }

  lemma SignerShape(cfg: Config, role: string, signer: string)
    requires SignedBy(cfg, role, signer)
    ensures Trim(signer) == signer && signer != ""
  {
    hide Trim, IsWoloAddress, EqualFold;
    WoloNonEmpty(signer);
  }

  // ---------------------------------------------------------------- lines

  /** What the move of a fully paid transfer looks like, beside its request record. */
  ghost predicate PaidMove(cfg: Config, s: Store, t: NormTransfer, m: Move) {
    m.line.id == t.id && m.line.to == t.to && m.line.amount == t.amount && m.line.memo == t.memo &&
    m.bucket == t.bucket && m.reason == t.reason &&
    m.line.status == Confirmed && m.line.txHash != "" && t.id in s.requests &&
    RecordOk(cfg, s, t.id, s.requests[t.id]) &&
    var rec := s.requests[t.id];
    rec.request.to == t.to && rec.request.amount == t.amount && rec.request.memo == Trim(Trim(t.memo)) &&
    rec.response.txHash == m.line.txHash &&
    rec.response.status == Confirmed && rec.response.signer == m.line.signer
  }

  lemma PaidMoveOf(cfg: Config, s: Store, n: NormRun, ts: seq<NormTransfer>, run: RunResponse, i: nat)
    requires RequestsOk(cfg, s) && FullyPaid(s.requests, n, ts, run) && i < |ts|
    ensures PaidMove(cfg, s, ts[i], Merge(ts, run)[i])
  {
    hide FullyPaid, LastLine, Merge, RecordOk, Trim, StoredRole;
    PaidPayout(s.requests, n, ts, run, i);
    ExecutedOk(run.lines[i]);
  }

  lemma ExecutedOk(l: Line)
    requires ExecutedLine(l)
    ensures l.status == Confirmed ==> l.ok
  {
  }

  /** The audit of a paid line passes exactly when its amount is printed canonically. */
  lemma MoveAudits(cfg: Config, s: Store, n: NormChallenge, stored: Option<RunRecord>, i: nat, m: Move)
    requires ChainOk(s) && i < |n.transfers| && PaidMove(cfg, s, n.transfers[i], m) &&
             LastTransfer(n.transfers, m.line.id) == Some(n.transfers[i])
    requires MoveRan(stored, m)
    ensures MoveHolds(Site(cfg, s.chain, None), n, stored, s.requests, m) <==> Canonical(n.transfers[i].amount)
  {
    hide ChainOk, Trim, Canonical, LookupTx, MoveRan, Reconciles, LastTransfer, FirstNonEmpty, GoodRequest, SignedBy,
         Upper, TxHash, StoredRole;
    var t, rec := n.transfers[i], s.requests[m.line.id];
    TrimShape(t.memo);
    TrimShape(Trim(t.memo));
    TxHashTrimmed(rec.response.txHash);
    SignerShape(cfg, StoredRole(rec.request.role), rec.response.signer);
    FirstTrimmed(m.line.signer, rec.response.signer);
    RecordedLookup(cfg, s, rec, t.memo, Confirmed);
  }

  predicate AmountsCanonical(ts: seq<NormTransfer>) {
    forall i :: 0 <= i < |ts| ==> Canonical(ts[i].amount)
  }

  lemma MovesAudit(cfg: Config, s: Store, n: NormChallenge, run: RunResponse, m: NormRun, stored: RunRecord)
    requires ChainOk(s) && RequestsOk(cfg, s) && FullyPaid(s.requests, m, n.transfers, run) &&
             stored.response.lines == run.lines
    ensures MovesHold(Site(cfg, s.chain, None), n, Some(stored), s.requests, Merge(n.transfers, run)) <==>
            AmountsCanonical(n.transfers)
  {
    hide ChainOk, RequestsOk, FullyPaid, MoveHolds, PaidMove, Canonical, Merge, LastLine;
    var ts, moves := n.transfers, Merge(n.transfers, run);
    forall i | 0 <= i < |ts|
      ensures MoveHolds(Site(cfg, s.chain, None), n, Some(stored), s.requests, moves[i]) <==> Canonical(ts[i].amount)
    {
      PaidMoveOf(cfg, s, m, ts, run, i);
      PaidPayout(s.requests, m, ts, run, i);
      PaidIds(s.requests, m, ts, run);
      LastTransferIs(ts, i);
      MoveRanItself(ts[i], run.lines[i], stored);
      MoveAudits(cfg, s, n, Some(stored), i, moves[i]);
    }
    MovesExactly(Site(cfg, s.chain, None), n, Some(stored), s.requests, moves);
  }

  lemma MoveRanItself(t: NormTransfer, l: Line, stored: RunRecord)
    requires LastLine(stored.response.lines, t.id) == Some(l)
    ensures MoveRan(Some(stored), MergeOne(t, Some(l))) && MergeOne(t, Some(l)).line.id == t.id
  {
    hide LastLine, Trim;
  }

  lemma MovesExactly(site: Site, n: NormChallenge, stored: Option<RunRecord>, requests: Requests, moves: seq<Move>)
    requires |moves| == |n.transfers|
    requires forall i ::
               0 <= i < |moves| ==>
                 (MoveHolds(site, n, stored, requests, moves[i]) <==> Canonical(n.transfers[i].amount))
    ensures MovesHold(site, n, stored, requests, moves) <==> AmountsCanonical(n.transfers)
  {
    hide MoveHolds, Canonical;
    if MovesHold(site, n, stored, requests, moves) {
      forall i | 0 <= i < |moves| ensures Canonical(n.transfers[i].amount) {
        assert MoveHolds(site, n, stored, requests, moves[i]);
      }
    }
  }

  // ---------------------------------------------------------------- the top-up

  /** A required top-up is on the chain and succeeded. */
  predicate TopUpLanded(chain: Ledger, r: ChallengeResponse) {
    r.topUp.Some? && r.topUp.value.required ==>
      r.topUp.value.response.Some? && r.topUp.value.response.value.txHash in chain &&
      chain[r.topUp.value.response.value.txHash].success
  }

  lemma TopUpAudits(cfg: Config, s: Store, plan: ChallengePlan, t: Option<TopUp>, rec: ChallengeRecord)
    requires ChainOk(s) && RequestsOk(cfg, s) && PlanSound(cfg, s.chain, plan) && TopUpDone(s.requests, plan, t)
    requires rec.request == plan.norm && rec.response.topUp == t
    ensures TopUpHolds(Site(cfg, s.chain, None), rec, s.requests) <==> TopUpLanded(s.chain, rec.response)
  {
    hide ChainOk, RecordOk, PlanSound, AnswerOk, TopUpRequest, TopUpSettled;
    if plan.response.topUp.Some? && plan.response.topUp.value.required {
      var req, r := TopUpRequest(plan).value, t.value.response.value;
      TopUpNamed(cfg, s, plan, req);
      AnswerParts(s.requests, req, r);
      assert RecordOk(cfg, s, req.id, s.requests[req.id]);
      PlannedTopUpId(cfg, s, plan);
      TopUpSettles(cfg, s, plan, t.value, req, r);
    }
  }

  lemma AnswerParts(requests: Requests, req: Request, r: Response)
    requires AnswerOk(requests, req, r) && r.txHash != ""
    ensures req.id in requests && SameRequest(requests[req.id].request, req) &&
            requests[req.id].response.(replay := r.replay) == r && Sound(r)
  {
    hide Sound, SameRequest;
  }

  lemma PlannedTopUpId(cfg: Config, s: Store, plan: ChallengePlan)
    requires PlanSound(cfg, s.chain, plan) && plan.response.topUp.Some?
    ensures plan.response.topUp.value.id == TopUpId(plan.norm.runId)
  {
    hide ReadyPlan, FundingStands, AllocationStands, SameNames, GoodNames, TopUpId, Trim;
  }

  /** The request a top-up submits, as text. */
  lemma TopUpText(plan: ChallengePlan, req: Request)
    requires plan.response.topUp.Some? && TopUpRequest(plan) == Some(req)
    ensures req.amount == FormatUint(plan.response.topUp.value.amount) &&
            Trim(req.memo) == Trim(TopUpMemo(plan.norm.runId))
  {
    hide Trim, ParseUint, FormatUint, RequestIdPattern, IsWoloAddress, TopUpMemo;
    ParseFormat(plan.response.topUp.value.amount);
    var m := TopUpMemo(plan.norm.runId);
    MemoShort(plan.norm.runId);
    TrimShape(m);
    assert Cut(Trim(m), 180) == Trim(m);
  }

  lemma MemoShort(sid: string)
    ensures |TopUpMemo(sid)| <= 180
  {
  }

  lemma TopUpSettles(cfg: Config, s: Store, plan: ChallengePlan, t: TopUp, req: Request, r: Response)
    requires ChainOk(s) && plan.response.topUp.Some? && TopUpRequest(plan) == Some(req) && t.id == req.id &&
             t.amount == plan.response.topUp.value.amount
    requires t.from == r.signer && t.to == r.to && r.ok && r.txHash != "" && Sound(r) && req.id in s.requests &&
             RecordOk(cfg, s, req.id, s.requests[req.id])
    requires SameRequest(s.requests[req.id].request, req) && s.requests[req.id].response.(replay := r.replay) == r
    ensures TopUpSettled(Site(cfg, s.chain, None), plan.norm.runId, s.requests, t, r) <==>
            r.txHash in s.chain && s.chain[r.txHash].success
  {
    hide ChainOk, Trim, LookupTx, Reconciles, FirstNonEmpty, GoodRequest, SignedBy, Upper, TxHash, StoredRole,
         FormatUint, TopUpMemo, TopUpRequest, Canonical;
    var rec := s.requests[req.id];
    var site := Site(cfg, s.chain, None);
    TopUpText(plan, req);
    ParseFormat(t.amount);
    TxHashTrimmed(r.txHash);
    SignerShape(cfg, StoredRole(rec.request.role), r.signer);
    FirstTrimmed(t.from, r.signer);
    var e := Expect(rec.response.signer, rec.request.to, rec.request.amount);
    assert TopUpLookup(site, t, r) == LookupTx(cfg, s.chain, None, rec.response.txHash, e);
    if r.txHash in s.chain && s.chain[r.txHash].success {
      RecordedLookup(cfg, s, rec, TopUpMemo(plan.norm.runId), r.status);
    }
    if Reconciles(TopUpLookup(site, t, r), r.status, TopUpMemo(plan.norm.runId)) {
      ReconciledLanded(site, r.txHash, e, r.status, TopUpMemo(plan.norm.runId));
    }
  }

  lemma ReconciledLanded(site: Site, hash: string, e: Expect, status: Status, memo: string)
    requires Reconciles(LookupTx(site.cfg, site.chain, site.fault, hash, e), status, memo) &&
             (status == Confirmed || status == Accepted)
    requires Upper(Trim(hash)) == hash
    ensures hash in site.chain && site.chain[hash].success
  {
    hide LookupTx, Trim, Upper;
    LookupFinds(site, hash, e);
  }

  // ---------------------------------------------------------------- the theorem

  /** What executing a plan leaves in the response. */
  ghost predicate Filled(plan: ChallengePlan, t: Option<TopUp>, run: RunResponse, r: ChallengeResponse) {
    r.moves == Merge(plan.norm.transfers, run) && r.run == Some(run) && r.topUp == t &&
    r.funding == plan.response.funding &&
    r.requestedTotal == plan.response.requestedTotal && r.fundingTotal == plan.response.fundingTotal &&
    r.fundingVerified == plan.response.fundingVerified && SameNames(plan.norm, r) &&
    BucketOf(r.buckets, WAGER) == BucketOf(Buckets(r.moves), WAGER) &&
    BucketOf(r.buckets, GUARANTEE) == BucketOf(Buckets(r.moves), GUARANTEE)
  }

  lemma FilledBy(plan: ChallengePlan, t: Option<TopUp>, run: RunResponse)
    requires ReadyPlan(plan) && SameNames(plan.norm, plan.response)
    ensures Filled(plan, t, run, ExecutedChallenge(plan.response.(topUp := t), plan.norm.transfers, run))
  {
    hide RunMatches, ValidRunHeader, PaidTransfer, SameExecution, Recount, ExecutedChallenge, Merge, Buckets,
         TallyLines, LinesOf, DeriveStatus;
    ExecutedChallengeForm(plan.response.(topUp := t), plan.norm.transfers, run);
  }

  lemma HeaderAudits(plan: ChallengePlan, t: Option<TopUp>, run: RunResponse, rec: ChallengeRecord)
    requires rec.request == plan.norm && rec.fingerprint == rec.request && Filled(plan, t, run, rec.response) &&
             |plan.response.funding| == |plan.norm.funding|
    ensures HeaderHolds(rec)
  {
    hide Trim, Buckets;
  }

  lemma FundingPart(cfg: Config, s: Store, plan: ChallengePlan, t: Option<TopUp>, run: RunResponse,
                    rec: ChallengeRecord)
    requires ChainOk(s) && rec.request == plan.norm && Filled(plan, t, run, rec.response) &&
             FundingStands(cfg, s.chain, plan.norm, plan.response)
    ensures FundingHolds(Site(cfg, s.chain, None), rec) &&
            Verified(Site(cfg, s.chain, None), rec, |rec.request.funding|) == rec.response.funding
  {
    hide Merge, Buckets, SameNames, Deposited, FundedTotal, FundingHolds, Verified;
    FundingAudits(Site(cfg, s.chain, None), rec);
  }

  lemma AllocationPart(cfg: Config, s: Store, plan: ChallengePlan, t: Option<TopUp>, run: RunResponse,
                       rec: ChallengeRecord)
    requires rec.request == plan.norm && Filled(plan, t, run, rec.response) &&
             AllocationStands(plan.norm, plan.response) && GoodNames(plan.norm)
    requires Verified(Site(cfg, s.chain, None), rec, |rec.request.funding|) == rec.response.funding
    requires forall i :: 0 <= i < |plan.norm.transfers| ==> ChallengeRuns.Kept(plan.norm.transfers[i])
    ensures AllocationHolds(Site(cfg, s.chain, None), rec) <==> TreasuryExact(rec.request)
  {
    hide Merge, Buckets, SameNames, GoodNames, AllocationStands, Verified, RoutesHold, BucketsExact, Reallocated,
         TreasuryExact, ChallengeRuns.Kept, AllPlaced;
    AllocationAudits(plan.norm, plan.response);
  }

  lemma TotalsPart(s: Store, plan: ChallengePlan, t: Option<TopUp>, run: RunResponse, rec: ChallengeRecord)
    requires rec.request == plan.norm && Filled(plan, t, run, rec.response) &&
             AllocationStands(plan.norm, plan.response)
    requires forall i :: 0 <= i < |plan.norm.transfers| ==> ChallengeRuns.Kept(plan.norm.transfers[i])
    ensures TotalsHold(rec.response, TotalsOf(rec.request.transfers))
  {
    hide Merge, Buckets, SameNames, BucketSum, ChallengeRuns.Kept, GoodTransfer, TransferTotal, Wrap, KeysDistinct,
         BucketsConserved, OptionalAmount;
    var ts := plan.norm.transfers;
    forall i | 0 <= i < |ts|
      ensures rec.response.moves[i].bucket == ts[i].bucket && rec.response.moves[i].line.amount == ts[i].amount &&
              OptionalAmount(ts[i].amount).Some?
    {
      MergedFields(ts, run, i);
      TransferParts(plan.response.funding, i, ts[i]);
      KeptAmount(ts[i]);
    }
    BucketSumAll(ts);
    BucketRequested(ts, rec.response.moves, WAGER);
    BucketRequested(ts, rec.response.moves, GUARANTEE);
  }

  lemma MergedFields(ts: seq<NormTransfer>, run: RunResponse, i: nat)
    requires i < |ts|
    ensures Merge(ts, run)[i].bucket == ts[i].bucket && Merge(ts, run)[i].line.amount == ts[i].amount
  {
    hide LastLine;
  }

  lemma RunPart(s: Store, plan: ChallengePlan, t: Option<TopUp>, run: RunResponse, rec: ChallengeRecord, m: NormRun)
    requires RunsOk(s) && rec.request == plan.norm && Filled(plan, t, run, rec.response) &&
             FullyPaid(s.requests, m, plan.norm.transfers, run)
    requires RunAnswerOk(s, plan.norm.runId, m, run) && m.runId == plan.norm.runId
    ensures plan.norm.runId in s.runs && RunHolds(rec, s.runs) &&
            AuditedRun(rec, s.runs) == Some(s.runs[plan.norm.runId])
    ensures s.runs[plan.norm.runId].response.lines == run.lines
  {
    hide Merge, Buckets, SameNames, RunResponseOk, FinalRun, FullyPaid, PayoutsHold, Trim;
    PaidRun(s.requests, m, plan.norm.transfers, run);
    assert RunRecordOk(s.requests, plan.norm.runId, s.runs[plan.norm.runId]);
    PayoutsAudit(s.requests, m, plan.norm.transfers, run);
  }

  lemma PaidRun(requests: Requests, m: NormRun, ts: seq<NormTransfer>, run: RunResponse)
    requires FullyPaid(requests, m, ts, run)
    ensures run.status == Confirmed && forall i :: 0 <= i < |ts| ==> ChallengeRuns.Kept(ts[i])
  {
    hide RunDone, ChallengeRuns.Kept, IdsDistinct, PayoutIdsDistinct, AllConfirmed, RunPayouts;
  }

  lemma ConfirmedAudit(cfg: Config, s: Store, rec: ChallengeRecord, plan: ChallengePlan, t: Option<TopUp>,
                       run: RunResponse)
    requires StoreOk(cfg, s) && ConfirmedBy(cfg, s, rec.request, rec.response, plan, t, run) &&
             rec.response.status == Confirmed
    requires rec.fingerprint == rec.request
    ensures AuditHolds(Site(cfg, s.chain, None), s.requests, s.runs, rec) <==>
            AmountsCanonical(rec.request.transfers) && TreasuryExact(rec.request) && TopUpLanded(s.chain, rec.response)
  {
    hide ChainOk, RequestsOk, RunsOk, ChallengesOk, TopUpDone, Prepare, ExecutedChallenge, AllocationStands,
         TopUpPlanned, GoodNames, ReadyPlan, FullyPaid, FundingHolds, AllocationHolds, TotalsHold, TotalsOf, RunHolds,
         MovesHold, TopUpHolds, AmountsCanonical, TreasuryExact, TopUpLanded, AuditedRun, Deposited, RunAnswerOk,
         Settles, HeaderHolds, Merge, Trim, FundedTotal, SameNames, Verified, ChallengeRuns.Kept, RunPayouts,
         IdsDistinct, PayoutIdsDistinct, Buckets, ValidRunHeader;
    var n, m := rec.request, Prepare(plan.runRequest).0;
    AnswerIsResponse(s, n.runId, m, run);
    ConfirmedIsFullyPaid(s.requests, plan, t, run);
    PaidRun(s.requests, m, n.transfers, run);
    ReadyPayouts(plan);
    FilledBy(plan, t, run);
    HeaderAudits(plan, t, run, rec);
    FundingPart(cfg, s, plan, t, run, rec);
    AllocationPart(cfg, s, plan, t, run, rec);
    TotalsPart(s, plan, t, run, rec);
    RunPart(s, plan, t, run, rec, m);
    MovesAudit(cfg, s, n, run, m, s.runs[n.runId]);
    TopUpAudits(cfg, s, plan, t, rec);
  }

  lemma AnswerIsResponse(s: Store, id: string, m: NormRun, run: RunResponse)
    requires RunAnswerOk(s, id, m, run)
    ensures RunResponseOk(s.requests, m, run)
  {
    hide RunResponseOk, FinalRun;
  }

  /**
   * Audit completeness. In every state the rail can reach, on an honest chain that answers, the audit of a challenge
   * stored as confirmed passes if and only if every transfer amount is printed without leading zeros, every treasury
   * line names the treasury address exactly, and a top-up that was required is on the chain and succeeded.
   */
  lemma AuditCompleteness(cfg: Config, ws: seq<World>, steps: seq<Step>, i: nat, id: string)
    requires Behaviour(cfg, ws, steps) && i < |ws| && id in ws[i].store.challenges &&
             ws[i].store.challenges[id].response.status == Confirmed
    ensures var s, rec := ws[i].store, ws[i].store.challenges[id];
            AuditHolds(Site(cfg, s.chain, None), s.requests, s.runs, rec) <==>
            AmountsCanonical(rec.request.transfers) && TreasuryExact(rec.request) && TopUpLanded(s.chain, rec.response)
  {
    hide Next, Init, Execution, ProcessesOk, LogOk, OnceInv, ConfirmedBy, HashesOk, AuditHolds, AmountsCanonical,
         TreasuryExact, TopUpLanded, ChainOk, RequestsOk, RunsOk;
    ReachableInv(cfg, ws, steps, i);
    var s, rec := ws[i].store, ws[i].store.challenges[id];
    assert ChallengeRecordOk(cfg, s, id, rec);
    var plan, t, run :| ConfirmedBy(cfg, s, rec.request, rec.response, plan, t, run);
    ConfirmedAudit(cfg, s, rec, plan, t, run);
  }

  // ---------------------------------------------------------------- a confirmed challenge is final

  lemma {:induction false} NoneRetryable(t: Tally, lines: seq<Line>)
    requires !t.retryable && forall i :: 0 <= i < |lines| ==> !lines[i].retryable
    ensures !TallyLines(t, lines).retryable
  {
    hide OptionalAmount, Add;
    if |lines| > 0 {
      NoneRetryable(t, lines[..|lines| - 1]);
    }
  }

  lemma PaidMovesFinal(requests: Requests, n: NormRun, ts: seq<NormTransfer>, run: RunResponse)
    requires FullyPaid(requests, n, ts, run)
    ensures forall i :: 0 <= i < |ts| ==> !LinesOf(Merge(ts, run))[i].retryable
    ensures !run.retryable
  {
    hide FullyPaid, LineGood, Merge, LastLine, RunPayout;
    FinalLines(requests, n, ts, run);
    forall i | 0 <= i < |ts| ensures !LinesOf(Merge(ts, run))[i].retryable {
      PaidPayout(requests, n, ts, run, i);
    }
  }

  lemma FinalLines(requests: Requests, n: NormRun, ts: seq<NormTransfer>, run: RunResponse)
    requires FullyPaid(requests, n, ts, run)
    ensures !run.retryable && forall i :: 0 <= i < |run.lines| ==> !run.lines[i].retryable
  {
    hide LinesGood, TallyLines, NeedsEscrow, RunPayouts, IdsDistinct, PayoutIdsDistinct, ChallengeRuns.Kept,
         AllConfirmed;
  }

  /** A challenge stored as confirmed is final: nothing about it is left to retry. */
  lemma ConfirmedIsFinalChallenge(cfg: Config, s: Store, rec: ChallengeRecord)
    requires rec.response.status == Confirmed && Explained(cfg, s, rec.request, rec.response)
    ensures FinalChallenge(rec.response)
  {
    hide PlanSound, TopUpDone, Prepare, ExecutedChallenge, RunAnswerOk, Settles, FullyPaid, Merge, LinesOf, TallyLines,
         Buckets, DeriveStatus, Recount;
    var plan, t, run :| ConfirmedBy(cfg, s, rec.request, rec.response, plan, t, run);
    var m, ts := Prepare(plan.runRequest).0, rec.request.transfers;
    SoundIsReady(cfg, s.chain, plan);
    AnswerIsResponse(s, rec.request.runId, m, run);
    ConfirmedIsFullyPaid(s.requests, plan, t, run);
    PaidMovesFinal(s.requests, m, ts, run);
    RetryableForm(plan.response.(topUp := t), ts, run);
  }

  lemma SoundIsReady(cfg: Config, chain: Ledger, plan: ChallengePlan)
    requires PlanSound(cfg, chain, plan)
    ensures ReadyPlan(plan)
  {
    hide ReadyPlan, GoodNames, SameNames, FundingStands, AllocationStands, TopUpPlanned;
  }

  lemma RetryableForm(r: ChallengeResponse, ts: seq<NormTransfer>, run: RunResponse)
    requires !run.retryable && forall i :: 0 <= i < |ts| ==> !LinesOf(Merge(ts, run))[i].retryable
    requires ExecutedChallenge(r, ts, run).status == Confirmed
    ensures !ExecutedChallenge(r, ts, run).retryable && ExecutedChallenge(r, ts, run).ok
  {
    hide TallyLines, Buckets, FirstFailureCode, FirstNonEmpty, Merge, LinesOf, DeriveStatus;
    NoneRetryable(Recount(r.tally, false), LinesOf(Merge(ts, run)));
  }

  /**
   * In every reachable state a confirmed challenge has only transfers its run could read: one line whose amount is no
   * number, or the text 0, keeps a challenge from ever being confirmed.
   */
  lemma ConfirmedIsReadable(cfg: Config, ws: seq<World>, steps: seq<Step>, i: nat, id: string)
    requires Behaviour(cfg, ws, steps) && i < |ws| && id in ws[i].store.challenges
    requires ws[i].store.challenges[id].response.status == Confirmed
    ensures var ts := ws[i].store.challenges[id].request.transfers;
            forall k :: 0 <= k < |ts| ==> ChallengeRuns.Kept(ts[k])
  {
    hide Next, Init, Execution, ProcessesOk, LogOk, OnceInv, HashesOk, ChainOk, RequestsOk, RunsOk, PlanSound,
         TopUpDone, Prepare, ExecutedChallenge, RunAnswerOk, Settles, FullyPaid, ChallengeRuns.Kept;
    ReachableInv(cfg, ws, steps, i);
    var s, rec := ws[i].store, ws[i].store.challenges[id];
    assert ChallengeRecordOk(cfg, s, id, rec);
    var plan, t, run :| ConfirmedBy(cfg, s, rec.request, rec.response, plan, t, run);
    SoundIsReady(cfg, s.chain, plan);
    AnswerIsResponse(s, rec.request.runId, Prepare(plan.runRequest).0, run);
    ConfirmedIsFullyPaid(s.requests, plan, t, run);
    PaidRun(s.requests, Prepare(plan.runRequest).0, rec.request.transfers, run);
  }

  /**
   * The verdict of an audit lasts. A challenge stored as confirmed never changes, so from any reachable state to any
   * later one its audit passes if it passed before; and if an amount is not canonical or a treasury line not exact,
   * it never passes.
   */
  lemma AuditVerdictLasts(cfg: Config, ws: seq<World>, steps: seq<Step>, i: nat, j: nat, id: string)
    requires Behaviour(cfg, ws, steps) && i <= j < |ws| && id in ws[i].store.challenges
    requires ws[i].store.challenges[id].response.status == Confirmed
    ensures id in ws[j].store.challenges && ws[j].store.challenges[id] == ws[i].store.challenges[id]
    ensures var rec := ws[i].store.challenges[id]; var now, later := ws[i].store, ws[j].store;
            (AuditHolds(Site(cfg, now.chain, None), now.requests, now.runs, rec) ==>
               AuditHolds(Site(cfg, later.chain, None), later.requests, later.runs, rec)) &&
            (!AmountsCanonical(rec.request.transfers) || !TreasuryExact(rec.request) ==>
               !AuditHolds(Site(cfg, later.chain, None), later.requests, later.runs, rec))
  {
    hide Next, Init, Execution, ProcessesOk, LogOk, OnceInv, Explained, HashesOk, AuditHolds, AmountsCanonical,
         TreasuryExact, ChainOk, RequestsOk, RunsOk, FinalChallenge, RequestsKept, RunsKept;
    ReachableInv(cfg, ws, steps, i);
    var rec := ws[i].store.challenges[id];
    assert ChallengeRecordOk(cfg, ws[i].store, id, rec);
    ConfirmedIsFinalChallenge(cfg, ws[i].store, rec);
    RecordsPreserved(cfg, ws, steps, i, j);
    AuditCompleteness(cfg, ws, steps, i, id);
    AuditCompleteness(cfg, ws, steps, j, id);
    LandedStays(ws[i].store.chain, ws[j].store.chain, rec.response);
  }

  lemma LandedStays(chain: Ledger, chain': Ledger, r: ChallengeResponse)
    requires Grows(chain, chain')
    ensures TopUpLanded(chain, r) ==> TopUpLanded(chain', r)
  {
  }
}

/** What an accepted challenge plan establishes once and for all: it stays true however far the chain has grown. */
module ChallengeSound {
  import opened Text
  import opened Amounts
  import opened Ids
  import opened Records
  import opened Chain
  import opened Signers
  import opened Runs
  import opened Memo
  import opened Funding
  import opened Challenges
  import opened ChallengeLaws
  import opened ChallengeRuns

  function Deposited(cfg: Config, chain: Ledger, n: NormChallenge, i: nat): Deposit
    requires i < |n.funding|
  {
    VerifyDeposit(cfg, chain, None, n.funding[i].hash, ExpectationOf(n, n.funding[i]))
  }

  /** Every deposit of the plan verifies, and gives what the response stored. */
  ghost predicate FundingStands(cfg: Config, chain: Ledger, n: NormChallenge, r: ChallengeResponse) {
    |r.funding| == |n.funding| == r.fundingVerified && r.fundingTotal == Some(FundedTotal(r.funding)) &&
    forall i :: 0 <= i < |n.funding| ==> r.funding[i].ok && r.funding[i] == Deposited(cfg, chain, n, i)
  }

  /** Every transfer spends one bucket of one deposit, and every bucket is spent. */
  ghost predicate AllocationStands(n: NormChallenge, r: ChallengeResponse) {
    KeysDistinct(r.funding) && BucketsConserved(r.funding, n.transfers) && AllRouted(n.treasury, n.transfers) &&
    r.requestedTotal == Some(Wrap(TransferTotal(n.transfers))) &&
    forall i :: 0 <= i < |n.transfers| ==> GoodTransfer(r.funding, i, n.transfers[i])
  }

  ghost predicate TopUpPlanned(cfg: Config, plan: ChallengePlan) {
    var t := plan.response.topUp;
    t.Some? ==>
      t.value.id == TopUpId(plan.norm.runId) && t.value.to == Trim(cfg.payoutAddress) && t.value.response.None?
  }

  predicate SameNames(n: NormChallenge, r: ChallengeResponse) {
    r.runId == n.runId && r.sourceApp == n.sourceApp && r.challengeId == n.challengeId &&
    r.sourceEventId == n.sourceEventId
  }

  ghost predicate PlanSound(cfg: Config, chain: Ledger, plan: ChallengePlan) {
    ReadyPlan(plan) && GoodNames(plan.norm) && SameNames(plan.norm, plan.response) &&
    FundingStands(cfg, chain, plan.norm, plan.response) &&
    AllocationStands(plan.norm, plan.response) && TopUpPlanned(cfg, plan)
  }

  lemma {:induction false} CountAllOk(ds: seq<Deposit>)
    requires AllOk(ds)
    ensures CountOk(ds) == |ds|
  {
    if |ds| > 0 {
      CountAllOk(ds[..|ds| - 1]);
    }
  }

  lemma PlannedTopUp(cfg: Config, v: View, sid: string, run: RunResponse)
    ensures var t := PlanTopUp(cfg, v, sid, run);
            t.Some? ==> t.value.id == TopUpId(sid) && t.value.to == Trim(cfg.payoutAddress) && t.value.response.None?
  {
    hide RequiredBalance, Trim, TopUpId;
  }

  lemma AcceptedIsSound(cfg: Config, chain: Ledger, v: View, request: ChallengeRequest)
    requires PlanChallenge(cfg, chain, v, request).response.ok
    ensures PlanSound(cfg, chain, PlanChallenge(cfg, chain, v, request))
  {
    hide *;
    AcceptedIsReady(cfg, chain, v, request);
    var plan := PlanChallenge(cfg, chain, v, request);
    Conservation(cfg, chain, v, request);
    var ds, acc := AcceptedPlan(cfg, chain, v, request);
    HeaderFacts(cfg, request);
    SoundCore(cfg, chain, v, plan, NormHeader(cfg, request), ds, acc);
  }

  lemma SoundCore(cfg: Config, chain: Ledger, v: View, plan: ChallengePlan, h: NormChallenge, ds: seq<Deposit>,
                  acc: Acc)
    requires ReadyPlan(plan) && GoodNames(h) &&
             plan.norm == h.(funding := plan.norm.funding, transfers := plan.norm.transfers)
    requires GoodPlan(cfg, chain, plan.norm, ds, acc) && ds == VerifyAll(cfg, chain, v.fault, plan.norm) && AllOk(ds)
    requires plan.response == FinalizeChallenge(JudgePlan(LinesPlanned(plan.norm, ds, acc),
                                                          PlanRun(cfg, v, plan.runRequest).1,
                                                          PlanTopUp(cfg, v, plan.norm.runId,
                                                                    PlanRun(cfg, v, plan.runRequest).1)))
    requires BucketsConserved(plan.response.funding, plan.norm.transfers) &&
             plan.response.requestedTotal == Some(Wrap(TransferTotal(plan.norm.transfers)))
    ensures PlanSound(cfg, chain, plan)
  {
    hide FinalizeChallenge, JudgePlan, PlanRun, PlanTopUp, ReadyPlan, AllProven, DistinctParticipants, KeysDistinct,
         BucketsExact, VerifyAll, TopUpId, Trim, ValidRunId, ValidSourceApp, ValidEventId, BucketsConserved,
         FundedTotal, TransferTotal, Wrap, GoodTransfer, CountOk, Deposited, AllRouted;
    var run := PlanRun(cfg, v, plan.runRequest).1;
    var topUp := PlanTopUp(cfg, v, plan.norm.runId, run);
    var lines := LinesPlanned(plan.norm, ds, acc);
    JudgeKeeps(lines, run, topUp);
    FinalizeChallengeKeeps(JudgePlan(lines, run, topUp));
    CountAllOk(ds);
    PlannedTopUp(cfg, v, plan.norm.runId, run);
    GoodTransfers(ds, acc);
    forall i | 0 <= i < |ds| ensures ds[i] == Deposited(cfg, chain, plan.norm, i) {
      VerifiedWithoutFault(cfg, chain, v.fault, plan.norm, i);
    }
  }

  lemma GoodTransfers(ds: seq<Deposit>, acc: Acc)
    requires GoodAcc(ds, acc)
    ensures forall i :: 0 <= i < |acc.transfers| ==> GoodTransfer(ds, i, acc.transfers[i])
  {
    hide GoodTransfer, PlannedMove, PayoutOf, Allocated, Spent, TransferTotal, Wrap, Key;
  }

  lemma VerifiedWithoutFault(cfg: Config, chain: Ledger, fault: Option<string>, n: NormChallenge, i: nat)
    requires i < |n.funding| && VerifyAll(cfg, chain, fault, n)[i].ok
    ensures VerifyAll(cfg, chain, fault, n)[i] == Deposited(cfg, chain, n, i)
  {
    hide VerifyDeposit, ProvenBy, MeetsExpectation, ValidExpectation, Trim, Upper;
    VerifiedIsProven(cfg, chain, fault, n.funding[i].hash, ExpectationOf(n, n.funding[i]));
  }

  /** A deposit that verified keeps verifying as the chain grows, with the same result. */
  lemma DepositStays(cfg: Config, chain: Ledger, chain': Ledger, hash: string, e: Expectation)
    requires VerifyDeposit(cfg, chain, None, hash, e).ok && Grows(chain, chain')
    ensures VerifyDeposit(cfg, chain', None, hash, e) == VerifyDeposit(cfg, chain, None, hash, e)
  {
    hide ValidExpectation, MeetsExpectation, ParseMemo, KindOf, Trim, Upper, TxHash, Proven, MatchTransfer;
  }

  lemma PlanSoundGrows(cfg: Config, chain: Ledger, chain': Ledger, plan: ChallengePlan)
    requires PlanSound(cfg, chain, plan) && Grows(chain, chain')
    ensures PlanSound(cfg, chain', plan)
  {
    hide ReadyPlan, GoodNames, SameNames, AllocationStands, TopUpPlanned, FundedTotal, VerifyDeposit, Grows,
         ExpectationOf;
    var n, r := plan.norm, plan.response;
    forall i | 0 <= i < |n.funding| ensures r.funding[i].ok && r.funding[i] == Deposited(cfg, chain', n, i) {
      assert r.funding[i] == Deposited(cfg, chain, n, i);
      DepositStays(cfg, chain, chain', n.funding[i].hash, ExpectationOf(n, n.funding[i]));
    }
  }
}

/** Money over whole behaviours: what a challenge has paid out never exceeds what its deposits prove. */
module Money {
  import opened Text
  import opened Amounts
  import opened Ids
  import opened Records
  import opened Chain
  import opened Transfers
  import opened Runs
  import opened Challenges
  import opened ChallengeLaws
  import opened ChallengeRuns
  import opened ChallengeSound
  import opened ChallengeSteps
  import opened Machine
  import opened Once
  import opened Invariants
  import opened Safety
  import opened Theorems

  // ---------------------------------------------------------------- merged totals

  /**
   * In every reachable state, the response a challenge makes of the run it was handed refines that run,
   * whatever it answered.
   */
  lemma EveryMergeRefines(cfg: Config, ws: seq<World>, steps: seq<Step>, i: nat, pid: nat)
    requires Behaviour(cfg, ws, steps) && i < |ws| && pid in ws[i].procs
    requires var p := ws[i].procs[pid]; p.challenge.Some? && p.run.Some? && p.run.value.pc.RunReturned?
    ensures var f, run := ws[i].procs[pid].challenge.value, ws[i].procs[pid].run.value.pc.answer;
            Refined(f.plan, run, ExecutedChallenge(Current(f), f.plan.norm.transfers, run))
  {
    hide Next, Init, Execution, StoreOk, LogOk, OnceInv, ProcessInv, Refined, ExecutedChallenge;
    ReachableInv(cfg, ws, steps, i);
    ReturnedRun(cfg, ws[i], pid);
    var f := ws[i].procs[pid].challenge.value;
    RefinesAll(f.plan, f.topUp, ws[i].procs[pid].run.value.pc.answer);
  }

  lemma ReturnedRun(cfg: Config, w: World, pid: nat)
    requires ProcessesOk(cfg, w) && pid in w.procs && w.procs[pid].challenge.Some? && w.procs[pid].run.Some?
    requires w.procs[pid].run.value.pc.RunReturned?
    ensures var plan, run := w.procs[pid].challenge.value.plan, w.procs[pid].run.value.pc.answer;
            ReadyPlan(plan) && (IdleRun(run) || RunAnswers(Prepare(plan.runRequest).0.payouts, run))
  {
    hide CallInv, Quiet, ReadyPlan, FundingStands, AllocationStands, TopUpPlanned, GoodNames, SameNames, OpenChallenge,
         TopUpDone, ChallengeRecordOk, Normalize, Prepare, TopUpRequest, PlanOk, IdleRun, RunDone, LinesGood,
         RunRecordOk, FinalRun, RunAnswers;
    var p := w.procs[pid];
    assert ProcessInv(cfg, w.store, w.locks, pid, p);
    var n, run := p.run.value.norm, p.run.value.pc.answer;
    if RunDone(w.store.requests, n, run) {
      DoneAnswers(w.store.requests, n, run);
    }
  }

  // ---------------------------------------------------------------- what a challenge paid

  /** A payout sent for a challenge that returned a hash. */
  predicate PaidOut(e: Entry, sid: string) {
    e.challenge.Some? && e.challenge.value.runId == sid && e.req.role == PAYOUT && e.verdict.Hashed()
  }

  /** The exact total of the payouts of a challenge that returned a hash. */
  function PaidTotal(log: seq<Entry>, sid: string): nat {
    if |log| == 0 then 0
    else
      var e := log[|log| - 1];
      PaidTotal(log[..|log| - 1], sid) + (if PaidOut(e, sid) then LineAmount(e.req.amount) else 0)
  }

  function PaidFor(log: seq<Entry>, sid: string, id: string): nat {
    if |log| == 0 then 0
    else
      var e := log[|log| - 1];
      PaidFor(log[..|log| - 1], sid, id) + (if PaidOut(e, sid) && e.req.id == id then LineAmount(e.req.amount) else 0)
  }

  /** The same total, transfer by transfer. */
  function PaidForAll(log: seq<Entry>, sid: string, ts: seq<NormTransfer>): nat {
    if |ts| == 0 then 0 else PaidForAll(log, sid, ts[..|ts| - 1]) + PaidFor(log, sid, ts[|ts| - 1].id)
  }

  lemma {:induction false} PaidForAllSnoc(log: seq<Entry>, e: Entry, sid: string, ts: seq<NormTransfer>)
    requires IdsDistinct(ts)
    ensures PaidForAll(log + [e], sid, ts) ==
            PaidForAll(log, sid, ts) +
            (if PaidOut(e, sid) && e.req.id in IdsOf(ts) then LineAmount(e.req.amount) else 0)
  {
    hide PaidOut, LineAmount;
    assert (log + [e])[..|log|] == log;
    if |ts| > 0 {
      var init, t := ts[..|ts| - 1], ts[|ts| - 1];
      assert IdsDistinct(init);
      PaidForAllSnoc(log, e, sid, init);
      assert IdsOf(ts) == IdsOf(init) + {t.id};
      assert t.id !in IdsOf(init);
    }
  }

  lemma {:induction false} NothingPaid(sid: string, ts: seq<NormTransfer>)
    ensures PaidForAll([], sid, ts) == 0
  {
    if |ts| > 0 {
      NothingPaid(sid, ts[..|ts| - 1]);
    }
  }

  lemma {:induction false} PaidSplits(log: seq<Entry>, sid: string, ts: seq<NormTransfer>)
    requires IdsDistinct(ts) && forall i :: 0 <= i < |log| && PaidOut(log[i], sid) ==> log[i].req.id in IdsOf(ts)
    ensures PaidTotal(log, sid) == PaidForAll(log, sid, ts)
  {
    hide PaidOut, LineAmount, IdsDistinct, IdsOf, PaidForAll;
    if |log| == 0 {
      assert log == [];
      NothingPaid(sid, ts);
    } else {
      var init, e := log[..|log| - 1], log[|log| - 1];
      PaidSplits(init, sid, ts);
      PaidForAllSnoc(init, e, sid, ts);
      assert init + [e] == log;
    }
  }

  lemma {:induction false} NotPaidFor(log: seq<Entry>, sid: string, id: string)
    requires forall i :: 0 <= i < |log| && log[i].req.id == id ==> !log[i].verdict.Hashed()
    ensures PaidFor(log, sid, id) == 0
  {
    if |log| > 0 {
      NotPaidFor(log[..|log| - 1], sid, id);
    }
  }

  /** At most one hash for an id means at most one payment for it. */
  lemma {:induction false} PaidOnce(log: seq<Entry>, sid: string, id: string, amount: nat)
    requires AtMostOnce(log)
    requires forall i ::
               0 <= i < |log| && PaidOut(log[i], sid) && log[i].req.id == id ==> LineAmount(log[i].req.amount) == amount
    ensures PaidFor(log, sid, id) <= amount
  {
    hide LineAmount;
    if |log| > 0 {
      var init, e := log[..|log| - 1], log[|log| - 1];
      if PaidOut(e, sid) && e.req.id == id {
        forall i | 0 <= i < |init| && init[i].req.id == id ensures !init[i].verdict.Hashed() {
          assert log[i].req.id == log[|init|].req.id;
        }
        NotPaidFor(init, sid, id);
      } else {
        PaidOnce(init, sid, id, amount);
      }
    }
  }

  /** Every payout logged for the challenge is one of its transfers. */
  ghost predicate PaysTransfers(log: seq<Entry>, sid: string, ts: seq<NormTransfer>) {
    forall i :: 0 <= i < |log| && PaidOut(log[i], sid) ==> PaysTransfer(log[i], ts)
  }

  ghost predicate PaysTransfer(e: Entry, ts: seq<NormTransfer>) {
    exists k :: 0 <= k < |ts| && ts[k].id == e.req.id && ts[k].amount == e.req.amount && ts[k].to == e.req.to
  }

  lemma {:induction false} PaidWithinTransfers(log: seq<Entry>, sid: string, ts: seq<NormTransfer>, n: nat)
    requires AtMostOnce(log) && IdsDistinct(ts) && PaysTransfers(log, sid, ts) && n <= |ts|
    ensures PaidForAll(log, sid, ts[..n]) <= TransferTotal(ts[..n])
  {
    hide PaidOut, LineAmount, AtMostOnce;
    if n > 0 {
      PaidWithinTransfers(log, sid, ts, n - 1);
      assert ts[..n][..n - 1] == ts[..n - 1];
      var t := ts[n - 1];
      forall i | 0 <= i < |log| && PaidOut(log[i], sid) && log[i].req.id == t.id
        ensures LineAmount(log[i].req.amount) == LineAmount(t.amount)
      {
        assert PaysTransfer(log[i], ts);
      }
      PaidOnce(log, sid, t.id, LineAmount(t.amount));
    }
  }

  lemma PaidWithin(log: seq<Entry>, sid: string, ts: seq<NormTransfer>)
    requires AtMostOnce(log) && IdsDistinct(ts) && PaysTransfers(log, sid, ts)
    ensures PaidTotal(log, sid) <= TransferTotal(ts)
  {
    hide PaidOut, LineAmount, AtMostOnce, IdsDistinct, TransferTotal, PaidTotal;
    forall i | 0 <= i < |log| && PaidOut(log[i], sid) ensures log[i].req.id in IdsOf(ts) {
      assert PaysTransfer(log[i], ts);
    }
    PaidSplits(log, sid, ts);
    PaidWithinTransfers(log, sid, ts, |ts|);
    assert ts[..|ts|] == ts;
  }

  // ---------------------------------------------------------------- one payload for each id

  /** Two payloads that both claim an id in one state are the same. */
  lemma SameClaim(cfg: Config, w: World, n: NormChallenge, m: NormChallenge)
    requires ProcessesOk(cfg, w) && Claimed(w, n) && Claimed(w, m) && n.runId == m.runId
    ensures n == m
  {
    hide CallInv, RunInv, Stacked, Quiet, PlanSound, TopUpDone, ChallengeRecordOk, FinalChallenge;
    if n.runId in w.locks.challenges && w.locks.challenges[n.runId] in w.procs {
      assert ProcessInv(cfg, w.store, w.locks, w.locks.challenges[n.runId], w.procs[w.locks.challenges[n.runId]]);
    }
  }

  /**
   * One payload for each challenge id, over whole behaviours: any two broadcasts made for the same id, payouts or
   * top-ups, hashed or not, were made for the same normalized request.
   */
  lemma OneClaim(cfg: Config, ws: seq<World>, steps: seq<Step>, i: nat, j: nat, k: nat)
    requires Behaviour(cfg, ws, steps) && i < |ws| && j < |ws[i].log| && k < |ws[i].log|
    requires ws[i].log[j].challenge.Some? && ws[i].log[k].challenge.Some?
    requires ws[i].log[j].challenge.value.runId == ws[i].log[k].challenge.value.runId
    ensures ws[i].log[j].challenge == ws[i].log[k].challenge
  {
    hide Next, Init, Execution, StoreOk, ProcessesOk, EntryOk, Claimed, Sponsored, OnceInv;
    ReachableInv(cfg, ws, steps, i);
    var w := ws[i];
    assert EntryBacked(cfg, w, w.log[j]) && EntryBacked(cfg, w, w.log[k]);
    SameClaim(cfg, w, w.log[j].challenge.value, w.log[k].challenge.value);
  }

  lemma NamedTransfer(e: Entry, n: NormRun, ts: seq<NormTransfer>)
    requires PayoutNamed(n, e.req) && n.payouts == RunPayouts(ts)
    ensures PaysTransfer(e, ts)
  {
    hide ChallengeRuns.Kept, RunPayouts;
    var j :| 0 <= j < |n.payouts| && n.payouts[j].id == e.req.id && n.payouts[j].to == e.req.to &&
    n.payouts[j].amount == e.req.amount;
    var m := PayoutFrom(ts, j);
    assert ts[m].id == e.req.id && ts[m].amount == e.req.amount && ts[m].to == e.req.to;
  }

  lemma EntryPays(cfg: Config, w: World, e: Entry, n: NormChallenge)
    requires ProcessesOk(cfg, w) && EntryOk(cfg, e) && EntryBacked(cfg, w, e) && PaidOut(e, n.runId) && Claimed(w, n)
    ensures PaysTransfer(e, n.transfers) && e.challenge == Some(n)
  {
    hide ProcessesOk, Claimed, Sponsored, SignedBy, BetMarket, PayoutNamed, RunPayouts, TopUpId, PaysTransfer;
    SameClaim(cfg, w, e.challenge.value, n);
    NamedTransfer(e, e.run.value, n.transfers);
  }

  // ---------------------------------------------------------------- funded

  /** What a sound plan's deposits prove is what its transfers ask for, modulo 2^64. */
  lemma SoundPlanConserves(cfg: Config, chain: Ledger, plan: ChallengePlan)
    requires PlanSound(cfg, chain, plan)
    ensures IdsDistinct(plan.norm.transfers)
    ensures var ts, ds := plan.norm.transfers, plan.response.funding;
            Wrap(TransferTotal(ts)) == Wrap(ProvenTotal(ds)) &&
            (TransferTotal(ts) < TWO64 && ProvenTotal(ds) < TWO64 ==> TransferTotal(ts) == ProvenTotal(ds))
  {
    hide ReadyPlan, GoodNames, SameNames, FundingStands, TopUpPlanned, KeysDistinct, GoodTransfer, Wrap, TransferTotal,
         Spent, SpentBy, LineAmount, IdsDistinct, Prepare, RunPayouts, PayoutIdsDistinct, ValidRunHeader, Trim,
         ProvenTotal;
    var ts, ds := plan.norm.transfers, plan.response.funding;
    ReadyPayouts(plan);
    BucketsPartition(ds, ts);
    forall k | 0 <= k < |ds|
      ensures Wrap(Spent(ds, ts, k, WAGER)) == LineAmount(ds[k].wager) &&
              Wrap(Spent(ds, ts, k, GUARANTEE)) == LineAmount(ds[k].guarantee)
    {
      assert BucketConserved(ds, ts, k, WAGER, LineAmount(ds[k].wager)) &&
             BucketConserved(ds, ts, k, GUARANTEE, LineAmount(ds[k].guarantee));
    }
    SpentMatchesProven(ds, ts, |ds|);
    assert ds[..|ds|] == ds;
    if TransferTotal(ts) < TWO64 && ProvenTotal(ds) < TWO64 {
      WrapSmall(TransferTotal(ts));
      WrapSmall(ProvenTotal(ds));
    }
  }

  /**
   * Conservation over whole behaviours. In every reachable state, whatever ran and however it interleaved, the exact
   * sum of all payouts sent for one challenge id that returned a hash is at most the exact total of the one payload
   * that ever broadcast under the id, and so at most what its deposits prove, unless a total wraps at 2^64.
   */
  lemma PaidWithinFunding(cfg: Config, ws: seq<World>, steps: seq<Step>, i: nat,
                          sid: string) returns (plan: Option<ChallengePlan>)
    requires Behaviour(cfg, ws, steps) && i < |ws|
    ensures plan.None? ==> PaidTotal(ws[i].log, sid) == 0
    ensures plan.Some? ==>
              var ts, ds := plan.value.norm.transfers, plan.value.response.funding;
              PlanSound(cfg, ws[i].store.chain, plan.value) && plan.value.norm.runId == sid &&
              (forall k :: 0 <= k < |ws[i].log| && PaidOut(ws[i].log[k], sid) ==>
                 ws[i].log[k].challenge == Some(plan.value.norm)) &&
              PaidTotal(ws[i].log, sid) <= TransferTotal(ts) &&
              (TransferTotal(ts) < TWO64 && ProvenTotal(ds) < TWO64 ==> PaidTotal(ws[i].log, sid) <= ProvenTotal(ds))
  {
    hide Next, Init, Execution, StoreOk, ProcessesOk, EntryOk, Claimed, PlanSound, Owned, Accounted, AtMostOnce,
         PaidOut, TransferTotal, ProvenTotal, PaysTransfer;
    ReachableInv(cfg, ws, steps, i);
    var w := ws[i];
    if k :| 0 <= k < |w.log| && PaidOut(w.log[k], sid) {
      var n := ChallengeOf(w.log[k], sid);
      assert EntryBacked(cfg, w, w.log[k]);
      var p :| PlanSound(cfg, w.store.chain, p) && p.norm == n;
      forall j | 0 <= j < |w.log| && PaidOut(w.log[j], sid)
        ensures PaysTransfer(w.log[j], n.transfers) && w.log[j].challenge == Some(n)
      {
        EntryPays(cfg, w, w.log[j], n);
      }
      SoundPlanConserves(cfg, w.store.chain, p);
      PaidWithin(w.log, sid, n.transfers);
      plan := Some(p);
    } else {
      NonePaid(w.log, sid);
      plan := None;
    }
  }

  lemma ChallengeOf(e: Entry, sid: string) returns (n: NormChallenge)
    requires PaidOut(e, sid)
    ensures e.challenge == Some(n) && n.runId == sid
  {
    n := e.challenge.value;
  }

  lemma {:induction false} NonePaid(log: seq<Entry>, sid: string)
    requires forall i :: 0 <= i < |log| ==> !PaidOut(log[i], sid)
    ensures PaidTotal(log, sid) == 0
  {
    hide PaidOut;
    if |log| > 0 {
      NonePaid(log[..|log| - 1], sid);
    }
  }

  // ---------------------------------------------------------------- treasury lines

  /**
   * Treasury money goes to the treasury. In every reachable state, each payout logged for a challenge is one of
   * the challenge's transfers, to that transfer's recipient, and if its reason is treasury and the challenge
   * has a treasury, that is the recipient, ignoring case; and so are the recipients of the treasury lines of
   * every confirmed challenge.
   */
  lemma TreasuryIsPaid(cfg: Config, ws: seq<World>, steps: seq<Step>, i: nat)
    requires Behaviour(cfg, ws, steps) && i < |ws|
    ensures forall k ::
              0 <= k < |ws[i].log| && ws[i].log[k].challenge.Some? && ws[i].log[k].run.Some? ==>
                PaysRouted(ws[i].log[k], ws[i].log[k].challenge.value)
    ensures forall sid ::
              sid in ws[i].store.challenges && ws[i].store.challenges[sid].response.status == Confirmed ==>
                var n := ws[i].store.challenges[sid].request; AllRouted(n.treasury, n.transfers)
  {
    hide Next, Init, Execution, ChainOk, RequestsOk, RunsOk, ProcessesOk, EntryOk, Claimed, PlanSound, OnceInv,
         PaysRouted, AllRouted, TopUpDone, RunAnswerOk, ExecutedChallenge, Prepare, Settles, HashesOk;
    ReachableInv(cfg, ws, steps, i);
    var w := ws[i];
    forall k | 0 <= k < |w.log| && w.log[k].challenge.Some? && w.log[k].run.Some?
      ensures PaysRouted(w.log[k], w.log[k].challenge.value)
    {
      var n := w.log[k].challenge.value;
      assert EntryOk(cfg, w.log[k]) && EntryBacked(cfg, w, w.log[k]);
      var plan :| PlanSound(cfg, w.store.chain, plan) && plan.norm == n;
      SoundPlanRouted(cfg, w.store.chain, plan);
      EntryRouted(cfg, w.log[k], n);
    }
    forall sid | sid in w.store.challenges && w.store.challenges[sid].response.status == Confirmed
      ensures var n := w.store.challenges[sid].request; AllRouted(n.treasury, n.transfers)
    {
      var rec := w.store.challenges[sid];
      assert ChallengeRecordOk(cfg, w.store, sid, rec);
      var plan, t, run :| ConfirmedBy(cfg, w.store, rec.request, rec.response, plan, t, run);
      SoundPlanRouted(cfg, w.store.chain, plan);
    }
  }

  /** A payout of one of the transfers, to where that transfer may go. */
  ghost predicate PaysRouted(e: Entry, n: NormChallenge) {
    exists k ::
      0 <= k < |n.transfers| && n.transfers[k].id == e.req.id && n.transfers[k].to == e.req.to &&
      n.transfers[k].amount == e.req.amount && Routed(n.treasury, n.transfers[k].reason, e.req.to)
  }

  lemma SoundPlanRouted(cfg: Config, chain: Ledger, plan: ChallengePlan)
    requires PlanSound(cfg, chain, plan)
    ensures AllRouted(plan.norm.treasury, plan.norm.transfers)
  {
    hide ReadyPlan, GoodNames, SameNames, FundingStands, TopUpPlanned, AllRouted, KeysDistinct, BucketsConserved,
         GoodTransfer, TransferTotal, Wrap;
  }

  lemma EntryRouted(cfg: Config, e: Entry, n: NormChallenge)
    requires EntryOk(cfg, e) && e.challenge == Some(n) && e.run.Some? && AllRouted(n.treasury, n.transfers)
    ensures PaysRouted(e, n)
  {
    hide SignedBy, BetMarket, PayoutNamed, RunPayouts, TopUpId, Routed;
    NamedTransfer(e, e.run.value, n.transfers);
    var k :| 0 <= k < |n.transfers| && n.transfers[k].id == e.req.id && n.transfers[k].amount == e.req.amount &&
    n.transfers[k].to == e.req.to;
    assert Routed(n.treasury, n.transfers[k].reason, n.transfers[k].to);
  }
}

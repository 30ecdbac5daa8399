/** The main theorems about every execution of the rail. */
module Theorems {
  import opened Text
  import opened Ids
  import opened Records
  import opened Transfers
  import opened Runs
  import opened RunLaws
  import opened Challenges
  import opened ChallengeRuns
  import opened Audit
  import opened Machine
  import opened Once
  import opened Invariants
  import opened CallLaws
  import opened ChallengeSteps
  import opened Safety

  ghost predicate Behaviour(cfg: Config, ws: seq<World>, steps: seq<Step>) {
    Execution(cfg, ws, steps) && Init(cfg, ws[0])
  }

  lemma {:induction false} ReachableInv(cfg: Config, ws: seq<World>, steps: seq<Step>, i: nat)
    requires Behaviour(cfg, ws, steps) && i < |ws|
    ensures Inv(cfg, ws[i])
  {
    hide Inv, Next, Init;
    if i == 0 {
      InitInv(cfg, ws[0]);
    } else {
      ReachableInv(cfg, ws, steps, i - 1);
      StepKeeps(cfg, ws[i - 1], steps[i - 1], ws[i]);
    }
  }

  // ---------------------------------------------------------------- at most once

  /**
   * At most once. Over every interleaving of single, escrow, run and challenge executions, once a broadcast of a
   * request id returned a hash that id is never broadcast again. It is an instance of the same statement about the
   * looser machine, in which run and challenge locks exclude nothing.
   */
  lemma AtMostOneHash(cfg: Config, ws: seq<World>, steps: seq<Step>, i: nat, j: nat, id: string, v: Verdict,
                      v': Verdict)
    requires Behaviour(cfg, ws, steps) && i < j < |steps|
    requires BroadcastsAt(ws, steps, i, id, v) && BroadcastsAt(ws, steps, j, id, v')
    ensures !v.Hashed()
  {
    hide Next, LooseNext, BroadcastsAt, ChainOk, RequestsOk;
    ExecutionIsLoose(cfg, ws, steps);
    AtMostOneHashLoosely(cfg, ws, steps, i, j, id, v, v');
  }

  // ---------------------------------------------------------------- absorbing records

  lemma PreservedTwice(a: Store, b: Store, c: Store)
    requires Preserved(a, b) && Preserved(b, c)
    ensures Preserved(a, c)
  {
    hide Final, FinalRun, FinalChallenge, StoredRole;
  }

  lemma {:induction false} RecordsPreserved(cfg: Config, ws: seq<World>, steps: seq<Step>, i: nat, j: nat)
    requires Behaviour(cfg, ws, steps) && i <= j < |ws|
    ensures Preserved(ws[i].store, ws[j].store)
  {
    hide Inv, Next, Init, Preserved;
    if i == j {
      PreservedSame(ws[i].store);
    } else {
      RecordsPreserved(cfg, ws, steps, i, j - 1);
      ReachableInv(cfg, ws, steps, j - 1);
      StepKeeps(cfg, ws[j - 1], steps[j - 1], ws[j]);
      PreservedTwice(ws[i].store, ws[j - 1].store, ws[j].store);
    }
  }

  /** A process that is past reading an id, and would still preflight, broadcast or write it. */
  predicate MayWrite(p: Process, id: string) {
    p.call.Some? && p.call.value.req.id == id && Deciding(p.call.value.pc)
  }

  /**
   * Absorbing request records. A stored payload never changes, an empty role meaning payout; a final record never
   * changes at all, no process is or will be about to write it, and every call that reads it replays it or
   * reports a conflict.
   */
  lemma AbsorbingRequests(cfg: Config, ws: seq<World>, steps: seq<Step>, i: nat, j: nat, id: string)
    requires Behaviour(cfg, ws, steps) && i <= j < |ws| && id in ws[i].store.requests
    ensures id in ws[j].store.requests &&
            SameRequest(ws[i].store.requests[id].request, ws[j].store.requests[id].request)
    ensures Final(ws[i].store.requests[id].response) ==>
              ws[j].store.requests[id] == ws[i].store.requests[id] &&
              (forall pid :: pid in ws[j].procs ==> !MayWrite(ws[j].procs[pid], id)) &&
              forall req: Request ::
                Decide(Some(ws[j].store.requests[id]), req) ==
                Some(if SameRequest(ws[i].store.requests[id].request, req)
                     then ws[i].store.requests[id].response.(replay := true)
                     else Conflict(req, ws[i].store.requests[id]))
  {
    hide Next, Init, StoreOk, LogOk, OnceInv, Final, SameRequest, Execution, RunsKept, ChallengesKept;
    RecordsPreserved(cfg, ws, steps, i, j);
    ReachableInv(cfg, ws, steps, j);
    if Final(ws[i].store.requests[id].response) {
      forall pid | pid in ws[j].procs ensures !MayWrite(ws[j].procs[pid], id) {
        NotDeciding(cfg, ws[j], pid, id);
      }
    }
  }

  lemma NotDeciding(cfg: Config, w: World, pid: nat, id: string)
    requires ProcessesOk(cfg, w) && pid in w.procs && id in w.store.requests && Final(w.store.requests[id].response)
    ensures !MayWrite(w.procs[pid], id)
  {
    hide RunInv, ChallengeInv, Stacked, Final, SameRequest;
    assert ProcessInv(cfg, w.store, w.locks, pid, w.procs[pid]);
  }

  predicate MayWriteRun(p: Process, id: string) {
    p.run.Some? && p.run.value.plan.runId == id && (p.run.value.pc.RunLines? || p.run.value.pc.RunWriting?)
  }

  predicate MayWriteChallenge(p: Process, id: string) {
    p.challenge.Some? && p.challenge.value.plan.norm.runId == id &&
    (p.challenge.value.pc.ToppingUp? || p.challenge.value.pc.Paying? || p.challenge.value.pc.ChallengeWriting?)
  }

  /**
   * Absorbing run records: a fingerprint never changes; a final record never changes and is only replayed or reported
   * as a conflict.
   */
  lemma AbsorbingRuns(cfg: Config, ws: seq<World>, steps: seq<Step>, i: nat, j: nat, id: string)
    requires Behaviour(cfg, ws, steps) && i <= j < |ws| && id in ws[i].store.runs
    ensures id in ws[j].store.runs && ws[j].store.runs[id].fingerprint == ws[i].store.runs[id].fingerprint
    ensures FinalRun(ws[i].store.runs[id].response) ==>
              ws[j].store.runs[id] == ws[i].store.runs[id] &&
              (forall pid :: pid in ws[j].procs ==> !MayWriteRun(ws[j].procs[pid], id)) &&
              forall n: NormRun, plan: RunResponse ::
                DecideRun(Some(ws[j].store.runs[id]), n, plan) ==
                Some(if n == ws[i].store.runs[id].fingerprint then ws[i].store.runs[id].response.(replay := true)
                     else FailedRun("IDEMPOTENCY_CONFLICT", false, plan.runId, plan.role).(signer := plan.signer))
  {
    hide Next, Init, StoreOk, LogOk, OnceInv, FinalRun, Execution, RequestsKept, ChallengesKept, FailedRun;
    RecordsPreserved(cfg, ws, steps, i, j);
    ReachableInv(cfg, ws, steps, j);
    if FinalRun(ws[i].store.runs[id].response) {
      forall pid | pid in ws[j].procs ensures !MayWriteRun(ws[j].procs[pid], id) {
        NotPaying(cfg, ws[j], pid, id);
      }
    }
  }

  lemma NotPaying(cfg: Config, w: World, pid: nat, id: string)
    requires ProcessesOk(cfg, w) && pid in w.procs && id in w.store.runs && FinalRun(w.store.runs[id].response)
    ensures !MayWriteRun(w.procs[pid], id)
  {
    hide CallInv, ChallengeInv, Stacked, FinalRun, PlanOk, LinesGood, RunRecordOk, RunAnswerOk;
    assert ProcessInv(cfg, w.store, w.locks, pid, w.procs[pid]);
  }

  /** Absorbing challenge records: as for runs. */
  lemma AbsorbingChallenges(cfg: Config, ws: seq<World>, steps: seq<Step>, i: nat, j: nat, id: string)
    requires Behaviour(cfg, ws, steps) && i <= j < |ws| && id in ws[i].store.challenges
    ensures id in ws[j].store.challenges &&
            ws[j].store.challenges[id].fingerprint == ws[i].store.challenges[id].fingerprint
    ensures FinalChallenge(ws[i].store.challenges[id].response) ==>
              ws[j].store.challenges[id] == ws[i].store.challenges[id] &&
              (forall pid :: pid in ws[j].procs ==> !MayWriteChallenge(ws[j].procs[pid], id)) &&
              forall n: NormChallenge ::
                DecideChallenge(Some(ws[j].store.challenges[id]), n) ==
                Some(if n == ws[i].store.challenges[id].fingerprint
                     then ws[i].store.challenges[id].response.(replay := true)
                     else FailedChallenge("IDEMPOTENCY_CONFLICT", false, n))
  {
    hide Next, Init, StoreOk, LogOk, OnceInv, FinalChallenge, Execution, RequestsKept, RunsKept, FailedChallenge;
    RecordsPreserved(cfg, ws, steps, i, j);
    ReachableInv(cfg, ws, steps, j);
    if FinalChallenge(ws[i].store.challenges[id].response) {
      forall pid | pid in ws[j].procs ensures !MayWriteChallenge(ws[j].procs[pid], id) {
        NotSettling(cfg, ws[j], pid, id);
      }
    }
  }

  lemma NotSettling(cfg: Config, w: World, pid: nat, id: string)
    requires ProcessesOk(cfg, w) && pid in w.procs && id in w.store.challenges &&
             FinalChallenge(w.store.challenges[id].response)
    ensures !MayWriteChallenge(w.procs[pid], id)
  {
    hide CallInv, RunInv, Stacked, FinalChallenge, Quiet, TopUpDone, ChallengeRecordOk;
    assert ProcessInv(cfg, w.store, w.locks, pid, w.procs[pid]);
  }

  // ---------------------------------------------------------------- the layers agree

  lemma RunHashes(requests: Requests, n: NormRun, r: RunResponse)
    requires RunResponseOk(requests, n, r)
    ensures HashedLinesOk(requests, r.lines)
  {
    hide RunDone;
    if RunDone(requests, n, r) {
      DoneAnswers(requests, n, r);
    }
  }

  /**
   * Cross-layer agreement. In every reachable store every hash reported by a line of a run record, or by a line, the
   * run or the top-up of a challenge record, is the hash of the request record of that id, with the same recipient and
   * amount; and every fingerprint is the one of its own request, with the signer of its own response.
   */
  lemma LayersAgree(cfg: Config, ws: seq<World>, steps: seq<Step>, i: nat)
    requires Behaviour(cfg, ws, steps) && i < |ws|
    ensures var s := ws[i].store;
            (forall id :: id in s.requests ==>
               s.requests[id].fingerprint == Fingerprint(s.requests[id].request, s.requests[id].response.signer) &&
               s.requests[id].request.id == id &&
               s.requests[id].response.to == s.requests[id].request.to &&
               s.requests[id].response.amount == s.requests[id].request.amount) &&
            (forall id ::
               id in s.runs ==>
                 HashedLinesOk(s.requests, s.runs[id].response.lines) &&
                 s.runs[id].fingerprint == s.runs[id].request) &&
            (forall id ::
               id in s.challenges ==>
                 HashesOk(s.requests, s.challenges[id].response) &&
                 s.challenges[id].fingerprint == s.challenges[id].request)
  {
    hide Next, Init, Execution, ProcessesOk, LogOk, OnceInv, ChainOk, RunResponseOk, Explained, HashesOk, GoodRequest,
         Linked, Sound;
    ReachableInv(cfg, ws, steps, i);
    var s := ws[i].store;
    forall id | id in s.runs
      ensures HashedLinesOk(s.requests, s.runs[id].response.lines) && s.runs[id].fingerprint == s.runs[id].request
    {
      assert RunRecordOk(s.requests, id, s.runs[id]);
      RunHashes(s.requests, s.runs[id].request, s.runs[id].response);
    }
    forall id | id in s.challenges
      ensures HashesOk(s.requests, s.challenges[id].response) &&
              s.challenges[id].fingerprint == s.challenges[id].request
    {
      assert ChallengeRecordOk(cfg, s, id, s.challenges[id]);
    }
    forall id | id in s.requests ensures RecordOk(cfg, s, id, s.requests[id]) {
    }
  }

  // ---------------------------------------------------------------- signers

  /** A line of a run that reports a hash was signed for the run's role. */
  ghost predicate SignedLines(cfg: Config, requests: Requests, rec: RunRecord) {
    forall k :: 0 <= k < |rec.response.lines| && rec.response.lines[k].txHash != "" ==>
      var l := rec.response.lines[k];
      SignedBy(cfg, rec.request.role, l.signer) && l.id in requests &&
      StoredRole(requests[l.id].request.role) == rec.request.role &&
      (BetMarket(rec.request) ==> rec.request.role == ESCROW)
  }

  /** Two broadcasts from the escrow account for the same challenge. */
  predicate EscrowDebits(a: Entry, b: Entry) {
    a.challenge.Some? && b.challenge.Some? && a.challenge.value.runId == b.challenge.value.runId &&
    a.req.role == ESCROW && b.req.role == ESCROW
  }

  /**
   * Signer isolation. Every broadcast is signed by the account of its role; every broadcast inside a run is one of
   * that run's payouts under the run's own role, and a bet-market run under the payout role never broadcasts; inside
   * a challenge the run pays from the payout account, and the only debit of the escrow account is the challenge's
   * own top-up id.
   */
  lemma SignerIsolation(cfg: Config, ws: seq<World>, steps: seq<Step>, i: nat)
    requires Behaviour(cfg, ws, steps) && i < |ws|
    ensures forall k :: 0 <= k < |ws[i].log| ==> EntryOk(cfg, ws[i].log[k])
    ensures forall id :: id in ws[i].store.runs ==> SignedLines(cfg, ws[i].store.requests, ws[i].store.runs[id])
    ensures forall j, k ::
              0 <= j < k < |ws[i].log| && EscrowDebits(ws[i].log[j], ws[i].log[k]) ==> !ws[i].log[j].verdict.Hashed()
  {
    hide Next, Init, Execution, ProcessesOk, EntryOk, EntryBacked, Accounted, Owned, ChainOk, RunRecordOk, ChallengesOk,
         TopUpId, SignedLines, RecordOk;
    ReachableInv(cfg, ws, steps, i);
    var w := ws[i];
    forall id | id in w.store.runs ensures SignedLines(cfg, w.store.requests, w.store.runs[id]) {
      RunSigned(cfg, w.store, id);
    }
    forall j, k | 0 <= j < k < |w.log| && EscrowDebits(w.log[j], w.log[k]) ensures !w.log[j].verdict.Hashed() {
      EscrowDebit(cfg, w.log[j]);
      EscrowDebit(cfg, w.log[k]);
    }
  }

  lemma EscrowDebit(cfg: Config, e: Entry)
    requires EntryOk(cfg, e) && e.challenge.Some? && e.req.role == ESCROW
    ensures e.req.id == TopUpId(e.challenge.value.runId) && e.run.None?
  {
    hide SignedBy, BetMarket, PayoutNamed, TopUpId;
  }

  lemma RunSigned(cfg: Config, s: Store, id: string)
    requires RequestsOk(cfg, s) && id in s.runs && RunRecordOk(s.requests, id, s.runs[id])
    ensures SignedLines(cfg, s.requests, s.runs[id])
  {
    hide TallyLines, FinalRun, BetMarket, Answers, GoodRequest, SignedBy, StoredRole, Trim, Sound;
    var rec := s.runs[id];
    forall k | 0 <= k < |rec.response.lines| && rec.response.lines[k].txHash != ""
      ensures var l := rec.response.lines[k];
              SignedBy(cfg, rec.request.role, l.signer) && l.id in s.requests &&
              StoredRole(s.requests[l.id].request.role) == rec.request.role &&
              (BetMarket(rec.request) ==> rec.request.role == ESCROW)
    {
      assert !RunIdle(rec.response) by { assert !PlannedLine(rec.response.lines[k]); }
      var l := rec.response.lines[k];
      assert LineGood(s.requests, rec.request.role, rec.request.payouts[k], l);
      assert RecordOk(cfg, s, l.id, s.requests[l.id]);
    }
  }
}

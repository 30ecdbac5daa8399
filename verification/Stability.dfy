/** Everything claimed of a store stays true of every store that preserves it. */
module Stability {
  import opened Text
  import opened Records
  import opened Chain
  import opened Transfers
  import opened Runs
  import opened Challenges
  import opened ChallengeRuns
  import opened ChallengeSound
  import opened Audit
  import opened Machine
  import opened Invariants

  lemma HashedRecordStays(a: Requests, b: Requests, id: string)
    requires RequestsKept(a, b) && id in a && a[id].response.txHash != ""
    ensures id in b && b[id] == a[id]
  {
  }

  lemma AnswerStable(a: Requests, b: Requests, req: Request, r: Response)
    requires RequestsKept(a, b) && AnswerOk(a, req, r)
    ensures AnswerOk(b, req, r)
  {
    hide RequestsKept, SameRequest, Sound;
    if r.txHash != "" {
      HashedRecordStays(a, b, req.id);
    }
  }

  lemma LineStable(a: Requests, b: Requests, l: Line)
    requires RequestsKept(a, b) && HashedLineOk(a, l)
    ensures HashedLineOk(b, l) && (l.txHash != "" ==> b[l.id] == a[l.id])
  {
    hide RequestsKept;
    if l.txHash != "" {
      HashedRecordStays(a, b, l.id);
    }
  }

  lemma LinesStable(a: Requests, b: Requests, lines: seq<Line>)
    requires RequestsKept(a, b) && HashedLinesOk(a, lines)
    ensures HashedLinesOk(b, lines)
  {
    hide RequestsKept, HashedLineOk;
    forall i | 0 <= i < |lines| ensures HashedLineOk(b, lines[i]) {
      LineStable(a, b, lines[i]);
    }
  }

  lemma LineGoodStable(a: Requests, b: Requests, role: string, p: Payout, l: Line)
    requires RequestsKept(a, b) && LineGood(a, role, p, l)
    ensures LineGood(b, role, p, l)
  {
    hide RequestsKept, Answers, StoredRole, Trim;
    LineStable(a, b, l);
  }

  lemma LinesGoodStable(a: Requests, b: Requests, n: NormRun, lines: seq<Line>)
    requires RequestsKept(a, b) && LinesGood(a, n, lines)
    ensures LinesGood(b, n, lines)
  {
    hide RequestsKept, LineGood;
    forall j | 0 <= j < |lines| ensures LineGood(b, n.role, n.payouts[j], lines[j]) {
      LineGoodStable(a, b, n.role, n.payouts[j], lines[j]);
    }
  }

  lemma RunResponseStable(a: Requests, b: Requests, n: NormRun, r: RunResponse)
    requires RequestsKept(a, b) && RunResponseOk(a, n, r)
    ensures RunResponseOk(b, n, r)
  {
    hide RequestsKept, LinesGood, RunIdle, TallyLines, FinalRun, NeedsEscrow;
    if RunDone(a, n, r) {
      LinesGoodStable(a, b, n, r.lines);
    }
  }

  lemma RunAnswerStable(s: Store, s': Store, id: string, n: NormRun, r: RunResponse)
    requires RequestsKept(s.requests, s'.requests) && RunsKept(s.runs, s'.runs) && RunAnswerOk(s, id, n, r)
    ensures RunAnswerOk(s', id, n, r)
  {
    hide RequestsKept, RunResponseOk, FinalRun;
    RunResponseStable(s.requests, s'.requests, n, r);
  }

  lemma HashesStable(a: Requests, b: Requests, r: ChallengeResponse)
    requires RequestsKept(a, b) && HashesOk(a, r)
    ensures HashesOk(b, r)
  {
    hide RequestsKept, HashedLinesOk;
    LinesStable(a, b, LinesOf(r.moves));
    if r.run.Some? {
      LinesStable(a, b, r.run.value.lines);
    }
    if r.topUp.Some? && r.topUp.value.response.Some? && r.topUp.value.response.value.txHash != "" {
      HashedRecordStays(a, b, r.topUp.value.response.value.id);
    }
  }

  lemma TopUpStable(a: Requests, b: Requests, plan: ChallengePlan, t: Option<TopUp>)
    requires RequestsKept(a, b) && TopUpDone(a, plan, t)
    ensures TopUpDone(b, plan, t)
  {
    hide RequestsKept, AnswerOk, TopUpRequest;
    if plan.response.topUp.Some? && plan.response.topUp.value.required {
      AnswerStable(a, b, TopUpRequest(plan).value, t.value.response.value);
    }
  }

  lemma ExplainedStable(cfg: Config, s: Store, s': Store, n: NormChallenge, r: ChallengeResponse)
    requires Preserved(s, s') && Explained(cfg, s, n, r)
    ensures Explained(cfg, s', n, r)
  {
    hide RequestsKept, RunsKept, ChallengesKept, Grows, SendsKept, PlanSound, TopUpDone, RunAnswerOk, ExecutedChallenge,
         Prepare;
    var plan, t, run :| ConfirmedBy(cfg, s, n, r, plan, t, run);
    PlanSoundGrows(cfg, s.chain, s'.chain, plan);
    TopUpStable(s.requests, s'.requests, plan, t);
    RunAnswerStable(s, s', n.runId, Prepare(plan.runRequest).0, run);
    assert ConfirmedBy(cfg, s', n, r, plan, t, run);
  }

  lemma ChallengeRecordStable(cfg: Config, s: Store, s': Store, id: string, rec: ChallengeRecord)
    requires Preserved(s, s') && ChallengeRecordOk(cfg, s, id, rec)
    ensures ChallengeRecordOk(cfg, s', id, rec)
  {
    hide RequestsKept, RunsKept, ChallengesKept, Grows, SendsKept, HashesOk, Explained;
    HashesStable(s.requests, s'.requests, rec.response);
    if rec.response.status == Confirmed {
      ExplainedStable(cfg, s, s', rec.request, rec.response);
    }
  }

  lemma RecordStable(cfg: Config, s: Store, s': Store, id: string, rec: Record)
    requires Grows(s.chain, s'.chain) && SendsKept(s.sends, s'.sends) && RecordOk(cfg, s, id, rec)
    ensures RecordOk(cfg, s', id, rec)
  {
    hide GoodRequest, ResponseFor, SignedBy, StoredRole;
  }

  // ---------------------------------------------------------------- other processes

  /** A process keeps its locks and everything it has locked. */
  ghost predicate Undisturbed<R>(l: LockTable, l': LockTable, pid: nat, a: map<string, R>, b: map<string, R>) {
    forall id ::
      id in l && l[id] == pid ==> id in l' && l'[id] == pid && (id in a <==> id in b) && (id in a ==> b[id] == a[id])
  }

  ghost predicate Bystander(s: Store, s': Store, l: Locks, l': Locks, pid: nat) {
    Preserved(s, s') && Undisturbed(l.requests, l'.requests, pid, s.requests, s'.requests) &&
    Undisturbed(l.runs, l'.runs, pid, s.runs, s'.runs) &&
    Undisturbed(l.challenges, l'.challenges, pid, s.challenges, s'.challenges)
  }

  lemma CallStable(cfg: Config, s: Store, s': Store, l: LockTable, l': LockTable, pid: nat, c: Call)
    requires CallInv(cfg, s, l, pid, c) && Preserved(s, s') && Undisturbed(l, l', pid, s.requests, s'.requests)
    ensures CallInv(cfg, s', l', pid, c)
  {
    hide RequestsKept, RunsKept, ChallengesKept, Grows, SendsKept, GoodRequest, RecordOk, AnswerOk, SignedBy, NewRecord,
         SameRequest, Final;
    if c.pc.Writing? {
      RecordStable(cfg, s, s', c.req.id, NewRecord(c.req, c.pc.signer, c.pc.written));
    }
    if Answering(c.pc) {
      AnswerStable(s.requests, s'.requests, c.req, c.pc.answer);
    }
  }

  lemma RunRecordStable(a: Requests, b: Requests, id: string, rec: RunRecord)
    requires RequestsKept(a, b) && RunRecordOk(a, id, rec)
    ensures RunRecordOk(b, id, rec)
  {
    hide RequestsKept, RunResponseOk;
    RunResponseStable(a, b, rec.request, rec.response);
  }

  lemma RunStable(s: Store, s': Store, l: LockTable, l': LockTable, pid: nat, f: RunFrame)
    requires RunInv(s, l, pid, f) && Preserved(s, s') && Undisturbed(l, l', pid, s.runs, s'.runs)
    ensures RunInv(s', l', pid, f)
  {
    hide RequestsKept, RunsKept, ChallengesKept, Grows, SendsKept, PlanOk, LinesGood, RunRecordOk, RunAnswerOk,
         FinalRun;
    if f.pc.RunLines? {
      LinesGoodStable(s.requests, s'.requests, f.norm, f.lines);
    }
    if f.pc.RunWriting? {
      RunRecordStable(s.requests, s'.requests, f.plan.runId, RunRecord(f.norm, f.norm, f.pc.written));
    }
    if f.pc.RunUnlocking? || f.pc.RunReturned? {
      RunAnswerStable(s, s', f.plan.runId, f.norm, f.pc.answer);
    }
  }

  lemma ChallengeStable(cfg: Config, s: Store, s': Store, l: LockTable, l': LockTable, pid: nat, f: ChallengeFrame)
    requires ChallengeInv(cfg, s, l, pid, f) && Preserved(s, s') && Undisturbed(l, l', pid, s.challenges, s'.challenges)
    ensures ChallengeInv(cfg, s', l', pid, f)
  {
    hide RequestsKept, RunsKept, ChallengesKept, Grows, SendsKept, Quiet, PlanSound, ChallengeRecordOk, TopUpDone,
         FinalChallenge;
    if f.plan.response.ok {
      PlanSoundGrows(cfg, s.chain, s'.chain, f.plan);
    }
    if f.pc.Paying? {
      TopUpStable(s.requests, s'.requests, f.plan, f.topUp);
    }
    if f.pc.ChallengeWriting? {
      ChallengeRecordStable(cfg, s, s', f.plan.norm.runId, ChallengeRecord(f.plan.norm, f.plan.norm, f.pc.written));
    }
  }

  lemma ProcessStable(cfg: Config, s: Store, s': Store, l: Locks, l': Locks, pid: nat, p: Process)
    requires ProcessInv(cfg, s, l, pid, p) && Bystander(s, s', l, l', pid)
    ensures ProcessInv(cfg, s', l', pid, p)
  {
    hide Preserved, Undisturbed, CallInv, RunInv, ChallengeInv, Stacked;
    if p.call.Some? {
      CallStable(cfg, s, s', l.requests, l'.requests, pid, p.call.value);
    }
    if p.run.Some? {
      RunStable(s, s', l.runs, l'.runs, pid, p.run.value);
    }
    if p.challenge.Some? {
      ChallengeStable(cfg, s, s', l.challenges, l'.challenges, pid, p.challenge.value);
    }
  }

  // ---------------------------------------------------------------- the records of a store

  lemma RunsStable(s: Store, s': Store)
    requires RunsOk(s) && RequestsKept(s.requests, s'.requests) && s'.runs == s.runs
    ensures RunsOk(s')
  {
    hide RequestsKept, RunRecordOk;
    forall id | id in s'.runs ensures RunRecordOk(s'.requests, id, s'.runs[id]) {
      RunRecordStable(s.requests, s'.requests, id, s.runs[id]);
    }
  }

  lemma ChallengesStable(cfg: Config, s: Store, s': Store)
    requires ChallengesOk(cfg, s) && Preserved(s, s') && s'.challenges == s.challenges
    ensures ChallengesOk(cfg, s')
  {
    hide Preserved, ChallengeRecordOk;
    forall id | id in s'.challenges ensures ChallengeRecordOk(cfg, s', id, s'.challenges[id]) {
      ChallengeRecordStable(cfg, s, s', id, s.challenges[id]);
    }
  }

  lemma RequestsStable(cfg: Config, s: Store, s': Store)
    requires RequestsOk(cfg, s) && Grows(s.chain, s'.chain) && SendsKept(s.sends, s'.sends) && s'.requests == s.requests
    ensures RequestsOk(cfg, s')
  {
    hide Grows, SendsKept, RecordOk;
    forall id | id in s'.requests ensures RecordOk(cfg, s', id, s'.requests[id]) {
      RecordStable(cfg, s, s', id, s.requests[id]);
    }
  }
}

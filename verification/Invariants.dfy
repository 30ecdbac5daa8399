/** What every reachable store and every process keeps, and how the store may change. */
module Invariants {
  import opened Text
  import opened Ids
  import opened Records
  import opened Chain
  import opened Transfers
  import opened Runs
  import opened RunLaws
  import opened Challenges
  import opened ChallengeRuns
  import opened ChallengeSound
  import opened Audit
  import opened Machine

  // ---------------------------------------------------------------- request records

  predicate GoodRequest(req: Request) {
    RequestIdPattern(req.id) && Trim(req.to) == req.to && IsWoloAddress(req.to) && Trim(req.amount) == req.amount &&
    req.amount != "" &&
    (StoredRole(req.role) == PAYOUT || StoredRole(req.role) == ESCROW)
  }

  /** The address a signer role resolves to. */
  predicate SignedBy(cfg: Config, role: string, signer: string) {
    Trim(signer) == signer && IsWoloAddress(signer) &&
    var configured := if role == ESCROW then cfg.escrowAddress else cfg.payoutAddress;
    configured == "" || EqualFold(signer, configured)
  }

  /** A response that belongs to a request: same id, recipient and amount, and a success always carries a hash. */
  predicate ResponseFor(req: Request, r: Response) {
    r.id == req.id && r.to == req.to && r.amount == req.amount && Sound(r)
  }

  predicate Sound(r: Response) {
    (r.status == Failed || r.status == Accepted || r.status == Confirmed) && (r.ok <==> r.status != Failed) &&
    (r.ok ==> r.txHash != "") && (r.txHash != "" ==> !r.retryable && TxHash(r.txHash))
  }

  /** A recorded hash is the hash of this very send; a confirmed one is on the chain and succeeded. */
  ghost predicate Linked(cfg: Config, s: Store, req: Request, r: Response) {
    r.txHash != "" ==>
      r.txHash in s.sends && s.sends[r.txHash] == Send(req, r.signer) &&
      SignedBy(cfg, StoredRole(req.role), r.signer) &&
      (r.status == Confirmed ==> r.txHash in s.chain && s.chain[r.txHash].success)
  }

  ghost predicate RecordOk(cfg: Config, s: Store, id: string, rec: Record) {
    rec.request.id == id && GoodRequest(rec.request) &&
    rec.fingerprint == Fingerprint(rec.request, rec.response.signer) &&
    ResponseFor(rec.request, rec.response) && !rec.response.replay && Linked(cfg, s, rec.request, rec.response)
  }

  /** No record, or one of the same payload that a later call may still retry. */
  predicate Open(requests: Requests, req: Request) {
    req.id in requests ==> SameRequest(requests[req.id].request, req) && !Final(requests[req.id].response)
  }

  /** What a call may answer: a hash is always the hash of the stored record of the same payload. */
  predicate AnswerOk(requests: Requests, req: Request, r: Response) {
    r.id == req.id && Sound(r) && (r.amount == "" || r.amount == req.amount) &&
    (r.txHash != "" ==>
       req.id in requests && SameRequest(requests[req.id].request, req) &&
       requests[req.id].response.(replay := r.replay) == r)
  }

  predicate Answering(pc: CallPc) {
    pc.Unlocking? || pc.Returned?
  }

  ghost predicate CallInv(cfg: Config, s: Store, l: LockTable, pid: nat, c: Call) {
    GoodRequest(c.req) && (c.req.role == PAYOUT || c.req.role == ESCROW) &&
    (Holding(c.pc) ==> c.req.id in l && l[c.req.id] == pid) &&
    (Deciding(c.pc) ==> Open(s.requests, c.req)) &&
    (c.pc.Broadcasting? ==> SignedBy(cfg, c.req.role, c.pc.signer)) &&
    (c.pc.Writing? ==> RecordOk(cfg, s, c.req.id, NewRecord(c.req, c.pc.signer, c.pc.written))) &&
    (Answering(c.pc) ==> AnswerOk(s.requests, c.req, c.pc.answer))
  }

  // ---------------------------------------------------------------- run records

  /**
   * A line that reports a hash reports it for the id, recipient, amount, status and signer of a stored request record.
   */
  predicate HashedLineOk(requests: Requests, l: Line) {
    l.txHash != "" ==>
      l.id in requests && requests[l.id].response.txHash == l.txHash && requests[l.id].request.to == l.to &&
      requests[l.id].request.amount == l.amount && requests[l.id].response.status == l.status &&
      requests[l.id].response.signer == l.signer
  }

  /** A line executed for a payout under a role. */
  predicate LineGood(requests: Requests, role: string, p: Payout, l: Line) {
    Answers(p, l) && HashedLineOk(requests, l) && l.memo == p.memo && (l.ok ==> l.txHash != "") &&
    (l.txHash != "" ==>
       l.to == p.to && l.amount == p.amount && !l.retryable && StoredRole(requests[l.id].request.role) == role &&
                        requests[l.id].request.memo == Trim(p.memo))
  }

  predicate LinesGood(requests: Requests, n: NormRun, lines: seq<Line>) {
    |lines| <= |n.payouts| && forall j :: 0 <= j < |lines| ==> LineGood(requests, n.role, n.payouts[j], lines[j])
  }

  /** A run response with nothing executed. */
  predicate RunIdle(r: RunResponse) {
    IdleRun(r) && r.status == Failed && !r.ok
  }

  /** A run response with one executed line for each payout, tallied from zero. */
  ghost predicate RunDone(requests: Requests, n: NormRun, r: RunResponse) {
    LinesGood(requests, n, r.lines) && |r.lines| == |n.payouts| && r.tally == TallyLines(ZERO, r.lines) &&
    (n.role == PAYOUT || n.role == ESCROW) && !NeedsEscrow(n) && r.status != Validated &&
    (r.ok <==> r.status == Confirmed || r.status == Accepted) && (r.status == Confirmed ==> FinalRun(r)) &&
    (r.retryable <==> HasRetryable(r.lines)) &&
    (FinalRun(r) && |r.lines| > 0 && AllConfirmed(r.lines) ==> r.status == Confirmed)
  }

  /** A run whose every requested line confirmed says so. */
  predicate Settles(requested: nat, r: RunResponse) {
    |r.lines| == requested > 0 && AllConfirmed(r.lines) ==> r.status == Confirmed
  }

  ghost predicate RunResponseOk(requests: Requests, n: NormRun, r: RunResponse) {
    RunIdle(r) || RunDone(requests, n, r)
  }

  ghost predicate RunRecordOk(requests: Requests, id: string, rec: RunRecord) {
    rec.fingerprint == rec.request && RunResponseOk(requests, rec.request, rec.response) && !rec.response.replay &&
    rec.response.runId == id
  }

  /** A run that answers confirmed answers from its own stored record. */
  ghost predicate RunAnswerOk(s: Store, id: string, n: NormRun, r: RunResponse) {
    RunResponseOk(s.requests, n, r) &&
    (r.status == Confirmed ==>
       id in s.runs && s.runs[id].request == n && s.runs[id].response.(replay := r.replay) == r &&
       FinalRun(s.runs[id].response))
  }

  predicate PlanOk(n: NormRun, plan: RunResponse) {
    AllPlanned(plan.lines) && SameExecution(plan.tally, ZERO) && !plan.replay &&
    (plan.ok <==> plan.status == Validated) && (!plan.ok ==> plan.status == Failed) && GoodPayouts(n) &&
    (plan.ok ==>
       (n.role == PAYOUT || n.role == ESCROW) && !NeedsEscrow(n) && plan.requested > 0 && |n.payouts| <= plan.requested)
  }

  predicate OpenRun(runs: RunStore, f: RunFrame) {
    f.plan.runId in runs ==> runs[f.plan.runId].fingerprint == f.norm && !FinalRun(runs[f.plan.runId].response)
  }

  predicate RunHolding(pc: RunPc) {
    pc.RunReading? || pc.RunLines? || pc.RunWriting? || pc.RunUnlocking?
  }

  ghost predicate RunInv(s: Store, l: LockTable, pid: nat, f: RunFrame) {
    PlanOk(f.norm, f.plan) &&
    (RunHolding(f.pc) ==> f.plan.runId in l && l[f.plan.runId] == pid) &&
    (f.pc.RunLocking? || f.pc.RunReading? ==> f.lines == []) &&
    (f.pc.RunLines? || f.pc.RunWriting? ==> OpenRun(s.runs, f)) &&
    (f.pc.RunLines? ==> f.plan.ok && LinesGood(s.requests, f.norm, f.lines)) &&
    (f.pc.RunWriting? ==>
       RunRecordOk(s.requests, f.plan.runId, RunRecord(f.norm, f.norm, f.pc.written)) &&
       Settles(f.plan.requested, f.pc.written)) &&
    (f.pc.RunUnlocking? || f.pc.RunReturned? ==>
       RunAnswerOk(s, f.plan.runId, f.norm, f.pc.answer) && Settles(f.plan.requested, f.pc.answer))
  }

  // ---------------------------------------------------------------- challenge records

  predicate HashedLinesOk(requests: Requests, lines: seq<Line>) {
    forall i :: 0 <= i < |lines| ==> HashedLineOk(requests, lines[i])
  }

  /** A top-up that reports a hash reports the stored hash, recipient and amount of its request record. */
  predicate HashedTopUpOk(requests: Requests, t: Option<TopUp>) {
    t.Some? && t.value.response.Some? && t.value.response.value.txHash != "" ==>
      var r := t.value.response.value;
      r.id in requests && requests[r.id].response.txHash == r.txHash && requests[r.id].request.to == r.to &&
      requests[r.id].request.amount == r.amount
  }

  /** Every hash a challenge response reports, in its moves, in its run or in its top-up, is a recorded one. */
  predicate HashesOk(requests: Requests, r: ChallengeResponse) {
    HashedLinesOk(requests, LinesOf(r.moves)) && (r.run.Some? ==> HashedLinesOk(requests, r.run.value.lines)) &&
    HashedTopUpOk(requests, r.topUp)
  }

  function TopUpRequest(plan: ChallengePlan): Option<Request>
    requires plan.response.topUp.Some?
  {
    Normalize(TopUpRaw(plan.norm.runId, plan.response.topUp.value), ESCROW)
  }

  /** The top-up of a plan that went on to pay: not needed, or executed with success and recorded. */
  ghost predicate TopUpDone(requests: Requests, plan: ChallengePlan, t: Option<TopUp>) {
    if plan.response.topUp.Some? && plan.response.topUp.value.required then
      TopUpRequest(plan).Some? && t.Some? && t.value.response.Some? &&
      var req, r := TopUpRequest(plan).value, t.value.response.value;
      r.ok && r.txHash != "" && AnswerOk(requests, req, r) &&
      t.value == plan.response.topUp.value.(response := Some(r), code := r.failureCode, from := r.signer, to := r.to)
    else t == plan.response.topUp
  }

  /** How a confirmed challenge came about: a sound plan, its top-up, and a run that answers every payout. */
  ghost predicate ConfirmedBy(cfg: Config, s: Store, n: NormChallenge, r: ChallengeResponse, plan: ChallengePlan,
                              t: Option<TopUp>, run: RunResponse) {
    PlanSound(cfg, s.chain, plan) && plan.norm == n &&
    r == ExecutedChallenge(plan.response.(topUp := t), n.transfers, run) &&
    TopUpDone(s.requests, plan, t) && RunAnswerOk(s, n.runId, Prepare(plan.runRequest).0, run) &&
    Settles(|n.transfers|, run)
  }

  ghost predicate Explained(cfg: Config, s: Store, n: NormChallenge, r: ChallengeResponse) {
    exists plan, t, run :: ConfirmedBy(cfg, s, n, r, plan, t, run)
  }

  /** A response that says how its challenge ended. */
  predicate Ended(r: ChallengeResponse) {
    r.status != Validated && (r.ok <==> r.status == Confirmed || r.status == Accepted)
  }

  ghost predicate ChallengeRecordOk(cfg: Config, s: Store, id: string, rec: ChallengeRecord) {
    rec.fingerprint == rec.request && rec.request.runId == id && HashesOk(s.requests, rec.response) &&
    Ended(rec.response) &&
    (rec.response.status == Confirmed ==> Explained(cfg, s, rec.request, rec.response))
  }

  predicate OpenChallenge(challenges: map<string, ChallengeRecord>, n: NormChallenge) {
    n.runId in challenges ==> challenges[n.runId].fingerprint == n && !FinalChallenge(challenges[n.runId].response)
  }

  predicate ChallengeHolding(pc: ChallengePc) {
    pc.ChallengeReading? || pc.ToppingUp? || pc.Paying? || pc.ChallengeWriting? || pc.ChallengeUnlocking?
  }

  /** A plan reports no hash, and a refused one is failed. */
  predicate Quiet(r: ChallengeResponse) {
    (forall i :: 0 <= i < |r.moves| ==> r.moves[i].line.txHash == "") &&
    (r.run.Some? ==> forall i :: 0 <= i < |r.run.value.lines| ==> r.run.value.lines[i].txHash == "") &&
    (r.topUp.Some? ==> r.topUp.value.response.None?) && (!r.ok ==> r.status == Failed)
  }

  ghost predicate ChallengeInv(cfg: Config, s: Store, l: LockTable, pid: nat, f: ChallengeFrame) {
    Quiet(f.plan.response) && (f.plan.response.ok ==> PlanSound(cfg, s.chain, f.plan)) &&
    (ChallengeHolding(f.pc) ==> f.plan.norm.runId in l && l[f.plan.norm.runId] == pid) &&
    (f.pc.ToppingUp? || f.pc.Paying? || f.pc.ChallengeWriting? ==> OpenChallenge(s.challenges, f.plan.norm)) &&
    (f.pc.ToppingUp? || f.pc.Paying? ==> f.plan.response.ok) &&
    (f.pc.ChallengeLocking? || f.pc.ChallengeReading? || f.pc.ToppingUp? ==> f.topUp == f.plan.response.topUp) &&
    (f.pc.ToppingUp? ==> TopUpDue(f)) && (f.pc.Paying? ==> TopUpDone(s.requests, f.plan, f.topUp)) &&
    (f.pc.ChallengeWriting? ==>
       ChallengeRecordOk(cfg, s, f.plan.norm.runId, ChallengeRecord(f.plan.norm, f.plan.norm, f.pc.written)))
  }

  // ---------------------------------------------------------------- processes

  /** How the frames of a process belong together. */
  ghost predicate Stacked(p: Process) {
    (p.run.Some? && p.call.Some? ==>
       var f := p.run.value;
       f.pc.RunLines? && |f.lines| < |f.norm.payouts| &&
       Normalize(Submitted(f), f.norm.role) == Some(p.call.value.req)) &&
    (p.challenge.Some? && p.run.None? && p.call.Some? ==>
       var f := p.challenge.value;
       f.pc.ToppingUp? && f.plan.response.topUp.Some? && TopUpRequest(f.plan) == Some(p.call.value.req)) &&
    (p.challenge.Some? && p.run.Some? ==>
       var f := p.challenge.value;
       f.pc.Paying? && p.run.value.norm == Prepare(f.plan.runRequest).0 &&
       p.run.value.plan.runId == f.plan.norm.runId &&
       p.run.value.plan.requested == |f.plan.norm.transfers|)
  }

  ghost predicate ProcessInv(cfg: Config, s: Store, l: Locks, pid: nat, p: Process) {
    (p.call.Some? ==> CallInv(cfg, s, l.requests, pid, p.call.value)) &&
    (p.run.Some? ==> RunInv(s, l.runs, pid, p.run.value)) &&
    (p.challenge.Some? ==> ChallengeInv(cfg, s, l.challenges, pid, p.challenge.value)) && Stacked(p)
  }

  // ---------------------------------------------------------------- the store

  ghost predicate ChainOk(s: Store) {
    HonestChain(s.chain) &&
    forall h ::
      h in s.sends && h in s.chain && s.chain[h].success ==> Carries(s.chain[h], s.sends[h].request, s.sends[h].signer)
  }

  ghost predicate RequestsOk(cfg: Config, s: Store) {
    forall id :: id in s.requests ==> RecordOk(cfg, s, id, s.requests[id])
  }

  ghost predicate RunsOk(s: Store) {
    forall id :: id in s.runs ==> RunRecordOk(s.requests, id, s.runs[id])
  }

  ghost predicate ChallengesOk(cfg: Config, s: Store) {
    forall id :: id in s.challenges ==> ChallengeRecordOk(cfg, s, id, s.challenges[id])
  }

  ghost predicate StoreOk(cfg: Config, s: Store) {
    ChainOk(s) && RequestsOk(cfg, s) && RunsOk(s) && ChallengesOk(cfg, s)
  }

  // ---------------------------------------------------------------- how the store may change

  /** Payloads never change, and final records do not change at all. */
  ghost predicate RequestsKept(a: Requests, b: Requests) {
    forall id ::
      id in a ==> id in b && SameRequest(a[id].request, b[id].request) && (Final(a[id].response) ==> b[id] == a[id])
  }

  ghost predicate RunsKept(a: RunStore, b: RunStore) {
    forall id ::
      id in a ==> id in b && a[id].fingerprint == b[id].fingerprint && (FinalRun(a[id].response) ==> b[id] == a[id])
  }

  ghost predicate ChallengesKept(a: map<string, ChallengeRecord>, b: map<string, ChallengeRecord>) {
    forall id ::
      id in a ==>
        id in b && a[id].fingerprint == b[id].fingerprint && (FinalChallenge(a[id].response) ==> b[id] == a[id])
  }

  ghost predicate SendsKept(a: map<string, Send>, b: map<string, Send>) {
    forall h :: h in a ==> h in b && b[h] == a[h]
  }

  ghost predicate Preserved(s: Store, s': Store) {
    RequestsKept(s.requests, s'.requests) && RunsKept(s.runs, s'.runs) && ChallengesKept(s.challenges, s'.challenges) &&
    Grows(s.chain, s'.chain) && SendsKept(s.sends, s'.sends)
  }
}

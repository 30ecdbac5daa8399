/**
 * The rail as a state machine: any number of concurrent single, escrow, run and challenge executions over one store,
 * one set of locks and one chain. A process is a stack of at most three frames. Locks are never taken over, and nothing
 * is lost between a broadcast and the write that records it.
 */
module Machine {
  import opened Text
  import opened Amounts
  import opened Ids
  import opened Records
  import opened Signers
  import opened Chain
  import opened Transfers
  import opened Runs
  import opened Challenges
  import opened Audit

  // ---------------------------------------------------------------- state

  /** What the network knows a submitted hash to be. */
  datatype Send = Send(request: Request, signer: string)

  datatype Store = Store(
    requests: Requests, runs: RunStore, challenges: map<string, ChallengeRecord>,
    chain: Ledger, sends: map<string, Send>)

  /** A lock file exists for each key and belongs to a process. */
  type LockTable = map<string, nat>

  datatype Locks = Locks(requests: LockTable, runs: LockTable, challenges: LockTable)

  datatype CallPc =
    | Locking
    | Reading
    | Preflighting
    | Broadcasting(signer: string)
    | Writing(signer: string, written: Response)
    | Unlocking(answer: Response)
    | Returned(answer: Response)

  /** Where a call holds the lock of its request. */
  predicate Holding(pc: CallPc) {
    pc.Reading? || pc.Preflighting? || pc.Broadcasting? || pc.Writing? || pc.Unlocking?
  }

  /** Where a call has decided to go on, and has not yet written what came of it. */
  predicate Deciding(pc: CallPc) {
    pc.Preflighting? || pc.Broadcasting? || pc.Writing?
  }

  /** One single transfer under way. */
  datatype Call = Call(req: Request, pc: CallPc)

  datatype RunPc =
    | RunLocking
    | RunReading
    | RunLines
    | RunWriting(written: RunResponse)
    | RunUnlocking(answer: RunResponse)
    | RunReturned(answer: RunResponse)

  datatype RunFrame = RunFrame(norm: NormRun, plan: RunResponse, lines: seq<Line>, pc: RunPc)

  datatype ChallengePc =
    | ChallengeLocking
    | ChallengeReading
    | ToppingUp
    | Paying
    | ChallengeWriting(written: ChallengeResponse)
    | ChallengeUnlocking(answer: ChallengeResponse)
    | ChallengeReturned(answer: ChallengeResponse)

  /** A challenge under way; its response so far differs from the plan's only in the top-up. */
  datatype ChallengeFrame = ChallengeFrame(plan: ChallengePlan, topUp: Option<TopUp>, pc: ChallengePc)

  datatype Process = Process(challenge: Option<ChallengeFrame>, run: Option<RunFrame>, call: Option<Call>)

  /** A broadcast as it happened: what was sent, by whom, for which run and challenge. */
  datatype Entry = Entry(req: Request, signer: string, verdict: Verdict, run: Option<NormRun>,
                         challenge: Option<NormChallenge>)

  datatype World = World(store: Store, locks: Locks, procs: map<nat, Process>, log: seq<Entry>)

  // ---------------------------------------------------------------- the network

  /** resolvePayoutAddress and resolveEscrowAddress only ever report a trimmed address of the configured account. */
  predicate GoodKey(k: KeyAnswer, configured: string) {
    k.Resolved? ==>
      Trim(k.address) == k.address && IsWoloAddress(k.address) && (configured == "" || EqualFold(k.address, configured))
  }

  predicate GoodView(cfg: Config, v: View) {
    GoodKey(v.payoutKey, cfg.payoutAddress) && GoodKey(v.escrowKey, cfg.escrowAddress)
  }

  predicate HonestTransfer(t: Transfer) {
    Canonical(t.amount) && IsWoloAddress(t.sender) && Trim(t.sender) == t.sender
  }

  /** A transaction as an honest chain reports it. */
  predicate HonestTx(tx: Tx) {
    forall t :: t in tx.transfers ==> HonestTransfer(t)
  }

  /** A transaction that may appear under a hash: if the hash was handed out for a send, a success made that send. */
  predicate MayLand(sends: map<string, Send>, h: string, tx: Tx) {
    HonestTx(tx) && (h in sends && tx.success ==> Carries(tx, sends[h].request, sends[h].signer))
  }

  function HashOf(v: Verdict): string {
    if v.NoHash? then "" else v.hash
  }

  /** What one bank send may do: hand out a fresh hash, and land at once if it is reported confirmed. */
  ghost predicate SendStep(s: Store, req: Request, signer: string, v: Verdict, s': Store) {
    if v.NoHash? then s' == s
    else
      TxHash(v.hash) && v.hash !in s.chain && v.hash !in s.sends &&
      var sent := s.(sends := s.sends[v.hash := Send(req, signer)]);
      (s' == sent && !v.ConfirmedTx?) ||
      exists tx ::
        MayLand(sent.sends, v.hash, tx) && (v.ConfirmedTx? ==> tx.success) &&
        s' == sent.(chain := s.chain[v.hash := tx])
  }

  // ---------------------------------------------------------------- single transfers

  datatype CallAct = Acquire | Contended | Read | Preflight(view: View) | Broadcast(verdict: Verdict) | Write | Release

  /** executeSettlement and executeEscrowTransfer, one step at a time. Only Broadcast adds to the log. */
  ghost predicate CallStep(cfg: Config, pid: nat, act: CallAct, s: Store, l: LockTable, c: Call, s': Store,
                           l': LockTable, c': Call) {
    var id := c.req.id;
    c'.req == c.req &&
    match act
    case Acquire => c.pc.Locking? && id !in l && s' == s && l' == l[id := pid] && c'.pc == Reading
    case Contended => c.pc.Locking? && id in l && s' == s && l' == l && c'.pc == Returned(InProgress(c.req))
    case Read =>
      c.pc.Reading? && s' == s && l' == l &&
      var answer := Decide(if id in s.requests then Some(s.requests[id]) else None, c.req);
      c'.pc == (if answer.Some? then Unlocking(answer.value) else Preflighting)
    case Preflight(view) =>
      c.pc.Preflighting? && s' == s && l' == l && GoodView(cfg, view) &&
      var p := PreflightFor(cfg, c.req.role, view, c.req.amount);
      c'.pc == (if p.Stopped? then Writing(p.signer, Refusal(c.req, p)) else Broadcasting(p.signer))
    case Broadcast(verdict) =>
      c.pc.Broadcasting? && l' == l && SendStep(s, c.req, c.pc.signer, verdict, s') &&
      c'.pc == Writing(c.pc.signer, BroadcastResponse(c.req, c.pc.signer, verdict))
    case Write =>
      c.pc.Writing? && l' == l && s' == s.(requests := s.requests[id := NewRecord(c.req, c.pc.signer, c.pc.written)]) &&
      c'.pc == Unlocking(c.pc.written)
    case Release => c.pc.Unlocking? && s' == s && l' == l - {id} && c'.pc == Returned(c.pc.answer)
  }

  // ---------------------------------------------------------------- runs

  datatype RunAct = AcquireRun | ContendedRun | ReadRun | SubmitLine | CollectLine | FinishLines | WriteRun | ReleaseRun

  function Submitted(f: RunFrame): RawRequest
    requires |f.lines| < |f.norm.payouts|
  {
    ItemRequest(f.norm.payouts[|f.lines|])
  }

  function RunInProgress(f: RunFrame): RunResponse {
    FailedRun("RUN_IN_PROGRESS", true, f.plan.runId, f.plan.role)
  }

  /** executeSettlementRun, one step at a time, with the call of the line being executed. */
  ghost predicate RunStep(pid: nat, act: RunAct, s: Store, l: LockTable, f: RunFrame, call: Option<Call>,
                          s': Store, l': LockTable, f': RunFrame, call': Option<Call>) {
    var id := f.plan.runId;
    f'.norm == f.norm && f'.plan == f.plan &&
    match act
    case AcquireRun =>
      f.pc.RunLocking? && call == None && id !in l && s' == s && l' == l[id := pid] && f' == f.(pc := RunReading) &&
      call' == None
    case ContendedRun =>
      f.pc.RunLocking? && call == None && id in l && s' == s && l' == l &&
      f' == f.(pc := RunReturned(RunInProgress(f))) && call' == None
    case ReadRun =>
      f.pc.RunReading? && call == None && s' == s && l' == l && call' == None &&
      var answer := DecideRun(if id in s.runs then Some(s.runs[id]) else None, f.norm, f.plan);
      f' == f.(pc := if answer.Some? then RunUnlocking(answer.value) else if !f.plan.ok then RunWriting(f.plan)
                     else RunLines)
    case SubmitLine =>
      f.pc.RunLines? && call == None && |f.lines| < |f.norm.payouts| && s' == s && l' == l &&
      var raw := Submitted(f);
      var req := Normalize(raw, f.norm.role);
      if req.None? then f' == f.(lines := f.lines +
                                 [LineFrom(f.norm.payouts[|f.lines|], InvalidRequest(raw, f.norm.role))]) &&
                                 call' == None
      else f' == f && call' == Some(Call(req.value, Locking))
    case CollectLine =>
      f.pc.RunLines? && call.Some? && call.value.pc.Returned? && |f.lines| < |f.norm.payouts| && s' == s && l' == l &&
      call' == None &&
      f' == f.(lines := f.lines + [LineFrom(f.norm.payouts[|f.lines|], call.value.pc.answer)])
    case FinishLines =>
      f.pc.RunLines? && call == None && |f.lines| == |f.norm.payouts| && s' == s && l' == l && call' == None &&
      f' == f.(pc := RunWriting(ExecutedRun(f.plan, f.lines)))
    case WriteRun =>
      f.pc.RunWriting? && call == None && l' == l && call' == None &&
      s' == s.(runs := s.runs[id := RunRecord(f.norm, f.norm, f.pc.written)]) &&
      f' == f.(pc := RunUnlocking(f.pc.written))
    case ReleaseRun =>
      f.pc.RunUnlocking? && call == None && s' == s && l' == l - {id} && call' == None &&
      f' == f.(pc := RunReturned(f.pc.answer))
  }

  /** A run as it starts: planned from the request and one observation of the network. */
  ghost predicate NewRun(cfg: Config, request: RunRequest, v: View, f: RunFrame) {
    GoodView(cfg, v) && f == RunFrame(PlanRun(cfg, v, request).0, PlanRun(cfg, v, request).1, [], RunLocking) &&
    f.plan.runId != ""
  }

  // ---------------------------------------------------------------- challenges

  datatype ChallengeAct =
    | AcquireChallenge
    | ContendedChallenge
    | ReadChallenge
    | SubmitTopUp
    | CollectTopUp(balance: Option<U64>)
    | StartPaying(view: View)
    | CollectRun
    | WriteChallenge
    | ReleaseChallenge

  /** The plan's response with the top-up as executed so far. */
  function Current(f: ChallengeFrame): ChallengeResponse {
    f.plan.response.(topUp := f.topUp)
  }

  predicate TopUpDue(f: ChallengeFrame) {
    f.topUp.Some? && f.topUp.value.required
  }

  function AfterTopUp(f: ChallengeFrame, answer: Response, balance: Option<U64>): ChallengeFrame
    requires f.topUp.Some?
  {
    var t := SettleTopUp(f.topUp.value, answer, balance);
    if TopUpFailed(t) then f.(topUp := Some(t), pc := ChallengeWriting(FailedTopUp(Current(f), t)))
    else f.(topUp := Some(t), pc := Paying)
  }

  /** executeSettlementChallenge, one step at a time, with the top-up call or the run it is waiting for. */
  ghost predicate ChallengeStep(cfg: Config, pid: nat, act: ChallengeAct, s: Store, l: LockTable, f: ChallengeFrame,
                                run: Option<RunFrame>, call: Option<Call>,
                                s': Store, l': LockTable, f': ChallengeFrame, run': Option<RunFrame>,
                                call': Option<Call>) {
    var id := f.plan.norm.runId;
    f'.plan == f.plan &&
    match act
    case AcquireChallenge =>
      f.pc.ChallengeLocking? && run == None && call == None && id !in l && s' == s && l' == l[id := pid] &&
      f' == f.(pc := ChallengeReading) && run' == None && call' == None
    case ContendedChallenge =>
      f.pc.ChallengeLocking? && run == None && call == None && id in l && s' == s && l' == l &&
      f' == f.(pc := ChallengeReturned(FailedChallenge("CHALLENGE_IN_PROGRESS", true, f.plan.norm))) && run' == None &&
      call' == None
    case ReadChallenge =>
      f.pc.ChallengeReading? && run == None && call == None && s' == s && l' == l && run' == None && call' == None &&
      var answer := DecideChallenge(if id in s.challenges then Some(s.challenges[id]) else None, f.plan.norm);
      f' == f.(pc := if answer.Some? then ChallengeUnlocking(answer.value)
                     else if !f.plan.response.ok then ChallengeWriting(RefusedChallenge(f.plan.response))
                     else if TopUpDue(f) then ToppingUp else Paying)
    case SubmitTopUp =>
      f.pc.ToppingUp? && run == None && call == None && f.topUp.Some? && s' == s && l' == l && run' == None &&
      var raw := TopUpRaw(id, f.topUp.value);
      var req := Normalize(raw, ESCROW);
      if req.None? then f' == AfterTopUp(f, InvalidRequest(raw, ESCROW), None) && call' == None
      else f' == f && call' == Some(Call(req.value, Locking))
    case CollectTopUp(balance) =>
      f.pc.ToppingUp? && run == None && call.Some? && call.value.pc.Returned? && f.topUp.Some? && s' == s && l' == l &&
      run' == None && call' == None &&
      f' == AfterTopUp(f, call.value.pc.answer, balance)
    case StartPaying(view) =>
      f.pc.Paying? && run == None && call == None && s' == s && l' == l && f' == f && call' == None &&
      run'.Some? && NewRun(cfg, f.plan.runRequest, view, run'.value)
    case CollectRun =>
      f.pc.Paying? && run.Some? && run.value.pc.RunReturned? && call == None && s' == s && l' == l && run' == None &&
      call' == None &&
      f' == f.(pc := ChallengeWriting(ExecutedChallenge(Current(f), f.plan.norm.transfers, run.value.pc.answer)))
    case WriteChallenge =>
      f.pc.ChallengeWriting? && run == None && call == None && l' == l && run' == None && call' == None &&
      s' == s.(challenges := s.challenges[id := ChallengeRecord(f.plan.norm, f.plan.norm, f.pc.written)]) &&
      f' == f.(pc := ChallengeUnlocking(f.pc.written))
    case ReleaseChallenge =>
      f.pc.ChallengeUnlocking? && run == None && call == None && s' == s && l' == l - {id} && run' == None &&
      call' == None &&
      f' == f.(pc := ChallengeReturned(f.pc.answer))
  }

  /**
   * A challenge as it starts: planned from the request, one observation of the network and a past state of the chain.
   */
  ghost predicate NewChallenge(cfg: Config, s: Store, request: ChallengeRequest, chain: Ledger, v: View,
                               f: ChallengeFrame) {
    GoodView(cfg, v) && Grows(chain, s.chain) && HonestChain(chain) &&
    f == ChallengeFrame(PlanChallenge(cfg, chain, v, request), PlanChallenge(cfg, chain, v, request).response.topUp,
                        ChallengeLocking) &&
    f.plan.norm.runId != ""
  }

  ghost predicate HonestChain(chain: Ledger) {
    forall h :: h in chain ==> HonestTx(chain[h])
  }

  // ---------------------------------------------------------------- the whole system

  datatype Step =
    | StartCall(pid: nat, raw: RawRequest, role: string)
    | StartRun(pid: nat, runRequest: RunRequest, view: View)
    | StartChallenge(pid: nat, request: ChallengeRequest, past: Ledger, view: View)
    | InCall(pid: nat, callAct: CallAct)
    | InRun(pid: nat, runAct: RunAct)
    | InChallenge(pid: nat, challengeAct: ChallengeAct)
    | Land(hash: string, tx: Tx)

  function EntryOf(p: Process, c: Call, v: Verdict): Entry {
    Entry(c.req, if c.pc.Broadcasting? then c.pc.signer else "", v, if p.run.Some? then Some(p.run.value.norm)
                 else None,
          if p.challenge.Some? then Some(p.challenge.value.plan.norm) else None)
  }

  ghost predicate Spawns(w: World, pid: nat, p: Process, w': World) {
    pid !in w.procs && w' == w.(procs := w.procs[pid := p])
  }

  ghost predicate CallMoves(cfg: Config, w: World, pid: nat, act: CallAct, w': World) {
    pid in w.procs && w.procs[pid].call.Some? &&
    var p := w.procs[pid];
    exists s', l', c' ::
      CallStep(cfg, pid, act, w.store, w.locks.requests, p.call.value, s', l', c') &&
      w' == World(s', w.locks.(requests := l'), w.procs[pid := p.(call := Some(c'))],
                  if act.Broadcast? then w.log + [EntryOf(p, p.call.value, act.verdict)] else w.log)
  }

  ghost predicate RunMoves(w: World, pid: nat, act: RunAct, w': World) {
    pid in w.procs && w.procs[pid].run.Some? &&
    var p := w.procs[pid];
    exists s', l', f', c' ::
      RunStep(pid, act, w.store, w.locks.runs, p.run.value, p.call, s', l', f', c') &&
      w' == World(s', w.locks.(runs := l'), w.procs[pid := p.(run := Some(f'), call := c')], w.log)
  }

  ghost predicate ChallengeMoves(cfg: Config, w: World, pid: nat, act: ChallengeAct, w': World) {
    pid in w.procs && w.procs[pid].challenge.Some? &&
    var p := w.procs[pid];
    exists s', l', f', r', c' ::
      ChallengeStep(cfg, pid, act, w.store, w.locks.challenges, p.challenge.value, p.run, p.call, s', l', f', r', c') &&
      w' == World(s', w.locks.(challenges := l'), w.procs[pid := Process(Some(f'), r', c')], w.log)
  }

  ghost predicate Next(cfg: Config, w: World, step: Step, w': World) {
    match step
    case StartCall(pid, raw, role) =>
      (role == PAYOUT || role == ESCROW) && Normalize(raw, role).Some? &&
      Spawns(w, pid, Process(None, None, Some(Call(Normalize(raw, role).value, Locking))), w')
    case StartRun(pid, request, view) =>
      exists f :: NewRun(cfg, request, view, f) && Spawns(w, pid, Process(None, Some(f), None), w')
    case StartChallenge(pid, request, past, view) =>
      exists f :: NewChallenge(cfg, w.store, request, past, view, f) && Spawns(w, pid, Process(Some(f), None, None), w')
    case InCall(pid, act) => CallMoves(cfg, w, pid, act, w')
    case InRun(pid, act) => RunMoves(w, pid, act, w')
    case InChallenge(pid, act) => ChallengeMoves(cfg, w, pid, act, w')
    case Land(h, tx) =>
      TxHash(h) && h !in w.store.chain && MayLand(w.store.sends, h, tx) &&
      w' == w.(store := w.store.(chain := w.store.chain[h := tx]))
  }

  /** A run of the machine: worlds joined by steps. */
  ghost predicate Execution(cfg: Config, ws: seq<World>, steps: seq<Step>) {
    |ws| == |steps| + 1 && forall i :: 0 <= i < |steps| ==> Next(cfg, ws[i], steps[i], ws[i + 1])
  }
}

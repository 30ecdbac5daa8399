/** The safety properties of the rail, over every interleaving and every state it reaches. */
module Safety {
  import opened Text
  import opened Amounts
  import opened Ids
  import opened Records
  import opened Signers
  import opened Chain
  import opened Transfers
  import opened Runs
  import opened RunLaws
  import opened Challenges
  import opened ChallengeLaws
  import opened ChallengeRuns
  import opened ChallengeSound
  import opened Machine
  import opened Once
  import opened Invariants
  import opened Stability
  import opened CallLaws
  import opened RunSteps
  import opened ChallengeSteps

  // ---------------------------------------------------------------- the log of broadcasts

  predicate PayoutNamed(n: NormRun, req: Request) {
    exists j ::
      0 <= j < |n.payouts| && n.payouts[j].id == req.id && n.payouts[j].to == req.to &&
      n.payouts[j].amount == req.amount
  }

  /**
   * Who may have sent what: the role's own signer, a payout of an allowed run under its role, or the one top-up
   * of a challenge.
   */
  ghost predicate EntryOk(cfg: Config, e: Entry) {
    (e.req.role == PAYOUT || e.req.role == ESCROW) && SignedBy(cfg, e.req.role, e.signer) &&
    (e.run.Some? ==>
       e.req.role == e.run.value.role && (BetMarket(e.run.value) ==> e.req.role == ESCROW) &&
       PayoutNamed(e.run.value, e.req)) &&
    (e.challenge.Some? ==>
       if e.run.Some? then e.req.role == PAYOUT && e.run.value.payouts == RunPayouts(e.challenge.value.transfers)
       else
         e.req.role == ESCROW && e.req.id == TopUpId(e.challenge.value.runId) && e.req.to == Trim(cfg.payoutAddress))
  }

  /** A process that has read its challenge as open and has not yet written it. */
  predicate Settling(p: Process, n: NormChallenge) {
    p.challenge.Some? && p.challenge.value.plan.norm == n &&
    (p.challenge.value.pc.ToppingUp? || p.challenge.value.pc.Paying? || p.challenge.value.pc.ChallengeWriting?)
  }

  ghost predicate HoldsClaim(w: World, pid: nat, n: NormChallenge) {
    n.runId in w.locks.challenges && w.locks.challenges[n.runId] == pid && pid in w.procs && Settling(w.procs[pid], n)
  }

  /**
   * The id of a challenge that has broadcast belongs to its payload: it is stored under it, or about to be by
   * the lock's owner.
   */
  ghost predicate Claimed(w: World, n: NormChallenge) {
    (n.runId in w.store.challenges && w.store.challenges[n.runId].fingerprint == n) ||
    (n.runId in w.locks.challenges && HoldsClaim(w, w.locks.challenges[n.runId], n))
  }

  /** Some accepted plan of the challenge rests on deposits that stand on this chain. */
  ghost predicate Sponsored(cfg: Config, chain: Ledger, n: NormChallenge) {
    exists plan :: PlanSound(cfg, chain, plan) && plan.norm == n
  }

  ghost predicate EntryBacked(cfg: Config, w: World, e: Entry) {
    e.challenge.Some? ==> Claimed(w, e.challenge.value) && Sponsored(cfg, w.store.chain, e.challenge.value)
  }

  ghost predicate LogOk(cfg: Config, w: World) {
    forall i :: 0 <= i < |w.log| ==> EntryOk(cfg, w.log[i]) && EntryBacked(cfg, w, w.log[i])
  }

  ghost predicate ProcessesOk(cfg: Config, w: World) {
    forall pid :: pid in w.procs ==> ProcessInv(cfg, w.store, w.locks, pid, w.procs[pid])
  }

  ghost predicate RailOk(cfg: Config, w: World) {
    StoreOk(cfg, w.store) && ProcessesOk(cfg, w) && LogOk(cfg, w)
  }

  ghost predicate Inv(cfg: Config, w: World) {
    RailOk(cfg, w) && OnceInv(w)
  }

  /** A rail at rest. Request records may have been left by earlier versions of the service, without a role. */
  ghost predicate Init(cfg: Config, w: World) {
    w.procs == map[] && w.locks == Locks(map[], map[], map[]) && w.log == [] && w.store.runs == map[] &&
    w.store.challenges == map[] &&
    ChainOk(w.store) && RequestsOk(cfg, w.store)
  }

  lemma InitInv(cfg: Config, w: World)
    requires Init(cfg, w)
    ensures Inv(cfg, w)
  {
    hide ChainOk, RequestsOk;
  }

  // ---------------------------------------------------------------- the acting process

  /** One process moved, and only its own frames changed. */
  ghost predicate OneMoved(w: World, pid: nat, p': Process, w': World) {
    pid in w.procs && w'.procs == w.procs[pid := p'] && Preserved(w.store, w'.store) &&
    Local(w.locks.requests, w'.locks.requests, pid, w.store.requests, w'.store.requests) &&
    Local(w.locks.runs, w'.locks.runs, pid, w.store.runs, w'.store.runs) &&
    Local(w.locks.challenges, w'.locks.challenges, pid, w.store.challenges, w'.store.challenges)
  }

  lemma OthersKeep(cfg: Config, w: World, pid: nat, p': Process, w': World)
    requires ProcessesOk(cfg, w) && OneMoved(w, pid, p', w') && ProcessInv(cfg, w'.store, w'.locks, pid, p')
    ensures ProcessesOk(cfg, w')
  {
    hide ProcessInv, Preserved, Undisturbed;
    forall q | q in w'.procs ensures ProcessInv(cfg, w'.store, w'.locks, q, w'.procs[q]) {
      if q != pid {
        ProcessStable(cfg, w.store, w'.store, w.locks, w'.locks, q, w.procs[q]);
      }
    }
  }

  lemma LocalSame<R>(l: LockTable, pid: nat, a: map<string, R>)
    ensures Local(l, l, pid, a, a)
  {
  }

  lemma SponsoredGrows(cfg: Config, chain: Ledger, chain': Ledger, n: NormChallenge)
    requires Sponsored(cfg, chain, n) && Grows(chain, chain')
    ensures Sponsored(cfg, chain', n)
  {
    hide PlanSound, Grows;
    var plan :| PlanSound(cfg, chain, plan) && plan.norm == n;
    PlanSoundGrows(cfg, chain, chain', plan);
  }

  /** A claim stays: recorded, with its holder, or handed from the holder to the record. */
  lemma BackedStays(cfg: Config, w: World, pid: nat, p': Process, w': World, e: Entry)
    requires OneMoved(w, pid, p', w') && EntryBacked(cfg, w, e)
    requires forall n :: HoldsClaim(w, pid, n) ==> Claimed(w', n)
    ensures EntryBacked(cfg, w', e)
  {
    hide Sponsored, Settling, RequestsKept, RunsKept, FinalChallenge, Grows, SendsKept;
    if e.challenge.Some? {
      var n := e.challenge.value;
      SponsoredGrows(cfg, w.store.chain, w'.store.chain, n);
      if !(n.runId in w.store.challenges && w.store.challenges[n.runId].fingerprint == n) &&
         w.locks.challenges[n.runId] != pid {
        assert Undisturbed(w.locks.challenges, w'.locks.challenges, w.locks.challenges[n.runId], w.store.challenges,
                           w'.store.challenges);
      }
    }
  }

  /** A step that broadcasts nothing keeps the log in order. */
  lemma SameLogKeeps(cfg: Config, w: World, pid: nat, p': Process, w': World)
    requires LogOk(cfg, w) && OneMoved(w, pid, p', w') && w'.log == w.log
    requires forall n :: HoldsClaim(w, pid, n) ==> Claimed(w', n)
    ensures LogOk(cfg, w')
  {
    hide OneMoved, EntryOk, EntryBacked, HoldsClaim, Claimed;
    forall i | 0 <= i < |w.log| ensures EntryBacked(cfg, w', w.log[i]) {
      BackedStays(cfg, w, pid, p', w', w.log[i]);
    }
  }

  /** A process that stays in its challenge frame keeps its claim. */
  lemma FrameKeepsClaim(w: World, pid: nat, p': Process, w': World)
    requires OneMoved(w, pid, p', w') && p'.challenge == w.procs[pid].challenge &&
             w'.locks.challenges == w.locks.challenges
    ensures forall n :: HoldsClaim(w, pid, n) ==> Claimed(w', n)
  {
    hide Preserved, Local;
    forall n | HoldsClaim(w, pid, n) ensures Claimed(w', n) {
      assert HoldsClaim(w', pid, n);
    }
  }

  // ---------------------------------------------------------------- broadcasting

  lemma BroadcastEntryOk(cfg: Config, s: Store, l: Locks, pid: nat, p: Process, v: Verdict)
    requires ProcessInv(cfg, s, l, pid, p) && p.call.Some? && p.call.value.pc.Broadcasting?
    ensures EntryOk(cfg, EntryOf(p, p.call.value, v))
  {
    hide GoodRequest, SignedBy, Normalize, Prepare, PlanSound, Open, BetMarket, RunRecordOk, RunAnswerOk,
         ChallengeRecordOk, Quiet, LinesGood, AllPlanned, OpenRun, OpenChallenge, TopUpRequest, TopUpId;
    var c := p.call.value;
    if p.run.Some? {
      var f := p.run.value;
      SubmittedNamed(f, c.req);
      if p.challenge.Some? {
        RunOfSoundPlan(cfg, s, p.challenge.value.plan);
      }
    } else if p.challenge.Some? {
      TopUpNamed(cfg, s, p.challenge.value.plan, c.req);
    }
  }

  lemma SubmittedNamed(f: RunFrame, req: Request)
    requires |f.lines| < |f.norm.payouts| && GoodPayouts(f.norm) && Normalize(Submitted(f), f.norm.role) == Some(req)
    ensures PayoutNamed(f.norm, req) && req.role == f.norm.role
  {
    hide NormalPayout, Normalize, Trim, OptionalAmount;
    SubmittedRequest(f.norm.payouts[|f.lines|], f.norm.role);
  }

  lemma RunOfSoundPlan(cfg: Config, s: Store, plan: ChallengePlan)
    requires PlanSound(cfg, s.chain, plan)
    ensures Prepare(plan.runRequest).0.role == PAYOUT &&
            Prepare(plan.runRequest).0.payouts == RunPayouts(plan.norm.transfers)
  {
    hide ReadyPlan, FundingStands, AllocationStands, TopUpPlanned, GoodNames, SameNames, Prepare, RunPayouts,
         IdsDistinct, PayoutIdsDistinct, Trim;
    ReadyPayouts(plan);
  }

  lemma TopUpNamed(cfg: Config, s: Store, plan: ChallengePlan, req: Request)
    requires PlanSound(cfg, s.chain, plan) && plan.response.topUp.Some? && TopUpRequest(plan) == Some(req)
    ensures req.id == TopUpId(plan.norm.runId) && req.role == ESCROW && req.to == Trim(cfg.payoutAddress)
  {
    hide ReadyPlan, FundingStands, AllocationStands, SameNames, Trim, ValidRunId, ValidSourceApp, ValidEventId, TopUpId,
         RequestIdPattern, IsWoloAddress, NormalizeAmount;
    DerivedIdsValid(plan.norm.runId, 0);
    PatternTrimmed(TopUpId(plan.norm.runId));
    TrimShape(cfg.payoutAddress);
  }

  /** Whoever broadcasts for a challenge holds its claim, on a plan that stands. */
  lemma BroadcastBacked(cfg: Config, w: World, pid: nat, v: Verdict)
    requires pid in w.procs && ProcessInv(cfg, w.store, w.locks, pid, w.procs[pid]) && w.procs[pid].call.Some?
    requires w.procs[pid].call.value.pc.Broadcasting?
    ensures EntryBacked(cfg, w, EntryOf(w.procs[pid], w.procs[pid].call.value, v))
  {
    hide CallInv, RunInv, Quiet, PlanSound, OpenChallenge, TopUpDone, ChallengeRecordOk, Normalize, Prepare,
         TopUpRequest;
    var p := w.procs[pid];
    if p.challenge.Some? {
      var n := p.challenge.value.plan.norm;
      assert HoldsClaim(w, pid, n);
      assert PlanSound(cfg, w.store.chain, p.challenge.value.plan);
    }
  }

  lemma BroadcastLogKeeps(cfg: Config, w: World, pid: nat, p': Process, v: Verdict, w': World)
    requires LogOk(cfg, w) && OneMoved(w, pid, p', w') && ProcessInv(cfg, w.store, w.locks, pid, w.procs[pid])
    requires w.procs[pid].call.Some? && w.procs[pid].call.value.pc.Broadcasting?
    requires w'.log == w.log + [EntryOf(w.procs[pid], w.procs[pid].call.value, v)]
    requires forall n :: HoldsClaim(w, pid, n) ==> Claimed(w', n)
    ensures LogOk(cfg, w')
  {
    hide EntryOk, EntryBacked, ProcessInv, HoldsClaim, Claimed;
    var e := EntryOf(w.procs[pid], w.procs[pid].call.value, v);
    BroadcastEntryOk(cfg, w.store, w.locks, pid, w.procs[pid], v);
    BroadcastBacked(cfg, w, pid, v);
    BackedStays(cfg, w, pid, p', w', e);
    hide OneMoved;
    forall i | 0 <= i < |w.log| ensures EntryBacked(cfg, w', w.log[i]) {
      BackedStays(cfg, w, pid, p', w', w.log[i]);
    }
  }

  // ---------------------------------------------------------------- every step keeps the invariant

  lemma CallMovesKeep(cfg: Config, w: World, pid: nat, act: CallAct, w': World)
    requires RailOk(cfg, w) && CallMoves(cfg, w, pid, act, w')
    ensures RailOk(cfg, w') && Preserved(w.store, w'.store)
  {
    hide StoreOk, LogOk, ProcessInv, CallStep, Preserved, Local;
    var p := w.procs[pid];
    var s', l', c' :|
      CallStep(cfg, pid, act, w.store, w.locks.requests, p.call.value, s', l', c') &&
      w' == World(s', w.locks.(requests := l'), w.procs[pid := p.(call := Some(c'))],
                  if act.Broadcast? then w.log + [EntryOf(p, p.call.value, act.verdict)] else w.log);
    CallFrames(cfg, w.store, w.locks, pid, p);
    CallStepKeeps(cfg, pid, act, w.store, w.locks.requests, p.call.value, s', l', c');
    LocalSame(w.locks.runs, pid, w.store.runs);
    LocalSame(w.locks.challenges, pid, w.store.challenges);
    var p' := p.(call := Some(c'));
    OwnFramesKeep(cfg, w.store, s', w.locks, l', pid, p, c', act);
    OthersKeep(cfg, w, pid, p', w');
    CallLogKeeps(cfg, w, pid, act, s', l', c', w');
  }

  lemma CallFrames(cfg: Config, s: Store, l: Locks, pid: nat, p: Process)
    requires ProcessInv(cfg, s, l, pid, p) && p.call.Some?
    ensures CallInv(cfg, s, l.requests, pid, p.call.value)
  {
    hide CallInv, RunInv, ChallengeInv, Stacked;
  }

  lemma OwnFramesKeep(cfg: Config, s: Store, s': Store, l: Locks, l': LockTable, pid: nat, p: Process, c': Call,
                      act: CallAct)
    requires ProcessInv(cfg, s, l, pid, p) && p.call.Some? && c'.req == p.call.value.req && Preserved(s, s')
    requires CallInv(cfg, s', l', pid, c') && s'.runs == s.runs && s'.challenges == s.challenges
    ensures ProcessInv(cfg, s', l.(requests := l'), pid, p.(call := Some(c')))
  {
    hide CallInv, RunInv, ChallengeInv, Preserved, Prepare, Normalize, TopUpRequest;
    if p.run.Some? {
      RunStable(s, s', l.runs, l.runs, pid, p.run.value);
    }
    if p.challenge.Some? {
      ChallengeStable(cfg, s, s', l.challenges, l.challenges, pid, p.challenge.value);
    }
  }

  lemma CallLogKeeps(cfg: Config, w: World, pid: nat, act: CallAct, s': Store, l': LockTable, c': Call, w': World)
    requires RailOk(cfg, w) && pid in w.procs && w.procs[pid].call.Some?
    requires CallStep(cfg, pid, act, w.store, w.locks.requests, w.procs[pid].call.value, s', l', c')
    requires var p := w.procs[pid];
             OneMoved(w, pid, p.(call := Some(c')), w') &&
             w' == World(s', w.locks.(requests := l'), w.procs[pid := p.(call := Some(c'))],
                         if act.Broadcast? then w.log + [EntryOf(p, p.call.value, act.verdict)] else w.log)
    ensures LogOk(cfg, w')
  {
    hide StoreOk, LogOk, ProcessInv, OneMoved, Decide, PreflightFor, BroadcastResponse, Refusal, GoodView, HoldsClaim,
         Claimed;
    var p := w.procs[pid];
    FrameKeepsClaim(w, pid, p.(call := Some(c')), w');
    if act.Broadcast? {
      BroadcastLogKeeps(cfg, w, pid, p.(call := Some(c')), act.verdict, w');
    } else {
      SameLogKeeps(cfg, w, pid, p.(call := Some(c')), w');
    }
  }

  lemma RunMovesKeep(cfg: Config, w: World, pid: nat, act: RunAct, w': World)
    requires RailOk(cfg, w) && RunMoves(w, pid, act, w')
    ensures RailOk(cfg, w') && Preserved(w.store, w'.store)
  {
    hide StoreOk, LogOk, ProcessInv, RunStep, Preserved, Local, HoldsClaim, Claimed;
    var p := w.procs[pid];
    var s', l', f', c' :|
      RunStep(pid, act, w.store, w.locks.runs, p.run.value, p.call, s', l', f', c') &&
      w' == World(s', w.locks.(runs := l'), w.procs[pid := p.(run := Some(f'), call := c')], w.log);
    RunFrames(cfg, w.store, w.locks, pid, p);
    RunStepKeeps(cfg, pid, act, w.store, w.locks.requests, w.locks.runs, p.run.value, p.call, s', l', f', c');
    LocalSame(w.locks.requests, pid, w.store.requests);
    LocalSame(w.locks.challenges, pid, w.store.challenges);
    var p' := p.(run := Some(f'), call := c');
    SameRun(pid, act, w.store, w.locks.runs, p.run.value, p.call, s', l', f', c');
    RunOwnFrames(cfg, w.store, s', w.locks, l', pid, p, f', c');
    OthersKeep(cfg, w, pid, p', w');
    FrameKeepsClaim(w, pid, p', w');
    SameLogKeeps(cfg, w, pid, p', w');
  }

  lemma SameRun(pid: nat, act: RunAct, s: Store, l: LockTable, f: RunFrame, call: Option<Call>, s': Store,
                l': LockTable, f': RunFrame, call': Option<Call>)
    requires RunStep(pid, act, s, l, f, call, s', l', f', call')
    ensures f'.norm == f.norm && f'.plan == f.plan
  {
    hide DecideRun, ExecutedRun, Normalize;
  }

  lemma RunFrames(cfg: Config, s: Store, l: Locks, pid: nat, p: Process)
    requires ProcessInv(cfg, s, l, pid, p) && p.run.Some?
    ensures RunInv(s, l.runs, pid, p.run.value) && LineCall(p.run.value, p.call) &&
            CallsOk(cfg, s, l.requests, pid, p.call)
  {
    hide CallInv, RunInv, ChallengeInv, Normalize, Prepare, TopUpRequest;
  }

  lemma RunOwnFrames(cfg: Config, s: Store, s': Store, l: Locks, l': LockTable, pid: nat, p: Process, f': RunFrame,
                     c': Option<Call>)
    requires ProcessInv(cfg, s, l, pid, p) && p.run.Some? && f'.norm == p.run.value.norm &&
             f'.plan == p.run.value.plan && Preserved(s, s')
    requires RunInv(s', l', pid, f') && LineCall(f', c') && CallsOk(cfg, s', l.requests, pid, c') &&
             s'.challenges == s.challenges
    ensures ProcessInv(cfg, s', l.(runs := l'), pid, p.(run := Some(f'), call := c'))
  {
    hide CallInv, RunInv, ChallengeInv, Preserved, Prepare, Normalize, TopUpRequest;
    if p.challenge.Some? {
      ChallengeStable(cfg, s, s', l.challenges, l.challenges, pid, p.challenge.value);
    }
  }

  lemma ChallengeMovesKeep(cfg: Config, w: World, pid: nat, act: ChallengeAct, w': World)
    requires RailOk(cfg, w) && ChallengeMoves(cfg, w, pid, act, w')
    ensures RailOk(cfg, w') && Preserved(w.store, w'.store)
  {
    hide StoreOk, LogOk, ProcessInv, ChallengeStep, Preserved, Local, HoldsClaim, Claimed;
    var p := w.procs[pid];
    var s', l', f', r', c' :|
      ChallengeStep(cfg, pid, act, w.store, w.locks.challenges, p.challenge.value, p.run, p.call, s', l', f', r', c') &&
      w' == World(s', w.locks.(challenges := l'), w.procs[pid := Process(Some(f'), r', c')], w.log);
    ChallengeFrames(cfg, w.store, w.locks, pid, p);
    ChallengeStepKeeps(cfg, pid, act, w.store, w.locks.requests, w.locks.runs, w.locks.challenges, p.challenge.value,
                       p.run, p.call, s', l', f', r', c');
    LocalSame(w.locks.requests, pid, w.store.requests);
    LocalSame(w.locks.runs, pid, w.store.runs);
    ChallengeOwnFrames(cfg, s', w.locks, l', pid, f', r', c');
    OthersKeep(cfg, w, pid, Process(Some(f'), r', c'), w');
    ChallengeKeepsClaim(cfg, w, pid, act, f', r', c', w');
    SameLogKeeps(cfg, w, pid, Process(Some(f'), r', c'), w');
  }

  /** A challenge that has read its record as open keeps the claim until it has written it. */
  lemma ChallengeKeepsClaim(cfg: Config, w: World, pid: nat, act: ChallengeAct, f': ChallengeFrame,
                            r': Option<RunFrame>, c': Option<Call>, w': World)
    requires pid in w.procs && w.procs[pid].challenge.Some? && w'.procs == w.procs[pid := Process(Some(f'), r', c')]
    requires var p := w.procs[pid];
             ChallengeStep(cfg, pid, act, w.store, w.locks.challenges, p.challenge.value, p.run, p.call, w'.store,
                           w'.locks.challenges, f', r', c')
    ensures forall n :: HoldsClaim(w, pid, n) ==> Claimed(w', n)
  {
    hide DecideChallenge, ExecutedChallenge, Normalize, NewRun, RefusedChallenge, TopUpRaw, InvalidRequest, FailedTopUp,
         SettleTopUp, TopUpFailed, Current;
    forall n | HoldsClaim(w, pid, n) ensures Claimed(w', n) {
      if act != WriteChallenge {
        assert HoldsClaim(w', pid, n);
      }
    }
  }

  lemma ChallengeFrames(cfg: Config, s: Store, l: Locks, pid: nat, p: Process)
    requires ProcessInv(cfg, s, l, pid, p) && p.challenge.Some?
    ensures ChallengeInv(cfg, s, l.challenges, pid, p.challenge.value) &&
            StackOk(cfg, s, l.requests, l.runs, pid, p.challenge.value, p.run, p.call)
  {
    hide CallInv, RunInv, ChallengeInv, Stacked;
    assert p == Process(Some(p.challenge.value), p.run, p.call);
  }

  lemma ChallengeOwnFrames(cfg: Config, s: Store, l: Locks, l': LockTable, pid: nat, f: ChallengeFrame,
                           r: Option<RunFrame>, c: Option<Call>)
    requires ChallengeInv(cfg, s, l', pid, f) && StackOk(cfg, s, l.requests, l.runs, pid, f, r, c)
    ensures ProcessInv(cfg, s, l.(challenges := l'), pid, Process(Some(f), r, c))
  {
    hide CallInv, RunInv, ChallengeInv, Stacked;
  }

  // ---------------------------------------------------------------- starting, landing

  lemma SpawnKeeps(cfg: Config, w: World, pid: nat, p: Process, w': World)
    requires RailOk(cfg, w) && Spawns(w, pid, p, w') && ProcessInv(cfg, w.store, w.locks, pid, p)
    ensures RailOk(cfg, w') && Preserved(w.store, w'.store)
  {
    hide StoreOk, ProcessInv, EntryOk, Settling, Preserved, Sponsored;
    PreservedSame(w.store);
    forall i | 0 <= i < |w.log| ensures EntryBacked(cfg, w', w.log[i]) {
      assert EntryBacked(cfg, w, w.log[i]);
    }
  }

  lemma StartChallengeInv(cfg: Config, s: Store, l: LockTable, pid: nat, request: ChallengeRequest, past: Ledger,
                          view: View, f: ChallengeFrame)
    requires NewChallenge(cfg, s, request, past, view, f)
    ensures ChallengeInv(cfg, s, l, pid, f)
  {
    hide PlanChallenge, Quiet, PlanSound, Grows, HonestChain, OpenChallenge, TopUpDone, ChallengeRecordOk, GoodView;
    PlanQuiet(cfg, past, view, request);
    if f.plan.response.ok {
      AcceptedIsSound(cfg, past, view, request);
      PlanSoundGrows(cfg, past, s.chain, f.plan);
    }
  }

  lemma LandingKeeps(cfg: Config, w: World, h: string, tx: Tx, w': World)
    requires RailOk(cfg, w) && Next(cfg, w, Land(h, tx), w')
    ensures RailOk(cfg, w') && Preserved(w.store, w'.store)
  {
    hide ChainOk, RequestsOk, RunsOk, ChallengesOk, ProcessInv, EntryOk, Settling, Preserved, MayLand, Sponsored, Grows;
    CallLaws.LandKeeps(w.store, h, tx);
    NetworkKeeps(cfg, w.store, w'.store);
    forall q | q in w'.procs ensures ProcessInv(cfg, w'.store, w'.locks, q, w'.procs[q]) {
      ProcessStable(cfg, w.store, w'.store, w.locks, w'.locks, q, w.procs[q]);
    }
    forall i | 0 <= i < |w.log| ensures EntryBacked(cfg, w', w.log[i]) {
      assert EntryBacked(cfg, w, w.log[i]);
      if w.log[i].challenge.Some? {
        SponsoredGrows(cfg, w.store.chain, w'.store.chain, w.log[i].challenge.value);
      }
    }
  }

  /** The invariant survives every step, and no step changes a final record or a stored payload. */
  lemma StepKeeps(cfg: Config, w: World, step: Step, w': World)
    requires Inv(cfg, w) && Next(cfg, w, step, w')
    ensures Inv(cfg, w') && Preserved(w.store, w'.store)
  {
    hide RailOk, OnceInv, Next, LooseNext, Preserved;
    NextIsLoose(cfg, w, step, w');
    LooseStepKeeps(cfg, w, step, w');
    RailStepKeeps(cfg, w, step, w');
  }

  lemma RailStepKeeps(cfg: Config, w: World, step: Step, w': World)
    requires RailOk(cfg, w) && Next(cfg, w, step, w')
    ensures RailOk(cfg, w') && Preserved(w.store, w'.store)
  {
    hide RailOk, Preserved, Spawns, NewRun, NewChallenge, CallMoves, RunMoves, ChallengeMoves, MayLand, Normalize,
         CallInv, RunInv, ChallengeInv;
    match step
    case StartCall(pid, raw, role) =>
      NewCall(cfg, w.store, w.locks.requests, pid, raw, role);
      SpawnKeeps(cfg, w, pid, Process(None, None, Some(Call(Normalize(raw, role).value, Locking))), w');
    case StartRun(pid, request, view) =>
      var f :| NewRun(cfg, request, view, f) && Spawns(w, pid, Process(None, Some(f), None), w');
      NewRunInv(cfg, w.store, w.locks.runs, pid, request, view, f);
      SpawnKeeps(cfg, w, pid, Process(None, Some(f), None), w');
    case StartChallenge(pid, request, past, view) =>
      var f :| NewChallenge(cfg, w.store, request, past, view, f) && Spawns(w, pid, Process(Some(f), None, None), w');
      StartChallengeInv(cfg, w.store, w.locks.challenges, pid, request, past, view, f);
      SpawnKeeps(cfg, w, pid, Process(Some(f), None, None), w');
    case InCall(pid, act) => CallMovesKeep(cfg, w, pid, act, w');
    case InRun(pid, act) => RunMovesKeep(cfg, w, pid, act, w');
    case InChallenge(pid, act) => ChallengeMovesKeep(cfg, w, pid, act, w');
    case Land(h, tx) => LandingKeeps(cfg, w, h, tx, w');
  }
}

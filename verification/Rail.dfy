/** The service itself: stored records and lock files changed in place, every change a step of the machine. */
module Rail {
  import opened Text
  import opened Amounts
  import opened Records
  import opened Signers
  import opened Chain
  import opened Transfers
  import opened Runs
  import RunLaws
  import Funding
  import opened Challenges
  import opened Audit
  import opened Machine
  import opened Once
  import opened Planner
  import opened Invariants
  import opened CallLaws
  import opened Safety
  import opened Theorems

  // ---------------------------------------------------------------- paths

  /** Some steps of the machine lead from one world to another. */
  ghost predicate Path(cfg: Config, w: World, w': World) {
    exists ws, steps :: Execution(cfg, ws, steps) && ws[0] == w && ws[|steps|] == w'
  }

  lemma PathSame(cfg: Config, w: World)
    ensures Path(cfg, w, w)
  {
    assert Execution(cfg, [w], []);
  }

  lemma PathStep(cfg: Config, w: World, step: Step, w': World)
    requires Next(cfg, w, step, w')
    ensures Path(cfg, w, w')
  {
    hide Next;
    assert Execution(cfg, [w, w'], [step]);
  }

  lemma PathJoin(cfg: Config, a: World, b: World, c: World)
    requires Path(cfg, a, b) && Path(cfg, b, c)
    ensures Path(cfg, a, c)
  {
    hide Next;
    var ws, ss :| Execution(cfg, ws, ss) && ws[0] == a && ws[|ss|] == b;
    var vs, ts :| Execution(cfg, vs, ts) && vs[0] == b && vs[|ts|] == c;
    var all, steps := ws + vs[1..], ss + ts;
    forall i | 0 <= i < |steps| ensures Next(cfg, all[i], steps[i], all[i + 1]) {
      if i < |ss| {
        assert Next(cfg, ws[i], ss[i], ws[i + 1]);
      } else {
        assert Next(cfg, vs[i - |ss|], ts[i - |ss|], vs[i - |ss| + 1]);
        assert all[i + 1] == vs[i - |ss| + 1];
        assert all[i] == vs[i - |ss|];
      }
    }
    assert Execution(cfg, all, steps) && all[0] == a && all[|steps|] == c;
  }

  lemma {:induction false} PathKeeps(cfg: Config, ws: seq<World>, steps: seq<Step>, i: nat)
    requires Execution(cfg, ws, steps) && Inv(cfg, ws[0]) && i < |ws|
    ensures Inv(cfg, ws[i]) && Preserved(ws[0].store, ws[i].store)
  {
    hide Next, Inv, Preserved;
    if i == 0 {
      PreservedSame(ws[0].store);
    } else {
      PathKeeps(cfg, ws, steps, i - 1);
      StepKeeps(cfg, ws[i - 1], steps[i - 1], ws[i]);
      PreservedTwice(ws[0].store, ws[i - 1].store, ws[i].store);
    }
  }

  /** A world some behaviour of the machine reaches. */
  ghost predicate Reachable(cfg: Config, w: World) {
    exists w0 :: Init(cfg, w0) && Path(cfg, w0, w)
  }

  /** The log grew by nothing, or by one broadcast of this request. */
  predicate AtMostSent(log: seq<Entry>, log': seq<Entry>, req: Request) {
    log' == log || (|log'| == |log| + 1 && log'[..|log|] == log && log'[|log|].req == req)
  }

  /** Whatever a path does, the invariant holds at its end and no final record or payload changed on the way. */
  lemma PathSafe(cfg: Config, w: World, w': World)
    requires Reachable(cfg, w) && Path(cfg, w, w')
    ensures Reachable(cfg, w') && Inv(cfg, w) && Inv(cfg, w') && Preserved(w.store, w'.store)
  {
    hide Inv, Preserved, Next, Init;
    var w0 :| Init(cfg, w0) && Path(cfg, w0, w);
    PathJoin(cfg, w0, w, w');
    InitInv(cfg, w0);
    var ws, ss :| Execution(cfg, ws, ss) && ws[0] == w0 && ws[|ss|] == w;
    PathKeeps(cfg, ws, ss, |ss|);
    var vs, ts :| Execution(cfg, vs, ts) && vs[0] == w && vs[|ts|] == w';
    PathKeeps(cfg, vs, ts, |ts|);
  }

  // ---------------------------------------------------------------- worlds after a step

  function CallWorld(w: World, pid: nat, act: CallAct, s: Store, l: LockTable, c: Call): World
    requires pid in w.procs && w.procs[pid].call.Some?
  {
    var p := w.procs[pid];
    World(s, w.locks.(requests := l), w.procs[pid := p.(call := Some(c))],
          if act.Broadcast? then w.log + [EntryOf(p, p.call.value, act.verdict)] else w.log)
  }

  lemma CallAdvances(cfg: Config, w: World, pid: nat, act: CallAct, s: Store, l: LockTable, c: Call)
    requires pid in w.procs && w.procs[pid].call.Some? &&
             CallStep(cfg, pid, act, w.store, w.locks.requests, w.procs[pid].call.value, s, l, c)
    ensures Path(cfg, w, CallWorld(w, pid, act, s, l, c))
  {
    hide CallStep, Path;
    var w' := CallWorld(w, pid, act, s, l, c);
    assert CallMoves(cfg, w, pid, act, w');
    PathStep(cfg, w, InCall(pid, act), w');
  }

  function RunWorld(w: World, pid: nat, s: Store, l: LockTable, f: RunFrame, c: Option<Call>): World
    requires pid in w.procs
  {
    World(s, w.locks.(runs := l), w.procs[pid := w.procs[pid].(run := Some(f), call := c)], w.log)
  }

  lemma RunAdvances(cfg: Config, w: World, pid: nat, act: RunAct, s: Store, l: LockTable, f: RunFrame, c: Option<Call>)
    requires pid in w.procs && w.procs[pid].run.Some?
    requires RunStep(pid, act, w.store, w.locks.runs, w.procs[pid].run.value, w.procs[pid].call, s, l, f, c)
    ensures Path(cfg, w, RunWorld(w, pid, s, l, f, c))
  {
    hide RunStep, Path;
    var w' := RunWorld(w, pid, s, l, f, c);
    assert RunMoves(w, pid, act, w');
    PathStep(cfg, w, InRun(pid, act), w');
  }

  function ChallengeWorld(w: World, pid: nat, s: Store, l: LockTable, f: ChallengeFrame, r: Option<RunFrame>,
                          c: Option<Call>): World {
    World(s, w.locks.(challenges := l), w.procs[pid := Process(Some(f), r, c)], w.log)
  }

  lemma ChallengeAdvances(cfg: Config, w: World, pid: nat, act: ChallengeAct, s: Store, l: LockTable, f: ChallengeFrame,
                          r: Option<RunFrame>, c: Option<Call>)
    requires pid in w.procs && w.procs[pid].challenge.Some?
    requires ChallengeStep(cfg, pid, act, w.store, w.locks.challenges, w.procs[pid].challenge.value, w.procs[pid].run,
                           w.procs[pid].call, s, l, f, r, c)
    ensures Path(cfg, w, ChallengeWorld(w, pid, s, l, f, r, c))
  {
    hide ChallengeStep, Path;
    var w' := ChallengeWorld(w, pid, s, l, f, r, c);
    assert ChallengeMoves(cfg, w, pid, act, w');
    PathStep(cfg, w, InChallenge(pid, act), w');
  }

  lemma {:induction false} FreshPid(pids: set<nat>) returns (pid: nat)
    ensures pid !in pids && forall q :: q in pids ==> q < pid
  {
    if pids == {} {
      pid := 0;
    } else {
      var x :| x in pids;
      var y := FreshPid(pids - {x});
      pid := if x < y then y else x + 1;
      assert forall q :: q in pids ==> q == x || q in pids - {x};
    }
  }

  // ---------------------------------------------------------------- the service

  class Service {
    const cfg: Config
    var requests: Requests
    var runs: RunStore
    var challenges: map<string, ChallengeRecord>
    var chain: Ledger
    var sends: map<string, Send>
    var requestLocks: set<string>
    var runLocks: set<string>
    var challengeLocks: set<string>
    ghost var world: World

    ghost function Contents(): Store
      reads this
    {
      Store(requests, runs, challenges, chain, sends)
    }

    /** The real fields are what the machine's world says they are. */
    ghost predicate Mirrors()
      reads this
    {
      world.store == Contents() && world.locks.requests.Keys == requestLocks && world.locks.runs.Keys == runLocks &&
      world.locks.challenges.Keys == challengeLocks
    }

    ghost predicate Valid()
      reads this
    {
      Mirrors() && Reachable(cfg, world)
    }

    /** A service over the request records an earlier version left behind. */
    constructor (cfg: Config, requests: Requests, chain: Ledger, sends: map<string, Send>)
      requires var s := Store(requests, map[], map[], chain, sends); ChainOk(s) && RequestsOk(cfg, s)
      ensures Valid() && this.cfg == cfg && Contents() == Store(requests, map[], map[], chain, sends)
    {
      this.cfg := cfg;
      this.requests, this.runs, this.challenges := requests, map[], map[];
      this.chain, this.sends := chain, sends;
      this.requestLocks, this.runLocks, this.challengeLocks := {}, {}, {};
      this.world := World(Store(requests, map[], map[], chain, sends), Locks(map[], map[], map[]), map[], []);
      new;
      PathSame(cfg, world);
      assert Init(cfg, world);
    }

    /** One observation of the network: anything the key ring and the nodes may answer. */
    method Observe() returns (v: View)
      ensures GoodView(cfg, v)
    {
      v := *;
      if !GoodView(cfg, v) {
        v := View(Some("RPC_UNREACHABLE"), Unresolved, None, Unresolved, None);
      }
    }

    /** One bank send: anything the node may answer, and what the chain may make of it. */
    method Submit(req: Request, signer: string) returns (v: Verdict)
      modifies this`chain, this`sends
      ensures SendStep(old(Contents()), req, signer, v, Contents())
    {
      v := *;
      var tx: Tx, lands: bool := *, *;
      var h := HashOf(v);
      if !TxHash(h) || h in chain || h in sends {
        v := NoHash("BROADCAST_FAILED", true);
        return;
      }
      var sent := sends[h := Send(req, signer)];
      if !lands || !MayLand(sent, h, tx) || (v.ConfirmedTx? && !tx.success) {
        if v.ConfirmedTx? {
          v := AcceptedTx(h);
        }
        sends := sent;
      } else {
        sends, chain := sent, chain[h := tx];
      }
    }

    // -------------------------------------------------------------- single transfers

    ghost predicate Calling(pid: nat, c: Call)
      reads this
    {
      Mirrors() && pid in world.procs && world.procs[pid].call == Some(c)
    }

    /** Only this process moved, its call is now c, and runs, challenges and the locks over them are untouched. */
    twostate predicate CallOnly(pid: nat, c: Call)
      reads this
    {
      Mirrors() && old(pid in world.procs) && Path(cfg, old(world), world) &&
      world.procs == old(world.procs)[pid := old(world.procs)[pid].(call := Some(c))] &&
      world.locks.runs == old(world.locks.runs) && world.locks.challenges == old(world.locks.challenges) &&
      runs == old(runs) && challenges == old(challenges) && runLocks == old(runLocks) &&
      challengeLocks == old(challengeLocks) && AtMostSent(old(world.log), world.log, c.req)
    }

    /**
     * Preflight, and the broadcast if it clears: the response that has to be recorded, and the signer it
     * is recorded under.
     */
    method Dispatch(ghost pid: nat, req: Request) returns (signer: string, r: Response)
      requires Calling(pid, Call(req, Preflighting))
      modifies this
      ensures CallOnly(pid, Call(req, Writing(signer, r))) && world.locks == old(world.locks) &&
              requestLocks == old(requestLocks)
      ensures requests == old(requests)
    {
      hide CallStep, Path, PreflightFor, Refusal, BroadcastResponse, SendStep;
      ghost var w0 := world;
      var view := Observe();
      var p := PreflightFor(cfg, req.role, view, req.amount);
      signer := p.signer;
      if p.Stopped? {
        r := Refusal(req, p);
        PreflightMoves(cfg, world, pid, req, view, Writing(signer, r));
        world := CallWorld(world, pid, Preflight(view), world.store, world.locks.requests,
                           Call(req, Writing(signer, r)));
        return;
      }
      PreflightMoves(cfg, world, pid, req, view, Broadcasting(signer));
      world := CallWorld(world, pid, Preflight(view), world.store, world.locks.requests,
                         Call(req, Broadcasting(signer)));
      ghost var w1 := world;
      var verdict := Submit(req, signer);
      r := BroadcastResponse(req, signer, verdict);
      SendKeepsRecords(w1.store, req, signer, verdict, Contents());
      BroadcastMoves(cfg, w1, pid, req, signer, verdict, Contents());
      world := CallWorld(w1, pid, Broadcast(verdict), Contents(), w1.locks.requests, Call(req, Writing(signer, r)));
      PathJoin(cfg, w0, w1, world);
    }

    /** Everything executeSettlement and executeEscrowTransfer do under the lock of the request. */
    method Settle(ghost pid: nat, req: Request) returns (r: Response)
      requires Calling(pid, Call(req, Reading))
      modifies this
      ensures CallOnly(pid, Call(req, Unlocking(r))) && world.locks == old(world.locks) &&
              requestLocks == old(requestLocks)
    {
      hide CallStep, Path, Conflict, SameRequest;
      ghost var w0 := world;
      if req.id in requests {
        var stored := requests[req.id];
        if !SameRequest(stored.request, req) {
          r := Conflict(req, stored);
          ReadAnswers(cfg, world, pid, req, r);
          world := CallWorld(world, pid, Read, world.store, world.locks.requests, Call(req, Unlocking(r)));
          return;
        }
        if stored.response.ok || stored.response.txHash != "" || !stored.response.retryable {
          r := stored.response.(replay := true);
          ReadAnswers(cfg, world, pid, req, r);
          world := CallWorld(world, pid, Read, world.store, world.locks.requests, Call(req, Unlocking(r)));
          return;
        }
      }
      ReadGoesOn(cfg, world, pid, req);
      world := CallWorld(world, pid, Read, world.store, world.locks.requests, Call(req, Preflighting));
      ghost var w1 := world;
      r := DispatchAndRecord(pid, req);
      PathJoin(cfg, w0, w1, world);
    }

    /** Dispatch, then writeSettlementRecord. */
    method DispatchAndRecord(ghost pid: nat, req: Request) returns (r: Response)
      requires Calling(pid, Call(req, Preflighting))
      modifies this
      ensures CallOnly(pid, Call(req, Unlocking(r))) && world.locks == old(world.locks) &&
              requestLocks == old(requestLocks)
    {
      hide CallStep, Path, NewRecord;
      ghost var w0 := world;
      var signer;
      signer, r := Dispatch(pid, req);
      ghost var w1 := world;
      requests := requests[req.id := NewRecord(req, signer, r)];
      WriteMoves(cfg, w1, pid, req, signer, r);
      world := CallWorld(w1, pid, Write, Contents(), w1.locks.requests, Call(req, Unlocking(r)));
      PathJoin(cfg, w0, w1, world);
    }

    /** withRequestLock around Settle: another holder of the lock file makes this call report it is in progress. */
    method Transfer(ghost pid: nat, req: Request) returns (r: Response)
      requires Calling(pid, Call(req, Locking))
      modifies this
      ensures CallOnly(pid, Call(req, Returned(r))) && requestLocks == old(requestLocks)
    {
      hide CallStep, Path, Decide;
      ghost var w0 := world;
      if req.id in requestLocks {
        r := InProgress(req);
        ContendedMoves(cfg, world, pid, req);
        world := CallWorld(world, pid, Contended, world.store, world.locks.requests, Call(req, Returned(r)));
        return;
      }
      AcquireMoves(cfg, world, pid, req);
      world := CallWorld(world, pid, Acquire, world.store, world.locks.requests[req.id := pid], Call(req, Reading));
      requestLocks := requestLocks + {req.id};
      ghost var w1 := world;
      r := Settle(pid, req);
      PathJoin(cfg, w0, w1, world);
      ghost var w2 := world;
      requestLocks := requestLocks - {req.id};
      ReleaseMoves(cfg, world, pid, req, r);
      world := CallWorld(world, pid, Release, world.store, world.locks.requests - {req.id}, Call(req, Returned(r)));
      PathJoin(cfg, w0, w2, world);
    }

    /** executeSettlement and executeEscrowTransfer. */
    method ExecuteTransfer(raw: RawRequest, role: string) returns (r: Response)
      requires Valid() && (role == PAYOUT || role == ESCROW)
      modifies this
      ensures Valid() && Path(cfg, old(world), world) && runs == old(runs) && challenges == old(challenges)
      ensures requestLocks == old(requestLocks) && runLocks == old(runLocks) && challengeLocks == old(challengeLocks)
      ensures match Normalize(raw, role)
              case None => r == InvalidRequest(raw, role) && world == old(world)
              case Some(req) =>
                AtMostSent(old(world.log), world.log, req) &&
                (Trim(raw.amountUWolo) == "" && 0 < raw.amountWolo * 1_000_000 < TWO63 ==>
                   ParseUint(req.amount) == Some(raw.amountWolo * 1_000_000)) &&
                exists pid ::
                  pid !in old(world.procs) && pid in world.procs &&
                  world.procs[pid] == Process(None, None, Some(Call(req, Returned(r))))
    {
      hide Normalize, Path, Init, Inv, Preserved, Reachable, InvalidRequest;
      ghost var w0 := world;
      PathSame(cfg, world);
      match Normalize(raw, role) {
        case None =>
          r := InvalidRequest(raw, role);
        case Some(req) =>
          ghost var pid := FreshPid(world.procs.Keys);
          ghost var p := Process(None, None, Some(Call(req, Locking)));
          world := world.(procs := world.procs[pid := p]);
          CallStarts(cfg, w0, pid, raw, role);
          ghost var w1 := world;
          if Trim(raw.amountUWolo) == "" && 0 < raw.amountWolo * 1_000_000 < TWO63 {
            WholeTokens(raw, role);
          }
          r := Transfer(pid, req);
          PathJoin(cfg, w0, w1, world);
      }
      PathSafe(cfg, w0, world);
    }

    // -------------------------------------------------------------- runs

    ghost predicate Running(pid: nat, f: RunFrame)
      reads this
    {
      Mirrors() && pid in world.procs && world.procs[pid].run == Some(f) && world.procs[pid].call == None
    }

    /** Only this process moved, its run is now f, and challenges and the locks over them are untouched. */
    twostate predicate RunOnly(pid: nat, f: RunFrame)
      reads this
    {
      Mirrors() && old(pid in world.procs) && Path(cfg, old(world), world) &&
      world.procs == old(world.procs)[pid := old(world.procs)[pid].(run := Some(f), call := None)] &&
      world.locks.challenges == old(world.locks.challenges) && challenges == old(challenges) &&
      challengeLocks == old(challengeLocks)
    }

    /** One line: refused as invalid, or executed over the single-transfer rail. */
    method PayLine(ghost pid: nat, norm: NormRun, ghost plan: RunResponse, lines: seq<Line>) returns (line: Line)
      requires Running(pid, RunFrame(norm, plan, lines, RunLines)) && |lines| < |norm.payouts|
      modifies this
      ensures RunOnly(pid, RunFrame(norm, plan, lines + [line], RunLines))
      ensures world.locks.runs == old(world.locks.runs) && runs == old(runs) && runLocks == old(runLocks)
      ensures requestLocks == old(requestLocks)
    {
      hide Path, Normalize, RunStep, LineFrom;
      ghost var w0 := world;
      ghost var f := RunFrame(norm, plan, lines, RunLines);
      var payout := norm.payouts[|lines|];
      var raw := ItemRequest(payout);
      match Normalize(raw, norm.role) {
        case None =>
          line := LineFrom(payout, InvalidRequest(raw, norm.role));
          SubmitRefused(cfg, w0, pid, f);
          world := RunWorld(w0, pid, w0.store, w0.locks.runs, f.(lines := lines + [line]), None);
        case Some(req) =>
          SubmitMoves(cfg, w0, pid, f, req);
          world := RunWorld(w0, pid, w0.store, w0.locks.runs, f, Some(Call(req, Locking)));
          ghost var w1 := world;
          var answer := Transfer(pid, req);
          PathJoin(cfg, w0, w1, world);
          ghost var w2 := world;
          line := LineFrom(payout, answer);
          CollectMoves(cfg, w2, pid, f, Call(req, Returned(answer)));
          world := RunWorld(w2, pid, w2.store, w2.locks.runs, f.(lines := lines + [line]), None);
          PathJoin(cfg, w0, w2, world);
      }
    }

    /** The loop over the payouts. */
    method PayLines(ghost pid: nat, norm: NormRun, ghost plan: RunResponse) returns (lines: seq<Line>)
      requires Running(pid, RunFrame(norm, plan, [], RunLines))
      modifies this
      ensures |lines| == |norm.payouts| && RunOnly(pid, RunFrame(norm, plan, lines, RunLines))
      ensures world.locks.runs == old(world.locks.runs) && runs == old(runs) && runLocks == old(runLocks)
      ensures requestLocks == old(requestLocks)
    {
      hide Path;
      ghost var w0 := world;
      lines := [];
      PathSame(cfg, world);
      for k := 0 to |norm.payouts|
        invariant |lines| == k && RunOnly(pid, RunFrame(norm, plan, lines, RunLines))
        invariant world.locks.runs == old(world.locks.runs) && runs == old(runs) && runLocks == old(runLocks)
        invariant requestLocks == old(requestLocks)
      {
        ghost var w1 := world;
        var line := PayLine(pid, norm, plan, lines);
        PathJoin(cfg, w0, w1, world);
        lines := lines + [line];
      }
    }

    /** Everything executeSettlementRun does under the lock of the run. */
    method SettleRun(ghost pid: nat, norm: NormRun, plan: RunResponse) returns (r: RunResponse, ghost f: RunFrame)
      requires Running(pid, RunFrame(norm, plan, [], RunReading))
      modifies this
      ensures RunOnly(pid, f) && f.norm == norm && f.plan == plan && f.pc == RunUnlocking(r)
      ensures world.locks.runs == old(world.locks.runs) && runLocks == old(runLocks) &&
              requestLocks == old(requestLocks)
    {
      hide Path, RunStep, FailedRun, FinalRun, ExecutedRun;
      ghost var w0 := world;
      f := RunFrame(norm, plan, [], RunReading);
      if plan.runId in runs {
        var stored := runs[plan.runId];
        if stored.fingerprint != norm {
          r := FailedRun("IDEMPOTENCY_CONFLICT", false, plan.runId, plan.role).(signer := plan.signer);
          RunReadMoves(cfg, w0, pid, f);
          f := f.(pc := RunUnlocking(r));
          world := RunWorld(w0, pid, w0.store, w0.locks.runs, f, None);
          return;
        }
        if FinalRun(stored.response) {
          r := stored.response.(replay := true);
          RunReadMoves(cfg, w0, pid, f);
          f := f.(pc := RunUnlocking(r));
          world := RunWorld(w0, pid, w0.store, w0.locks.runs, f, None);
          return;
        }
      }
      RunReadMoves(cfg, w0, pid, f);
      if !plan.ok {
        r := plan;
        f := f.(pc := RunWriting(plan));
        world := RunWorld(w0, pid, w0.store, w0.locks.runs, f, None);
      } else {
        world := RunWorld(w0, pid, w0.store, w0.locks.runs, f.(pc := RunLines), None);
        ghost var w1 := world;
        var lines := PayLines(pid, norm, plan);
        PathJoin(cfg, w0, w1, world);
        r := FinishRun(plan, lines);
        f := RunFrame(norm, plan, lines, RunWriting(r));
        ghost var w2 := world;
        FinishMoves(cfg, w2, pid, RunFrame(norm, plan, lines, RunLines));
        world := RunWorld(w2, pid, w2.store, w2.locks.runs, f, None);
        PathJoin(cfg, w0, w2, world);
      }
      ghost var w3 := world;
      runs := runs[plan.runId := RunRecord(norm, norm, r)];
      RunWriteMoves(cfg, w3, pid, f);
      f := f.(pc := RunUnlocking(r));
      world := RunWorld(w3, pid, Contents(), w3.locks.runs, f, None);
      PathJoin(cfg, w0, w3, world);
    }

    /** withRunLock around SettleRun. */
    method PayRun(ghost pid: nat, norm: NormRun, plan: RunResponse) returns (r: RunResponse, ghost f: RunFrame)
      requires Running(pid, RunFrame(norm, plan, [], RunLocking))
      modifies this
      ensures RunOnly(pid, f) && f.norm == norm && f.plan == plan && f.pc == RunReturned(r)
      ensures runLocks == old(runLocks) && requestLocks == old(requestLocks)
    {
      hide Path, RunStep, FailedRun;
      ghost var w0 := world;
      f := RunFrame(norm, plan, [], RunLocking);
      if plan.runId in runLocks {
        r := FailedRun("RUN_IN_PROGRESS", true, plan.runId, plan.role);
        RunContendedMoves(cfg, w0, pid, f);
        f := f.(pc := RunReturned(r));
        world := RunWorld(w0, pid, w0.store, w0.locks.runs, f, None);
        return;
      }
      RunAcquireMoves(cfg, w0, pid, f);
      runLocks := runLocks + {plan.runId};
      world := RunWorld(w0, pid, w0.store, w0.locks.runs[plan.runId := pid], f.(pc := RunReading), None);
      ghost var w1 := world;
      r, f := SettleRun(pid, norm, plan);
      PathJoin(cfg, w0, w1, world);
      ghost var w2 := world;
      RunReleaseMoves(cfg, w2, pid, f);
      runLocks := runLocks - {plan.runId};
      f := f.(pc := RunReturned(r));
      world := RunWorld(w2, pid, w2.store, w2.locks.runs - {plan.runId}, f, None);
      PathJoin(cfg, w0, w2, world);
    }

    /** executeSettlementRun: a run without any id is answered from its plan alone. */
    method ExecuteRun(request: RunRequest) returns (r: RunResponse)
      requires Valid()
      modifies this
      ensures Valid() && Path(cfg, old(world), world) && challenges == old(challenges)
      ensures requestLocks == old(requestLocks) && runLocks == old(runLocks) && challengeLocks == old(challengeLocks)
      ensures exists view :: GoodView(cfg, view) &&
                if Trim(request.runId) == "" then world == old(world) && r == PlanRun(cfg, view, request).1
                else exists pid :: RanRun(cfg, old(world), world, pid, PlanRun(cfg, view, request), r)
    {
      hide Path, PlanRun, Init, NewRun, GoodView, Trim, Inv, Preserved, Reachable;
      ghost var w0 := world;
      PathSame(cfg, world);
      var view := Observe();
      var norm, plan := BuildRunPlan(cfg, view, request);
      PlannedId(cfg, view, request);
      if plan.runId == "" {
        PathSafe(cfg, w0, w0);
        return plan;
      }
      ghost var pid := FreshPid(world.procs.Keys);
      ghost var f := RunFrame(norm, plan, [], RunLocking);
      world := world.(procs := world.procs[pid := Process(None, Some(f), None)]);
      StartedRun(cfg, request, view);
      RunStartsAlone(cfg, w0, pid, request, view, f);
      ghost var w1 := world;
      r, f := PayRun(pid, norm, plan);
      PathJoin(cfg, w0, w1, world);
      PathSafe(cfg, w0, world);
      assert RanRun(cfg, w0, world, pid, PlanRun(cfg, view, request), r);
    }

    // -------------------------------------------------------------- challenges

    ghost predicate Settling(pid: nat, f: ChallengeFrame)
      reads this
    {
      Mirrors() && pid in world.procs && world.procs[pid] == Process(Some(f), None, None)
    }

    /** Only this process moved, and its challenge is now f. */
    twostate predicate ChallengeOnly(pid: nat, f: ChallengeFrame)
      reads this
    {
      Mirrors() && old(pid in world.procs) && Path(cfg, old(world), world) &&
      world.procs == old(world.procs)[pid := Process(Some(f), None, None)]
    }

    /** executeChallengeTopUp, and what the challenge makes of its answer. */
    method PayTopUp(ghost pid: nat, plan: ChallengePlan) returns (topUp: TopUp, ghost f: ChallengeFrame)
      requires plan.response.topUp.Some? && Settling(pid, ChallengeFrame(plan, plan.response.topUp, ToppingUp))
      modifies this
      ensures ChallengeOnly(pid, f) && f.plan == plan && f.topUp == Some(topUp)
      ensures f.pc == if TopUpFailed(topUp) then ChallengeWriting(FailedTopUp(plan.response, topUp)) else Paying
      ensures world.locks.challenges == old(world.locks.challenges) && challenges == old(challenges) &&
              challengeLocks == old(challengeLocks)
      ensures requestLocks == old(requestLocks) && runLocks == old(runLocks)
    {
      hide Path, ChallengeStep, Normalize, FailedTopUp, SettleTopUp, TopUpFailed, InvalidRequest;
      ghost var w0 := world;
      f := ChallengeFrame(plan, plan.response.topUp, ToppingUp);
      var due := plan.response.topUp.value;
      var raw := TopUpRaw(plan.norm.runId, due);
      match Normalize(raw, ESCROW) {
        case None =>
          topUp := SettleTopUp(due, InvalidRequest(raw, ESCROW), None);
          TopUpRefused(cfg, w0, pid, f);
          f := AfterTopUp(f, InvalidRequest(raw, ESCROW), None);
          world := ChallengeWorld(w0, pid, w0.store, w0.locks.challenges, f, None, None);
        case Some(req) =>
          TopUpSubmits(cfg, w0, pid, f, req);
          world := ChallengeWorld(w0, pid, w0.store, w0.locks.challenges, f, None, Some(Call(req, Locking)));
          ghost var w1 := world;
          var answer := Transfer(pid, req);
          PathJoin(cfg, w0, w1, world);
          ghost var w2 := world;
          var view := Observe();
          topUp := SettleTopUp(due, answer, view.payoutBalance);
          TopUpCollects(cfg, w2, pid, f, Call(req, Returned(answer)), view.payoutBalance);
          f := AfterTopUp(f, answer, view.payoutBalance);
          world := ChallengeWorld(w2, pid, w2.store, w2.locks.challenges, f, None, None);
          PathJoin(cfg, w0, w2, world);
      }
      assert Current(ChallengeFrame(plan, plan.response.topUp, ToppingUp)) == plan.response;
    }

    /** The run of a challenge, planned again and executed, and its results merged. */
    method PayTransfers(ghost pid: nat, plan: ChallengePlan, topUp: Option<TopUp>) returns (r: ChallengeResponse)
      requires Settling(pid, ChallengeFrame(plan, topUp, Paying)) && Trim(plan.runRequest.runId) != ""
      modifies this
      ensures ChallengeOnly(pid, ChallengeFrame(plan, topUp, ChallengeWriting(r)))
      ensures world.locks.challenges == old(world.locks.challenges) && challenges == old(challenges) &&
              challengeLocks == old(challengeLocks)
      ensures requestLocks == old(requestLocks) && runLocks == old(runLocks)
    {
      hide Path, ChallengeStep, PlanRun, NewRun, ExecutedChallenge, GoodView, Trim;
      ghost var w0 := world;
      ghost var f := ChallengeFrame(plan, topUp, Paying);
      var view := Observe();
      var norm, runPlan := BuildRunPlan(cfg, view, plan.runRequest);
      PlannedId(cfg, view, plan.runRequest);
      StartedRun(cfg, plan.runRequest, view);
      ghost var g := RunFrame(norm, runPlan, [], RunLocking);
      RunStarts(cfg, w0, pid, f, view, g);
      world := ChallengeWorld(w0, pid, w0.store, w0.locks.challenges, f, Some(g), None);
      ghost var w1 := world;
      var run;
      run, g := PayRun(pid, norm, runPlan);
      PathJoin(cfg, w0, w1, world);
      ghost var w2 := world;
      r := MergeRun(plan.response.(topUp := topUp), plan.norm.transfers, run);
      RunCollects(cfg, w2, pid, f, g);
      world := ChallengeWorld(w2, pid, w2.store, w2.locks.challenges, f.(pc := ChallengeWriting(r)), None, None);
      PathJoin(cfg, w0, w2, world);
    }

    /** What executeSettlementChallenge computes under the lock of the challenge, up to the write. */
    method Resolve(ghost pid: nat, plan: ChallengePlan) returns (r: ChallengeResponse, write: bool,
                                                                 ghost f: ChallengeFrame)
      requires Settling(pid, ChallengeFrame(plan, plan.response.topUp, ChallengeReading)) &&
               (plan.response.ok ==> Trim(plan.runRequest.runId) != "")
      modifies this
      ensures ChallengeOnly(pid, f) && f.plan == plan && f.pc == if write then ChallengeWriting(r)
                                                                 else ChallengeUnlocking(r)
      ensures world.locks.challenges == old(world.locks.challenges) && challenges == old(challenges) &&
              challengeLocks == old(challengeLocks)
      ensures requestLocks == old(requestLocks) && runLocks == old(runLocks)
    {
      hide Path, ChallengeStep, FinalChallenge, FailedChallenge, RefusedChallenge, FailedTopUp, TopUpFailed, Trim;
      ghost var w0 := world;
      f := ChallengeFrame(plan, plan.response.topUp, ChallengeReading);
      ChallengeReads(cfg, w0, pid, f);
      var id := plan.norm.runId;
      write := false;
      if id in challenges && challenges[id].fingerprint != plan.norm {
        r := FailedChallenge("IDEMPOTENCY_CONFLICT", false, plan.norm);
        f := f.(pc := ChallengeUnlocking(r));
        world := ChallengeWorld(w0, pid, w0.store, w0.locks.challenges, f, None, None);
        return;
      }
      if id in challenges && FinalChallenge(challenges[id].response) {
        r := challenges[id].response.(replay := true);
        f := f.(pc := ChallengeUnlocking(r));
        world := ChallengeWorld(w0, pid, w0.store, w0.locks.challenges, f, None, None);
        return;
      }
      write := true;
      if !plan.response.ok {
        r := RefuseChallenge(plan.response);
        f := f.(pc := ChallengeWriting(r));
        world := ChallengeWorld(w0, pid, w0.store, w0.locks.challenges, f, None, None);
        return;
      }
      r, f := TopUpAndPay(pid, plan, w0);
    }

    /** The rest of an accepted challenge: the top-up if one is due, then the run. */
    method TopUpAndPay(ghost pid: nat, plan: ChallengePlan, ghost w0: World) returns (r: ChallengeResponse,
                                                                                      ghost f: ChallengeFrame)
      requires world == w0 && Settling(pid, ChallengeFrame(plan, plan.response.topUp, ChallengeReading)) &&
               Trim(plan.runRequest.runId) != ""
      requires var g := ChallengeFrame(plan, plan.response.topUp, ChallengeReading);
               Path(cfg, w0,
                    ChallengeWorld(w0, pid, w0.store, w0.locks.challenges,
                                   g.(pc := if TopUpDue(g) then ToppingUp else Paying), None, None))
      modifies this
      ensures ChallengeOnly(pid, f) && f.plan == plan && f.pc == ChallengeWriting(r)
      ensures world.locks.challenges == old(world.locks.challenges) && challenges == old(challenges) &&
              challengeLocks == old(challengeLocks)
      ensures requestLocks == old(requestLocks) && runLocks == old(runLocks)
    {
      hide Path, FailedTopUp, TopUpFailed, Trim;
      f := ChallengeFrame(plan, plan.response.topUp, ChallengeReading);
      var topUp := plan.response.topUp;
      if topUp.Some? && topUp.value.required {
        world := ChallengeWorld(w0, pid, w0.store, w0.locks.challenges, f.(pc := ToppingUp), None, None);
        ghost var w1 := world;
        var done;
        done, f := PayTopUp(pid, plan);
        PathJoin(cfg, w0, w1, world);
        if TopUpFailed(done) {
          r := FailChallengeTopUp(plan.response, done);
          return;
        }
        topUp := Some(done);
      } else {
        world := ChallengeWorld(w0, pid, w0.store, w0.locks.challenges, f.(pc := Paying), None, None);
      }
      ghost var w2 := world;
      r := PayTransfers(pid, plan, topUp);
      PathJoin(cfg, w0, w2, world);
      f := ChallengeFrame(plan, topUp, ChallengeWriting(r));
    }

    /**
     * Everything executeSettlementChallenge does under the lock of the challenge: answer from the record, or settle
     * and write it.
     */
    method Conclude(ghost pid: nat, plan: ChallengePlan) returns (r: ChallengeResponse, ghost f: ChallengeFrame)
      requires Settling(pid, ChallengeFrame(plan, plan.response.topUp, ChallengeReading)) &&
               (plan.response.ok ==> Trim(plan.runRequest.runId) != "")
      modifies this
      ensures ChallengeOnly(pid, f) && f.plan == plan && f.pc == ChallengeUnlocking(r)
      ensures world.locks.challenges == old(world.locks.challenges) && challengeLocks == old(challengeLocks)
      ensures requestLocks == old(requestLocks) && runLocks == old(runLocks)
    {
      hide Path, Trim;
      ghost var w0 := world;
      var write;
      r, write, f := Resolve(pid, plan);
      if write {
        ghost var w1 := world;
        challenges := challenges[plan.norm.runId := ChallengeRecord(plan.norm, plan.norm, r)];
        ChallengeWrites(cfg, w1, pid, f);
        f := f.(pc := ChallengeUnlocking(r));
        world := ChallengeWorld(w1, pid, Contents(), w1.locks.challenges, f, None, None);
        PathJoin(cfg, w0, w1, world);
      }
    }

    /** withChallengeLock around Conclude. */
    method SettleChallenge(ghost pid: nat, plan: ChallengePlan) returns (r: ChallengeResponse, ghost f: ChallengeFrame)
      requires Settling(pid, ChallengeFrame(plan, plan.response.topUp, ChallengeLocking)) &&
               (plan.response.ok ==> Trim(plan.runRequest.runId) != "")
      modifies this
      ensures ChallengeOnly(pid, f) && f.plan == plan && f.pc == ChallengeReturned(r)
      ensures challengeLocks == old(challengeLocks) && requestLocks == old(requestLocks) && runLocks == old(runLocks)
    {
      hide Path, ChallengeStep, FailedChallenge, Trim;
      ghost var w0 := world;
      f := ChallengeFrame(plan, plan.response.topUp, ChallengeLocking);
      var id := plan.norm.runId;
      if id in challengeLocks {
        r := FailedChallenge("CHALLENGE_IN_PROGRESS", true, plan.norm);
        ChallengeContends(cfg, w0, pid, f);
        f := f.(pc := ChallengeReturned(r));
        world := ChallengeWorld(w0, pid, w0.store, w0.locks.challenges, f, None, None);
        return;
      }
      ChallengeAcquires(cfg, w0, pid, f);
      challengeLocks := challengeLocks + {id};
      world := ChallengeWorld(w0, pid, w0.store, w0.locks.challenges[id := pid], f.(pc := ChallengeReading), None,
                              None);
      ghost var w1 := world;
      r, f := Conclude(pid, plan);
      PathJoin(cfg, w0, w1, world);
      ghost var w2 := world;
      ChallengeReleases(cfg, w2, pid, f);
      challengeLocks := challengeLocks - {id};
      f := f.(pc := ChallengeReturned(r));
      world := ChallengeWorld(w2, pid, w2.store, w2.locks.challenges - {id}, f, None, None);
      PathJoin(cfg, w0, w2, world);
    }

    /** executeSettlementChallenge: a challenge without any id is answered from its plan alone. */
    method ExecuteChallenge(request: ChallengeRequest) returns (r: ChallengeResponse)
      requires Valid()
      modifies this
      ensures Valid() && Path(cfg, old(world), world)
      ensures requestLocks == old(requestLocks) && runLocks == old(runLocks) && challengeLocks == old(challengeLocks)
      ensures exists view :: GoodView(cfg, view) &&
                if Trim(request.runId) == "" then world == old(world) && r == PlanChallenge(cfg, old(chain), view,
                                                                                            request).response
                else exists pid ::
                       RanChallenge(cfg, old(world), world, pid, PlanChallenge(cfg, old(chain), view, request), r)
    {
      hide Path, PlanChallenge, Init, NewChallenge, GoodView, Trim, Inv, Preserved, Reachable;
      ghost var w0 := world;
      PathSame(cfg, world);
      PathSafe(cfg, w0, w0);
      var view := Observe();
      var plan := BuildChallengePlan(cfg, chain, view, request);
      ChallengePlanIds(cfg, chain, view, request);
      if plan.norm.runId == "" {
        return plan.response;
      }
      ghost var pid := FreshPid(world.procs.Keys);
      ghost var f := ChallengeFrame(plan, plan.response.topUp, ChallengeLocking);
      assert NewChallenge(cfg, w0.store, request, chain, view, f) by { StartedChallenge(cfg, w0, request, view); }
      world := world.(procs := world.procs[pid := Process(Some(f), None, None)]);
      ChallengeStartsAlone(cfg, w0, pid, request, view, f);
      ghost var w1 := world;
      r, f := SettleChallenge(pid, plan);
      PathJoin(cfg, w0, w1, world);
      PathSafe(cfg, w0, world);
      assert RanChallenge(cfg, w0, world, pid, plan, r);
    }
  }

  /** Whatever was executed on a service, no id was broadcast after a hash, and all of its records are in order. */
  lemma ServiceSafe(service: Service)
    requires service.Valid()
    ensures AtMostOnce(service.world.log) && StoreOk(service.cfg, service.Contents())
  {
    hide StoreOk, ProcessesOk;
    PathSame(service.cfg, service.world);
    PathSafe(service.cfg, service.world, service.world);
  }

  // ---------------------------------------------------------------- what an execution leaves behind

  /** A new process ran the run that was planned, on its own, to this answer. */
  ghost predicate RanRun(cfg: Config, w: World, w': World, pid: nat, plan: (NormRun, RunResponse), r: RunResponse) {
    pid !in w.procs && pid in w'.procs && w'.procs[pid].challenge.None? && w'.procs[pid].run.Some? &&
    w'.procs[pid].run.value.norm == plan.0 && w'.procs[pid].run.value.plan == plan.1 &&
    w'.procs[pid].run.value.pc == RunReturned(r)
  }

  /** A new process settled the challenge that was planned to this answer. */
  ghost predicate RanChallenge(cfg: Config, w: World, w': World, pid: nat, plan: ChallengePlan, r: ChallengeResponse) {
    pid !in w.procs && pid in w'.procs && w'.procs[pid].challenge.Some? &&
    w'.procs[pid].challenge.value.plan == plan && w'.procs[pid].challenge.value.pc == ChallengeReturned(r)
  }

  // ---------------------------------------------------------------- starting

  lemma CallStarts(cfg: Config, w: World, pid: nat, raw: RawRequest, role: string)
    requires pid !in w.procs && (role == PAYOUT || role == ESCROW) && Normalize(raw, role).Some?
    ensures Path(cfg, w,
                 w.(procs := w.procs[pid := Process(None, None, Some(Call(Normalize(raw, role).value, Locking)))]))
  {
    hide Normalize, Path;
    PathStep(cfg, w, StartCall(pid, raw, role),
             w.(procs := w.procs[pid := Process(None, None, Some(Call(Normalize(raw, role).value, Locking)))]));
  }

  lemma RunStartsAlone(cfg: Config, w: World, pid: nat, request: RunRequest, v: View, f: RunFrame)
    requires pid !in w.procs && NewRun(cfg, request, v, f)
    ensures Path(cfg, w, w.(procs := w.procs[pid := Process(None, Some(f), None)]))
  {
    hide NewRun, Path;
    var w' := w.(procs := w.procs[pid := Process(None, Some(f), None)]);
    assert Spawns(w, pid, Process(None, Some(f), None), w');
    PathStep(cfg, w, Step.StartRun(pid, request, v), w');
  }

  lemma ChallengeStartsAlone(cfg: Config, w: World, pid: nat, request: ChallengeRequest, v: View, f: ChallengeFrame)
    requires pid !in w.procs && NewChallenge(cfg, w.store, request, w.store.chain, v, f)
    ensures Path(cfg, w, w.(procs := w.procs[pid := Process(Some(f), None, None)]))
  {
    hide NewChallenge, Path;
    var w' := w.(procs := w.procs[pid := Process(Some(f), None, None)]);
    assert Spawns(w, pid, Process(Some(f), None, None), w');
    PathStep(cfg, w, Step.StartChallenge(pid, request, w.store.chain, v), w');
  }

  // ---------------------------------------------------------------- the steps of a challenge

  lemma ChallengePlanIds(cfg: Config, c: Ledger, v: View, request: ChallengeRequest)
    ensures var plan := PlanChallenge(cfg, c, v, request);
            plan.norm.runId == Trim(request.runId) && Trim(plan.runRequest.runId) == plan.norm.runId
  {
    hide FinalizeChallenge, VerifyAll, PlanTransfers, PlanRun, PlanTopUp, ValidHeader, Funding.DistinctParticipants,
         BucketsExact, NoInvalidMove, JudgePlan, AllOk, LinesPlanned, FundingChecked, Trim, TreasuryOf, TrimAll,
         FirstNonEmpty;
    TrimShape(request.runId);
  }

  lemma StartedChallenge(cfg: Config, w: World, request: ChallengeRequest, v: View)
    requires Inv(cfg, w) && GoodView(cfg, v) && PlanChallenge(cfg, w.store.chain, v, request).norm.runId != ""
    ensures var plan := PlanChallenge(cfg, w.store.chain, v, request);
            NewChallenge(cfg, w.store, request, w.store.chain, v,
                         ChallengeFrame(plan, plan.response.topUp, ChallengeLocking))
  {
    hide PlanChallenge, GoodView, RequestsOk, RunsOk, ChallengesOk, ProcessesOk, LogOk;
  }

  ghost predicate ChallengeAt(w: World, pid: nat, f: ChallengeFrame) {
    pid in w.procs && w.procs[pid] == Process(Some(f), None, None)
  }

  lemma TopUpRefused(cfg: Config, w: World, pid: nat, f: ChallengeFrame)
    requires ChallengeAt(w, pid, f) && f.pc == ToppingUp && f.topUp.Some? &&
             Normalize(TopUpRaw(f.plan.norm.runId, f.topUp.value), ESCROW).None?
    ensures var raw := TopUpRaw(f.plan.norm.runId, f.topUp.value);
            Path(cfg, w,
                 ChallengeWorld(w, pid, w.store, w.locks.challenges, AfterTopUp(f, InvalidRequest(raw, ESCROW), None),
                                None, None))
  {
    hide Path, Normalize, InvalidRequest, SettleTopUp, FailedTopUp, TopUpFailed;
    var raw := TopUpRaw(f.plan.norm.runId, f.topUp.value);
    ChallengeAdvances(cfg, w, pid, SubmitTopUp, w.store, w.locks.challenges,
                      AfterTopUp(f, InvalidRequest(raw, ESCROW), None), None, None);
  }

  lemma TopUpSubmits(cfg: Config, w: World, pid: nat, f: ChallengeFrame, req: Request)
    requires ChallengeAt(w, pid, f) && f.pc == ToppingUp && f.topUp.Some? &&
             Normalize(TopUpRaw(f.plan.norm.runId, f.topUp.value), ESCROW) == Some(req)
    ensures Path(cfg, w, ChallengeWorld(w, pid, w.store, w.locks.challenges, f, None, Some(Call(req, Locking))))
  {
    hide Path, Normalize;
    ChallengeAdvances(cfg, w, pid, SubmitTopUp, w.store, w.locks.challenges, f, None, Some(Call(req, Locking)));
  }

  lemma TopUpCollects(cfg: Config, w: World, pid: nat, f: ChallengeFrame, c: Call, balance: Option<U64>)
    requires pid in w.procs && w.procs[pid] == Process(Some(f), None, Some(c)) && f.pc == ToppingUp && f.topUp.Some? &&
             c.pc.Returned?
    ensures Path(cfg, w,
                 ChallengeWorld(w, pid, w.store, w.locks.challenges, AfterTopUp(f, c.pc.answer, balance), None, None))
  {
    hide Path, SettleTopUp, FailedTopUp, TopUpFailed;
    ChallengeAdvances(cfg, w, pid, CollectTopUp(balance), w.store, w.locks.challenges,
                      AfterTopUp(f, c.pc.answer, balance), None, None);
  }

  lemma RunStarts(cfg: Config, w: World, pid: nat, f: ChallengeFrame, v: View, g: RunFrame)
    requires ChallengeAt(w, pid, f) && f.pc == Paying && NewRun(cfg, f.plan.runRequest, v, g)
    ensures Path(cfg, w, ChallengeWorld(w, pid, w.store, w.locks.challenges, f, Some(g), None))
  {
    hide Path, NewRun;
    ChallengeAdvances(cfg, w, pid, StartPaying(v), w.store, w.locks.challenges, f, Some(g), None);
  }

  lemma RunCollects(cfg: Config, w: World, pid: nat, f: ChallengeFrame, g: RunFrame)
    requires pid in w.procs && w.procs[pid] == Process(Some(f), Some(g), None) && f.pc == Paying && g.pc.RunReturned?
    ensures var r := ExecutedChallenge(Current(f), f.plan.norm.transfers, g.pc.answer);
            Path(cfg, w, ChallengeWorld(w, pid, w.store, w.locks.challenges, f.(pc := ChallengeWriting(r)), None, None))
  {
    hide Path, ExecutedChallenge;
    var r := ExecutedChallenge(Current(f), f.plan.norm.transfers, g.pc.answer);
    ChallengeAdvances(cfg, w, pid, CollectRun, w.store, w.locks.challenges, f.(pc := ChallengeWriting(r)), None, None);
  }

  function ChallengeDecision(w: World, f: ChallengeFrame): ChallengePc {
    var id := f.plan.norm.runId;
    var answer := DecideChallenge(if id in w.store.challenges then Some(w.store.challenges[id]) else None, f.plan.norm);
    if answer.Some? then ChallengeUnlocking(answer.value)
    else if !f.plan.response.ok then ChallengeWriting(RefusedChallenge(f.plan.response))
    else if TopUpDue(f) then ToppingUp else Paying
  }

  lemma ChallengeReads(cfg: Config, w: World, pid: nat, f: ChallengeFrame)
    requires ChallengeAt(w, pid, f) && f.pc == ChallengeReading
    ensures Path(cfg, w,
                 ChallengeWorld(w, pid, w.store, w.locks.challenges, f.(pc := ChallengeDecision(w, f)), None, None))
  {
    hide Path, DecideChallenge, RefusedChallenge;
    ChallengeAdvances(cfg, w, pid, ReadChallenge, w.store, w.locks.challenges, f.(pc := ChallengeDecision(w, f)), None,
                      None);
  }

  lemma ChallengeWrites(cfg: Config, w: World, pid: nat, f: ChallengeFrame)
    requires ChallengeAt(w, pid, f) && f.pc.ChallengeWriting?
    ensures var rec := ChallengeRecord(f.plan.norm, f.plan.norm, f.pc.written);
            var s := w.store.(challenges := w.store.challenges[f.plan.norm.runId := rec]);
            Path(cfg, w,
                 ChallengeWorld(w, pid, s, w.locks.challenges, f.(pc := ChallengeUnlocking(f.pc.written)), None, None))
  {
    hide Path;
    var s := w.store.(challenges := w.store.challenges[f.plan.norm.runId := ChallengeRecord(f.plan.norm, f.plan.norm,
                                                                                            f.pc.written)]);
    ChallengeAdvances(cfg, w, pid, WriteChallenge, s, w.locks.challenges, f.(pc := ChallengeUnlocking(f.pc.written)),
                      None, None);
  }

  lemma ChallengeContends(cfg: Config, w: World, pid: nat, f: ChallengeFrame)
    requires ChallengeAt(w, pid, f) && f.pc == ChallengeLocking && f.plan.norm.runId in w.locks.challenges
    ensures var r := FailedChallenge("CHALLENGE_IN_PROGRESS", true, f.plan.norm);
            Path(cfg, w,
                 ChallengeWorld(w, pid, w.store, w.locks.challenges, f.(pc := ChallengeReturned(r)), None, None))
  {
    hide Path, FailedChallenge;
    var r := FailedChallenge("CHALLENGE_IN_PROGRESS", true, f.plan.norm);
    ChallengeAdvances(cfg, w, pid, ContendedChallenge, w.store, w.locks.challenges, f.(pc := ChallengeReturned(r)),
                      None, None);
  }

  lemma ChallengeAcquires(cfg: Config, w: World, pid: nat, f: ChallengeFrame)
    requires ChallengeAt(w, pid, f) && f.pc == ChallengeLocking && f.plan.norm.runId !in w.locks.challenges
    ensures Path(cfg, w,
                 ChallengeWorld(w, pid, w.store, w.locks.challenges[f.plan.norm.runId := pid],
                                f.(pc := ChallengeReading), None, None))
  {
    hide Path;
    ChallengeAdvances(cfg, w, pid, AcquireChallenge, w.store, w.locks.challenges[f.plan.norm.runId := pid],
                      f.(pc := ChallengeReading), None, None);
  }

  lemma ChallengeReleases(cfg: Config, w: World, pid: nat, f: ChallengeFrame)
    requires ChallengeAt(w, pid, f) && f.pc.ChallengeUnlocking?
    ensures Path(cfg, w,
                 ChallengeWorld(w, pid, w.store, w.locks.challenges - {f.plan.norm.runId},
                                f.(pc := ChallengeReturned(f.pc.answer)), None, None))
  {
    hide Path;
    ChallengeAdvances(cfg, w, pid, ReleaseChallenge, w.store, w.locks.challenges - {f.plan.norm.runId},
                      f.(pc := ChallengeReturned(f.pc.answer)), None, None);
  }

  // ---------------------------------------------------------------- the steps of a run

  lemma PlannedId(cfg: Config, v: View, request: RunRequest)
    ensures PlanRun(cfg, v, request).1.runId == Trim(request.runId)
  {
    hide *;
    RunLaws.PlanFacts(cfg, v, request);
  }

  lemma StartedRun(cfg: Config, request: RunRequest, v: View)
    requires GoodView(cfg, v) && PlanRun(cfg, v, request).1.runId != ""
    ensures NewRun(cfg, request, v, RunFrame(PlanRun(cfg, v, request).0, PlanRun(cfg, v, request).1, [], RunLocking))
  {
    hide PlanRun, GoodView;
  }

  ghost predicate RunAt(w: World, pid: nat, f: RunFrame) {
    pid in w.procs && w.procs[pid].run == Some(f) && w.procs[pid].call == None
  }

  lemma SubmitRefused(cfg: Config, w: World, pid: nat, f: RunFrame)
    requires RunAt(w, pid, f) && f.pc == RunLines && |f.lines| < |f.norm.payouts| &&
             Normalize(Submitted(f), f.norm.role).None?
    ensures var line := LineFrom(f.norm.payouts[|f.lines|], InvalidRequest(Submitted(f), f.norm.role));
            Path(cfg, w, RunWorld(w, pid, w.store, w.locks.runs, f.(lines := f.lines + [line]), None))
  {
    hide Path, Normalize, LineFrom, InvalidRequest;
    var line := LineFrom(f.norm.payouts[|f.lines|], InvalidRequest(Submitted(f), f.norm.role));
    RunAdvances(cfg, w, pid, SubmitLine, w.store, w.locks.runs, f.(lines := f.lines + [line]), None);
  }

  lemma SubmitMoves(cfg: Config, w: World, pid: nat, f: RunFrame, req: Request)
    requires RunAt(w, pid, f) && f.pc == RunLines && |f.lines| < |f.norm.payouts| &&
             Normalize(Submitted(f), f.norm.role) == Some(req)
    ensures Path(cfg, w, RunWorld(w, pid, w.store, w.locks.runs, f, Some(Call(req, Locking))))
  {
    hide Path, Normalize;
    RunAdvances(cfg, w, pid, SubmitLine, w.store, w.locks.runs, f, Some(Call(req, Locking)));
  }

  lemma CollectMoves(cfg: Config, w: World, pid: nat, f: RunFrame, c: Call)
    requires pid in w.procs && w.procs[pid].run == Some(f) && w.procs[pid].call == Some(c)
    requires f.pc == RunLines && |f.lines| < |f.norm.payouts| && c.pc.Returned?
    ensures var line := LineFrom(f.norm.payouts[|f.lines|], c.pc.answer);
            Path(cfg, w, RunWorld(w, pid, w.store, w.locks.runs, f.(lines := f.lines + [line]), None))
  {
    hide Path, LineFrom;
    var line := LineFrom(f.norm.payouts[|f.lines|], c.pc.answer);
    RunAdvances(cfg, w, pid, CollectLine, w.store, w.locks.runs, f.(lines := f.lines + [line]), None);
  }

  function RunDecision(w: World, f: RunFrame): RunPc {
    var id := f.plan.runId;
    var answer := DecideRun(if id in w.store.runs then Some(w.store.runs[id]) else None, f.norm, f.plan);
    if answer.Some? then RunUnlocking(answer.value) else if !f.plan.ok then RunWriting(f.plan) else RunLines
  }

  lemma RunReadMoves(cfg: Config, w: World, pid: nat, f: RunFrame)
    requires RunAt(w, pid, f) && f.pc == RunReading
    ensures Path(cfg, w, RunWorld(w, pid, w.store, w.locks.runs, f.(pc := RunDecision(w, f)), None))
  {
    hide Path, DecideRun;
    RunAdvances(cfg, w, pid, ReadRun, w.store, w.locks.runs, f.(pc := RunDecision(w, f)), None);
  }

  lemma FinishMoves(cfg: Config, w: World, pid: nat, f: RunFrame)
    requires RunAt(w, pid, f) && f.pc == RunLines && |f.lines| == |f.norm.payouts|
    ensures Path(cfg, w,
                 RunWorld(w, pid, w.store, w.locks.runs, f.(pc := RunWriting(ExecutedRun(f.plan, f.lines))), None))
  {
    hide Path, ExecutedRun;
    RunAdvances(cfg, w, pid, FinishLines, w.store, w.locks.runs, f.(pc := RunWriting(ExecutedRun(f.plan, f.lines))),
                None);
  }

  lemma RunWriteMoves(cfg: Config, w: World, pid: nat, f: RunFrame)
    requires RunAt(w, pid, f) && f.pc.RunWriting?
    ensures var s := w.store.(runs := w.store.runs[f.plan.runId := RunRecord(f.norm, f.norm, f.pc.written)]);
            Path(cfg, w, RunWorld(w, pid, s, w.locks.runs, f.(pc := RunUnlocking(f.pc.written)), None))
  {
    hide Path;
    var s := w.store.(runs := w.store.runs[f.plan.runId := RunRecord(f.norm, f.norm, f.pc.written)]);
    RunAdvances(cfg, w, pid, WriteRun, s, w.locks.runs, f.(pc := RunUnlocking(f.pc.written)), None);
  }

  lemma RunContendedMoves(cfg: Config, w: World, pid: nat, f: RunFrame)
    requires RunAt(w, pid, f) && f.pc == RunLocking && f.plan.runId in w.locks.runs
    ensures Path(cfg, w, RunWorld(w, pid, w.store, w.locks.runs, f.(pc := RunReturned(RunInProgress(f))), None))
  {
    hide Path;
    RunAdvances(cfg, w, pid, ContendedRun, w.store, w.locks.runs, f.(pc := RunReturned(RunInProgress(f))), None);
  }

  lemma RunAcquireMoves(cfg: Config, w: World, pid: nat, f: RunFrame)
    requires RunAt(w, pid, f) && f.pc == RunLocking && f.plan.runId !in w.locks.runs
    ensures Path(cfg, w, RunWorld(w, pid, w.store, w.locks.runs[f.plan.runId := pid], f.(pc := RunReading), None))
  {
    hide Path;
    RunAdvances(cfg, w, pid, AcquireRun, w.store, w.locks.runs[f.plan.runId := pid], f.(pc := RunReading), None);
  }

  lemma RunReleaseMoves(cfg: Config, w: World, pid: nat, f: RunFrame)
    requires RunAt(w, pid, f) && f.pc.RunUnlocking?
    ensures Path(cfg, w,
                 RunWorld(w, pid, w.store, w.locks.runs - {f.plan.runId}, f.(pc := RunReturned(f.pc.answer)), None))
  {
    hide Path;
    RunAdvances(cfg, w, pid, ReleaseRun, w.store, w.locks.runs - {f.plan.runId}, f.(pc := RunReturned(f.pc.answer)),
                None);
  }

  // ---------------------------------------------------------------- the steps of a single transfer

  ghost predicate At(w: World, pid: nat, req: Request, pc: CallPc) {
    pid in w.procs && w.procs[pid].call == Some(Call(req, pc))
  }

  function StoredOf(w: World, id: string): Option<Record> {
    if id in w.store.requests then Some(w.store.requests[id]) else None
  }

  lemma ReadAnswers(cfg: Config, w: World, pid: nat, req: Request, r: Response)
    requires At(w, pid, req, Reading) && Decide(StoredOf(w, req.id), req) == Some(r)
    ensures Path(cfg, w, CallWorld(w, pid, Read, w.store, w.locks.requests, Call(req, Unlocking(r))))
  {
    hide Path, Decide;
    CallAdvances(cfg, w, pid, Read, w.store, w.locks.requests, Call(req, Unlocking(r)));
  }

  lemma ReadGoesOn(cfg: Config, w: World, pid: nat, req: Request)
    requires At(w, pid, req, Reading) && Decide(StoredOf(w, req.id), req) == None
    ensures Path(cfg, w, CallWorld(w, pid, Read, w.store, w.locks.requests, Call(req, Preflighting)))
  {
    hide Path, Decide;
    CallAdvances(cfg, w, pid, Read, w.store, w.locks.requests, Call(req, Preflighting));
  }

  lemma PreflightMoves(cfg: Config, w: World, pid: nat, req: Request, view: View, pc: CallPc)
    requires At(w, pid, req, Preflighting) && GoodView(cfg, view)
    requires var p := PreflightFor(cfg, req.role, view, req.amount);
             pc == if p.Stopped? then Writing(p.signer, Refusal(req, p)) else Broadcasting(p.signer)
    ensures Path(cfg, w, CallWorld(w, pid, Preflight(view), w.store, w.locks.requests, Call(req, pc)))
  {
    hide Path, PreflightFor, Refusal, GoodView;
    CallAdvances(cfg, w, pid, Preflight(view), w.store, w.locks.requests, Call(req, pc));
  }

  lemma BroadcastMoves(cfg: Config, w: World, pid: nat, req: Request, signer: string, v: Verdict, s: Store)
    requires At(w, pid, req, Broadcasting(signer)) && SendStep(w.store, req, signer, v, s)
    ensures Path(cfg, w,
                 CallWorld(w, pid, Broadcast(v), s, w.locks.requests,
                           Call(req, Writing(signer, BroadcastResponse(req, signer, v)))))
  {
    hide Path, SendStep, BroadcastResponse;
    CallAdvances(cfg, w, pid, Broadcast(v), s, w.locks.requests,
                 Call(req, Writing(signer, BroadcastResponse(req, signer, v))));
  }

  lemma SendKeepsRecords(s: Store, req: Request, signer: string, v: Verdict, s': Store)
    requires SendStep(s, req, signer, v, s')
    ensures s'.requests == s.requests && s'.runs == s.runs && s'.challenges == s.challenges
  {
    hide MayLand, TxHash;
  }

  lemma WriteMoves(cfg: Config, w: World, pid: nat, req: Request, signer: string, r: Response)
    requires At(w, pid, req, Writing(signer, r))
    ensures var s := w.store.(requests := w.store.requests[req.id := NewRecord(req, signer, r)]);
            Path(cfg, w, CallWorld(w, pid, Write, s, w.locks.requests, Call(req, Unlocking(r))))
  {
    hide Path, NewRecord;
    var s := w.store.(requests := w.store.requests[req.id := NewRecord(req, signer, r)]);
    CallAdvances(cfg, w, pid, Write, s, w.locks.requests, Call(req, Unlocking(r)));
  }

  lemma ContendedMoves(cfg: Config, w: World, pid: nat, req: Request)
    requires At(w, pid, req, Locking) && req.id in w.locks.requests
    ensures Path(cfg, w, CallWorld(w, pid, Contended, w.store, w.locks.requests, Call(req, Returned(InProgress(req)))))
  {
    hide Path, InProgress;
    CallAdvances(cfg, w, pid, Contended, w.store, w.locks.requests, Call(req, Returned(InProgress(req))));
  }

  lemma AcquireMoves(cfg: Config, w: World, pid: nat, req: Request)
    requires At(w, pid, req, Locking) && req.id !in w.locks.requests
    ensures Path(cfg, w, CallWorld(w, pid, Acquire, w.store, w.locks.requests[req.id := pid], Call(req, Reading)))
  {
    hide Path;
    CallAdvances(cfg, w, pid, Acquire, w.store, w.locks.requests[req.id := pid], Call(req, Reading));
  }

  lemma ReleaseMoves(cfg: Config, w: World, pid: nat, req: Request, r: Response)
    requires At(w, pid, req, Unlocking(r))
    ensures Path(cfg, w, CallWorld(w, pid, Release, w.store, w.locks.requests - {req.id}, Call(req, Returned(r))))
  {
    hide Path;
    CallAdvances(cfg, w, pid, Release, w.store, w.locks.requests - {req.id}, Call(req, Returned(r)));
  }
}

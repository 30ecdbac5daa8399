/**
 * At most once, from the request layer alone. The machine here is looser than the real one: runs and challenges see an
 * arbitrary table of run and challenge locks and leave an arbitrary one behind, so that those locks exclude nothing.
 */
module Once {
  import opened Text
  import opened Records
  import opened Signers
  import opened Transfers
  import opened Runs
  import opened Challenges
  import opened Machine

  // ---------------------------------------------------------------- the looser machine

  /** A step of a run that finds its lock, or finds it taken, as it pleases. */
  ghost predicate LooseRunMoves(w: World, pid: nat, act: RunAct, w': World) {
    pid in w.procs && w.procs[pid].run.Some? && w'.locks.requests == w.locks.requests && w'.log == w.log &&
    var p := w.procs[pid];
    exists l, l', f', c' ::
      RunStep(pid, act, w.store, l, p.run.value, p.call, w'.store, l', f', c') &&
      w'.procs == w.procs[pid := p.(run := Some(f'), call := c')]
  }

  /** A step of a challenge that finds its lock, or finds it taken, as it pleases. */
  ghost predicate LooseChallengeMoves(cfg: Config, w: World, pid: nat, act: ChallengeAct, w': World) {
    pid in w.procs && w.procs[pid].challenge.Some? && w'.locks.requests == w.locks.requests && w'.log == w.log &&
    var p := w.procs[pid];
    exists l, l', f', r', c' ::
      ChallengeStep(cfg, pid, act, w.store, l, p.challenge.value, p.run, p.call, w'.store, l', f', r', c') &&
      w'.procs == w.procs[pid := Process(Some(f'), r', c')]
  }

  ghost predicate LooseNext(cfg: Config, w: World, step: Step, w': World) {
    match step
    case InRun(pid, act) => LooseRunMoves(w, pid, act, w')
    case InChallenge(pid, act) => LooseChallengeMoves(cfg, w, pid, act, w')
    case _ => Next(cfg, w, step, w')
  }

  /** Every step of the real machine is a step of the looser one. */
  lemma NextIsLoose(cfg: Config, w: World, step: Step, w': World)
    requires Next(cfg, w, step, w')
    ensures LooseNext(cfg, w, step, w')
  {
    hide RunStep, ChallengeStep, CallMoves, NewRun, NewChallenge, Normalize, MayLand;
  }

  ghost predicate LooseExecution(cfg: Config, ws: seq<World>, steps: seq<Step>) {
    |ws| == |steps| + 1 && forall i :: 0 <= i < |steps| ==> LooseNext(cfg, ws[i], steps[i], ws[i + 1])
  }

  // ---------------------------------------------------------------- what the request layer keeps

  /** Of all broadcasts of one id only the last can have returned a hash. */
  ghost predicate AtMostOnce(log: seq<Entry>) {
    forall i, j :: 0 <= i < j < |log| && log[i].req.id == log[j].req.id ==> !log[i].verdict.Hashed()
  }

  /** What a verdict says about the transfer: confirmed, accepted, or failed although it left a hash. */
  function StatusOf(v: Verdict): Status {
    match v
    case ConfirmedTx(_) => Confirmed
    case AcceptedTx(_) => Accepted
    case _ => Failed
  }

  predicate Reports(r: Response, v: Verdict) {
    r.txHash == HashOf(v) && r.status == StatusOf(v)
  }

  /** The verdict stands in the record of the id. */
  ghost predicate Recorded(w: World, id: string, v: Verdict) {
    id in w.store.requests && Reports(w.store.requests[id].response, v)
  }

  /** The verdict is held by the process that owns the lock of the id and is about to write it. */
  ghost predicate InFlight(w: World, id: string, v: Verdict) {
    id in w.locks.requests && w.locks.requests[id] in w.procs && Carrying(w.procs[w.locks.requests[id]], id, v)
  }

  predicate Carrying(p: Process, id: string, v: Verdict) {
    p.call.Some? && p.call.value.req.id == id && p.call.value.pc.Writing? && Reports(p.call.value.pc.written, v)
  }

  ghost predicate Accounted(w: World, e: Entry) {
    e.verdict.Hashed() ==>
      HashOf(e.verdict) != "" && (Recorded(w, e.req.id, e.verdict) || InFlight(w, e.req.id, e.verdict))
  }

  /**
   * A call between lock and unlock owns its lock, and one that has decided to go on does so over a record
   * it may replace.
   */
  ghost predicate Owns(w: World, pid: nat, c: Call) {
    (Holding(c.pc) ==> c.req.id in w.locks.requests && w.locks.requests[c.req.id] == pid) &&
    (Deciding(c.pc) && c.req.id in w.store.requests ==> !Final(w.store.requests[c.req.id].response))
  }

  ghost predicate Owned(w: World) {
    forall pid :: pid in w.procs && w.procs[pid].call.Some? ==> Owns(w, pid, w.procs[pid].call.value)
  }

  ghost predicate OnceInv(w: World) {
    AtMostOnce(w.log) && (forall i :: 0 <= i < |w.log| ==> Accounted(w, w.log[i])) && Owned(w)
  }

  /**
   * Whoever stands before a broadcast owns the lock over a record without a hash, so no earlier broadcast of the
   * id returned one.
   */
  lemma NoEarlierHash(w: World, pid: nat, e: Entry)
    requires pid in w.procs && w.procs[pid].call.Some? && w.procs[pid].call.value.pc.Broadcasting?
    requires Owned(w) && Accounted(w, e) && e.req.id == w.procs[pid].call.value.req.id
    ensures !e.verdict.Hashed()
  {
    assert Owns(w, pid, w.procs[pid].call.value);
  }

  // ---------------------------------------------------------------- steps that leave the request layer alone

  /**
   * The records and locks of the request layer stay, and so do all calls but those of one process that carries nothing.
   */
  ghost predicate Aside(w: World, pid: nat, w': World) {
    w'.store.requests == w.store.requests && w'.locks.requests == w.locks.requests && w'.log == w.log &&
    (forall q :: q in w.procs && q != pid ==> q in w'.procs && w'.procs[q] == w.procs[q]) &&
    (forall q :: q in w'.procs && q != pid ==> q in w.procs) &&
    (pid in w.procs && w.procs[pid].call.Some? ==> !w.procs[pid].call.value.pc.Writing?) &&
    (pid in w'.procs && w'.procs[pid].call.Some? ==>
       w'.procs[pid].call.value.pc.Locking? || (pid in w.procs && w'.procs[pid] == w.procs[pid]))
  }

  lemma AsideKeeps(w: World, pid: nat, w': World)
    requires OnceInv(w) && Aside(w, pid, w')
    ensures OnceInv(w')
  {
    forall i | 0 <= i < |w.log| ensures Accounted(w', w.log[i]) {
      assert Accounted(w, w.log[i]);
    }
    forall q | q in w'.procs && w'.procs[q].call.Some? ensures Owns(w', q, w'.procs[q].call.value) {
      if q in w.procs && w'.procs[q] == w.procs[q] {
        assert Owns(w, q, w.procs[q].call.value);
      }
    }
  }

  lemma RunIsAside(w: World, pid: nat, act: RunAct, w': World)
    requires LooseRunMoves(w, pid, act, w')
    ensures Aside(w, pid, w')
  {
    hide DecideRun, ExecutedRun, Normalize, LineFrom, InvalidRequest;
  }

  lemma ChallengeIsAside(cfg: Config, w: World, pid: nat, act: ChallengeAct, w': World)
    requires LooseChallengeMoves(cfg, w, pid, act, w')
    ensures Aside(w, pid, w')
  {
    hide DecideChallenge, ExecutedChallenge, Normalize, AfterTopUp, NewRun, RefusedChallenge, TopUpRaw, InvalidRequest;
  }

  lemma LandKeeps(cfg: Config, w: World, step: Step, w': World)
    requires OnceInv(w) && step.Land? && Next(cfg, w, step, w')
    ensures OnceInv(w')
  {
    hide MayLand, TxHash;
    forall i | 0 <= i < |w.log| ensures Accounted(w', w.log[i]) {
      assert Accounted(w, w.log[i]);
    }
    forall q | q in w'.procs && w'.procs[q].call.Some? ensures Owns(w', q, w'.procs[q].call.value) {
      assert Owns(w, q, w.procs[q].call.value);
    }
  }

  lemma StartIsAside(cfg: Config, w: World, step: Step, w': World)
    requires (step.StartCall? || step.StartRun? || step.StartChallenge?) && Next(cfg, w, step, w')
    ensures Aside(w, step.pid, w')
  {
    hide NewRun, NewChallenge, Normalize;
  }

  // ---------------------------------------------------------------- the steps of a call

  /** Only this process moved, and another process keeps its locks and its records. */
  lemma OthersOwn(cfg: Config, w: World, pid: nat, act: CallAct, w': World, q: nat)
    requires OnceInv(w) && CallMoves(cfg, w, pid, act, w') && q in w.procs && q != pid && w.procs[q].call.Some?
    ensures q in w'.procs && w'.procs[q] == w.procs[q] && Owns(w', q, w.procs[q].call.value)
  {
    hide Decide, PreflightFor, Refusal, BroadcastResponse, GoodView, MayLand, TxHash, Final;
    assert Owns(w, q, w.procs[q].call.value) && Owns(w, pid, w.procs[pid].call.value);
  }

  lemma SelfOwns(cfg: Config, w: World, pid: nat, act: CallAct, w': World)
    requires OnceInv(w) && CallMoves(cfg, w, pid, act, w')
    ensures pid in w'.procs && w'.procs[pid].call.Some? && Owns(w', pid, w'.procs[pid].call.value)
  {
    hide PreflightFor, Refusal, BroadcastResponse, GoodView, MayLand, TxHash, SameRequest, Conflict;
    assert Owns(w, pid, w.procs[pid].call.value);
  }

  /** A logged hash stays in its record, with its carrier, or goes from the carrier into the record. */
  lemma AccountedStays(cfg: Config, w: World, pid: nat, act: CallAct, w': World, e: Entry)
    requires OnceInv(w) && CallMoves(cfg, w, pid, act, w') && Accounted(w, e)
    ensures Accounted(w', e)
  {
    hide Decide, PreflightFor, Refusal, BroadcastResponse, GoodView, MayLand, TxHash;
    var id := e.req.id;
    assert Owns(w, pid, w.procs[pid].call.value);
    if e.verdict.Hashed() && !Recorded(w, id, e.verdict) && w.locks.requests[id] != pid {
      OthersOwn(cfg, w, pid, act, w', w.locks.requests[id]);
      assert Owns(w, w.locks.requests[id], w.procs[w.locks.requests[id]].call.value);
    }
  }

  lemma NewEntryAccounted(cfg: Config, w: World, pid: nat, act: CallAct, w': World)
    requires OnceInv(w) && CallMoves(cfg, w, pid, act, w') && act.Broadcast?
    ensures |w'.log| == |w.log| + 1 && w.log <= w'.log && Accounted(w', w'.log[|w.log|])
    ensures pid in w.procs && w.procs[pid].call.Some? && w.procs[pid].call.value.pc.Broadcasting?
    ensures w'.log[|w.log|].req == w.procs[pid].call.value.req && w'.log[|w.log|].verdict == act.verdict
  {
    hide GoodView, MayLand;
    assert Owns(w, pid, w.procs[pid].call.value);
  }

  lemma CallKeeps(cfg: Config, w: World, pid: nat, act: CallAct, w': World)
    requires OnceInv(w) && CallMoves(cfg, w, pid, act, w')
    ensures OnceInv(w')
  {
    hide CallMoves, Owns, Accounted;
    SameCalls(cfg, w, pid, act, w');
    forall q | q in w'.procs && w'.procs[q].call.Some? ensures Owns(w', q, w'.procs[q].call.value) {
      if q == pid {
        SelfOwns(cfg, w, pid, act, w');
      } else {
        OthersOwn(cfg, w, pid, act, w', q);
      }
    }
    forall i | 0 <= i < |w.log| ensures Accounted(w', w.log[i]) {
      AccountedStays(cfg, w, pid, act, w', w.log[i]);
    }
    if act.Broadcast? {
      NewEntryAccounted(cfg, w, pid, act, w');
      forall i | 0 <= i < |w.log| && w.log[i].req.id == w'.log[|w.log|].req.id ensures !w.log[i].verdict.Hashed() {
        NoEarlierHash(w, pid, w.log[i]);
      }
    }
  }

  lemma SameCalls(cfg: Config, w: World, pid: nat, act: CallAct, w': World)
    requires CallMoves(cfg, w, pid, act, w')
    ensures pid in w.procs && w'.procs.Keys == w.procs.Keys &&
            (forall q :: q in w.procs && q != pid ==> w'.procs[q] == w.procs[q])
    ensures !act.Broadcast? ==> w'.log == w.log
    ensures act.Broadcast? ==> |w'.log| == |w.log| + 1 && w.log <= w'.log
  {
    hide CallStep;
  }

  /** Every step of the looser machine keeps the invariant. */
  lemma LooseStepKeeps(cfg: Config, w: World, step: Step, w': World)
    requires OnceInv(w) && LooseNext(cfg, w, step, w')
    ensures OnceInv(w')
  {
    hide OnceInv, Aside, CallMoves, LooseRunMoves, LooseChallengeMoves, NewRun, NewChallenge, MayLand, Normalize,
         Spawns;
    match step
    case InCall(pid, act) => CallKeeps(cfg, w, pid, act, w');
    case InRun(pid, act) =>
      RunIsAside(w, pid, act, w');
      AsideKeeps(w, pid, w');
    case InChallenge(pid, act) =>
      ChallengeIsAside(cfg, w, pid, act, w');
      AsideKeeps(w, pid, w');
    case Land(_, _) => LandKeeps(cfg, w, step, w');
    case _ =>
      StartIsAside(cfg, w, step, w');
      AsideKeeps(w, step.pid, w');
  }

  // ---------------------------------------------------------------- over every behaviour

  /** Nothing has been broadcast and nobody is at work; stored records and lock files may be anything. */
  predicate Fresh(w: World) {
    w.procs == map[] && w.log == []
  }

  lemma {:induction false} LooseReach(cfg: Config, ws: seq<World>, steps: seq<Step>, i: nat)
    requires LooseExecution(cfg, ws, steps) && Fresh(ws[0]) && i < |ws|
    ensures OnceInv(ws[i])
  {
    hide LooseNext, OnceInv;
    if i == 0 {
      FreshOnce(ws[0]);
    } else {
      LooseReach(cfg, ws, steps, i - 1);
      LooseStepKeeps(cfg, ws[i - 1], steps[i - 1], ws[i]);
    }
  }

  lemma FreshOnce(w: World)
    requires Fresh(w)
    ensures OnceInv(w)
  {
  }

  /** Step i is a broadcast of an id, with its verdict. */
  ghost predicate BroadcastsAt(ws: seq<World>, steps: seq<Step>, i: nat, id: string, v: Verdict)
    requires i < |steps| && |ws| == |steps| + 1
  {
    steps[i].InCall? && steps[i].callAct == Broadcast(v) && steps[i].pid in ws[i].procs &&
    ws[i].procs[steps[i].pid].call.Some? &&
    ws[i].procs[steps[i].pid].call.value.req.id == id
  }

  lemma LogGrows(cfg: Config, w: World, step: Step, w': World)
    requires LooseNext(cfg, w, step, w')
    ensures w.log <= w'.log
  {
    hide CallStep, RunStep, ChallengeStep, NewRun, NewChallenge, MayLand, TxHash, Normalize;
  }

  lemma {:induction false} LogPrefix(cfg: Config, ws: seq<World>, steps: seq<Step>, i: nat, j: nat)
    requires LooseExecution(cfg, ws, steps) && i <= j < |ws|
    ensures ws[i].log <= ws[j].log
  {
    hide LooseNext;
    if i < j {
      LogPrefix(cfg, ws, steps, i, j - 1);
      LogGrows(cfg, ws[j - 1], steps[j - 1], ws[j]);
    }
  }

  lemma BroadcastLogged(cfg: Config, ws: seq<World>, steps: seq<Step>, i: nat, id: string, v: Verdict)
    requires LooseExecution(cfg, ws, steps) && i < |steps| && BroadcastsAt(ws, steps, i, id, v)
    ensures |ws[i + 1].log| == |ws[i].log| + 1 && ws[i + 1].log[|ws[i].log|].req.id == id &&
            ws[i + 1].log[|ws[i].log|].verdict == v
  {
    hide CallStep;
    assert LooseNext(cfg, ws[i], steps[i], ws[i + 1]);
  }

  /**
   * At most once, without run and challenge locks. In every behaviour of the looser machine, over any store and any
   * lock files it starts with, once a broadcast of a request id returned a hash that id is never broadcast again.
   */
  lemma AtMostOneHashLoosely(cfg: Config, ws: seq<World>, steps: seq<Step>, i: nat, j: nat, id: string, v: Verdict,
                             v': Verdict)
    requires LooseExecution(cfg, ws, steps) && Fresh(ws[0]) && i < j < |steps|
    requires BroadcastsAt(ws, steps, i, id, v) && BroadcastsAt(ws, steps, j, id, v')
    ensures !v.Hashed()
  {
    hide LooseNext, Owned, Accounted;
    BroadcastLogged(cfg, ws, steps, i, id, v);
    BroadcastLogged(cfg, ws, steps, j, id, v');
    LogPrefix(cfg, ws, steps, i + 1, j);
    LogPrefix(cfg, ws, steps, j, j + 1);
    LooseReach(cfg, ws, steps, j + 1);
    var log := ws[j + 1].log;
    assert log[|ws[i].log|].req.id == log[|ws[j].log|].req.id;
  }

  lemma ExecutionIsLoose(cfg: Config, ws: seq<World>, steps: seq<Step>)
    requires Execution(cfg, ws, steps)
    ensures LooseExecution(cfg, ws, steps)
  {
    hide Next, LooseNext;
    forall i | 0 <= i < |steps| ensures LooseNext(cfg, ws[i], steps[i], ws[i + 1]) {
      NextIsLoose(cfg, ws[i], steps[i], ws[i + 1]);
    }
  }
}

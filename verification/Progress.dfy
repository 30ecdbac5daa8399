/** The rail can finish: an accepted challenge on an idle rail has a behaviour that ends with it stored as confirmed. */
module Progress {
  import opened Text
  import opened Amounts
  import opened Ids
  import opened Records
  import opened Signers
  import opened Chain
  import opened Transfers
  import opened Runs
  import opened RunLaws
  import opened Challenges
  import opened ChallengeLaws
  import opened ChallengeRuns
  import opened TopUps
  import opened Machine
  import opened Invariants
  import opened CallLaws
  import opened RunSteps
  import opened ChallengeSteps
  import opened Rail
  import AuditComplete
  import Funding

  // ---------------------------------------------------------------- a fresh hash

  function Hex(n: nat): (h: string)
    ensures |h| == 2 * n + 2 && TxHash(h)
  {
    seq(2 * n + 2, i requires 0 <= i < 2 * n + 2 => 'A')
  }

  lemma {:induction false} LongerThan(hs: set<string>) returns (n: nat)
    ensures forall h :: h in hs ==> |h| <= n
  {
    if hs == {} {
      n := 0;
    } else {
      var x :| x in hs;
      var m := LongerThan(hs - {x});
      n := if |x| < m then m else |x|;
      assert forall h :: h in hs ==> h == x || h in hs - {x};
    }
  }

  lemma FreshHash(s: Store) returns (h: string)
    ensures TxHash(h) && h !in s.chain && h !in s.sends
  {
    var n := LongerThan(s.chain.Keys + s.sends.Keys);
    h := Hex(n);
    assert forall x :: x in s.chain.Keys + s.sends.Keys ==> |x| < |h|;
  }

  // ---------------------------------------------------------------- a transfer that confirms

  function BankSend(req: Request, signer: string): Tx {
    Tx(true, req.memo,
       [Transfer(signer, req.to, if ParseUint(req.amount).Some? then FormatUint(ParseUint(req.amount).value)
                                 else "0", DENOM)])
  }

  lemma BankSendLands(cfg: Config, sends: map<string, Send>, h: string, req: Request, signer: string)
    requires ParseUint(req.amount).Some? && SignedBy(cfg, req.role, signer)
    ensures MayLand(sends[h := Send(req, signer)], h, BankSend(req, signer))
  {
    hide Trim, IsWoloAddress, EqualFold, ParseUint, FormatUint;
    ParseFormat(ParseUint(req.amount).value);
    var tx := BankSend(req, signer);
    forall t | t in tx.transfers ensures HonestTransfer(t) {
      assert t == tx.transfers[0];
    }
    assert tx.transfers[0] in tx.transfers;
  }

  lemma ConfirmingSend(cfg: Config, s: Store, req: Request, signer: string, h: string) returns (s': Store)
    requires ParseUint(req.amount).Some? && SignedBy(cfg, req.role, signer) && TxHash(h) && h !in s.chain &&
             h !in s.sends
    ensures SendStep(s, req, signer, ConfirmedTx(h), s') && s'.requests == s.requests && s'.runs == s.runs &&
            s'.challenges == s.challenges
  {
    hide TxHash, SignedBy, MayLand;
    BankSendLands(cfg, s.sends, h, req, signer);
    var tx := BankSend(req, signer);
    var sent := s.(sends := s.sends[h := Send(req, signer)]);
    s' := sent.(chain := s.chain[h := tx]);
    assert MayLand(sent.sends, h, tx) && tx.success;
  }

  /** An id that nobody holds and nothing is stored for. */
  predicate Untouched(w: World, id: string) {
    id !in w.locks.requests && id !in w.store.requests
  }

  /**
   * From the lock to the answer: a cleared transfer of an untouched id can be confirmed, and only its
   * own record appears.
   */
  lemma CallConfirms(cfg: Config, w: World, pid: nat, req: Request, view: View) returns (w': World, r: Response)
    requires At(w, pid, req, Locking) && Untouched(w, req.id) && GoodRequest(req) &&
             (req.role == PAYOUT || req.role == ESCROW)
    requires GoodView(cfg, view) && PreflightFor(cfg, req.role, view, req.amount).Cleared? &&
             ParseUint(req.amount).Some?
    ensures Path(cfg, w, w') && w'.locks == w.locks && w'.store.runs == w.store.runs &&
            w'.store.challenges == w.store.challenges
    ensures w'.procs == w.procs[pid := w.procs[pid].(call := Some(Call(req, Returned(r))))]
    ensures w'.store.requests.Keys == w.store.requests.Keys + {req.id}
    ensures exists signer, h :: TxHash(h) && r == BroadcastResponse(req, signer, ConfirmedTx(h))
  {
    hide Path, CallStep, PreflightFor, SendStep, BroadcastResponse, GoodRequest, GoodView, ParseUint, TxHash;
    var signer := PreflightFor(cfg, req.role, view, req.amount).signer;
    PreflightRecord(cfg, w.store, req, view);
    AcquireMoves(cfg, w, pid, req);
    var w1 := CallWorld(w, pid, Acquire, w.store, w.locks.requests[req.id := pid], Call(req, Reading));
    ReadGoesOn(cfg, w1, pid, req);
    var w2 := CallWorld(w1, pid, Read, w1.store, w1.locks.requests, Call(req, Preflighting));
    PreflightMoves(cfg, w2, pid, req, view, Broadcasting(signer));
    var w3 := CallWorld(w2, pid, Preflight(view), w2.store, w2.locks.requests, Call(req, Broadcasting(signer)));
    var h := FreshHash(w3.store);
    var s := ConfirmingSend(cfg, w3.store, req, signer, h);
    r := BroadcastResponse(req, signer, ConfirmedTx(h));
    BroadcastMoves(cfg, w3, pid, req, signer, ConfirmedTx(h), s);
    var w4 := CallWorld(w3, pid, Broadcast(ConfirmedTx(h)), s, w3.locks.requests, Call(req, Writing(signer, r)));
    PathJoin(cfg, w, w1, w2);
    PathJoin(cfg, w, w2, w3);
    PathJoin(cfg, w, w3, w4);
    w' := Recorded(cfg, w, w4, pid, req, signer, r);
  }

  lemma Recorded(cfg: Config, w0: World, w: World, pid: nat, req: Request, signer: string,
                 r: Response) returns (w': World)
    requires Path(cfg, w0, w) && At(w, pid, req, Writing(signer, r))
    ensures Path(cfg, w0, w') && w'.locks == w.locks.(requests := w.locks.requests - {req.id})
    ensures w'.procs == w.procs[pid := w.procs[pid].(call := Some(Call(req, Returned(r))))]
    ensures w'.store == w.store.(requests := w.store.requests[req.id := NewRecord(req, signer, r)])
  {
    hide Path, CallStep, NewRecord;
    WriteMoves(cfg, w, pid, req, signer, r);
    var s := w.store.(requests := w.store.requests[req.id := NewRecord(req, signer, r)]);
    var w1 := CallWorld(w, pid, Write, s, w.locks.requests, Call(req, Unlocking(r)));
    ReleaseMoves(cfg, w1, pid, req, r);
    w' := CallWorld(w1, pid, Release, w1.store, w1.locks.requests - {req.id}, Call(req, Returned(r)));
    PathJoin(cfg, w0, w, w1);
    PathJoin(cfg, w0, w1, w');
  }

  // ---------------------------------------------------------------- a run whose lines all confirm

  /** A confirmed line of a payout, as the rail reports it. */
  predicate ConfirmedFor(p: Payout, l: Line) {
    Answers(p, l) && l.status == Confirmed
  }

  lemma ConfirmedAnswer(p: Payout, role: string, req: Request, signer: string, h: string)
    requires NormalPayout(p) && Normalize(ItemRequest(p), role) == Some(req) && TxHash(h)
    ensures ConfirmedFor(p, LineFrom(p, BroadcastResponse(req, signer, ConfirmedTx(h))))
  {
    hide NormalPayout, Normalize, Trim, OptionalAmount, TxHash;
    SubmittedRequest(p, role);
  }

  /** The lines still to pay are untouched, readable, and clear their preflights. */
  ghost predicate Payable(cfg: Config, w: World, n: NormRun, views: seq<View>, from: nat) {
    |views| == |n.payouts| &&
    forall k :: from <= k < |n.payouts| ==> PayableLine(cfg, w, n.role, n.payouts[k], views[k])
  }

  ghost predicate PayableLine(cfg: Config, w: World, role: string, p: Payout, view: View) {
    Untouched(w, p.id) && GoodView(cfg, view) && ParseUint(p.amount).Some? && Normalize(ItemRequest(p), role).Some? &&
    PreflightFor(cfg, role, view, p.amount).Cleared?
  }

  lemma LineConfirms(cfg: Config, w: World, pid: nat, f: RunFrame, view: View) returns (w': World, line: Line)
    requires RunAt(w, pid, f) && f.pc == RunLines && |f.lines| < |f.norm.payouts| &&
             (f.norm.role == PAYOUT || f.norm.role == ESCROW)
    requires var p := f.norm.payouts[|f.lines|]; NormalPayout(p) && PayableLine(cfg, w, f.norm.role, p, view)
    ensures Path(cfg, w, w') && w'.locks == w.locks && w'.store.runs == w.store.runs &&
            w'.store.challenges == w.store.challenges
    ensures w'.procs == w.procs[pid := w.procs[pid].(run := Some(f.(lines := f.lines + [line])), call := None)]
    ensures w'.store.requests.Keys == w.store.requests.Keys + {f.norm.payouts[|f.lines|].id}
    ensures ConfirmedFor(f.norm.payouts[|f.lines|], line)
  {
    hide Path, RunStep, Normalize, PreflightFor, NormalPayout, GoodRequest, GoodView, ParseUint, LineFrom,
         BroadcastResponse, TxHash, Trim, OptionalAmount, ConfirmedFor;
    var p, role := f.norm.payouts[|f.lines|], f.norm.role;
    var req := Normalize(ItemRequest(p), role).value;
    SubmittedRequest(p, role);
    NormalizeGood(ItemRequest(p), role);
    SubmitMoves(cfg, w, pid, f, req);
    var w1 := RunWorld(w, pid, w.store, w.locks.runs, f, Some(Call(req, Locking)));
    var w2, r := CallConfirms(cfg, w1, pid, req, view);
    PathJoin(cfg, w, w1, w2);
    var signer, h :| TxHash(h) && r == BroadcastResponse(req, signer, ConfirmedTx(h));
    ConfirmedAnswer(p, role, req, signer, h);
    line := LineFrom(p, r);
    CollectMoves(cfg, w2, pid, f, Call(req, Returned(r)));
    w' := RunWorld(w2, pid, w2.store, w2.locks.runs, f.(lines := f.lines + [line]), None);
    PathJoin(cfg, w, w2, w');
  }

  ghost function PayoutIds(n: NormRun): set<string> {
    set k | 0 <= k < |n.payouts| :: n.payouts[k].id
  }

  ghost predicate AllConfirmedFor(n: NormRun, lines: seq<Line>) {
    |lines| <= |n.payouts| && forall k :: 0 <= k < |lines| ==> ConfirmedFor(n.payouts[k], lines[k])
  }

  lemma {:induction false} LinesConfirm(cfg: Config, w: World, pid: nat, f: RunFrame,
                                        views: seq<View>) returns (w': World, lines: seq<Line>)
    requires RunAt(w, pid, f) && f.pc == RunLines && (f.norm.role == PAYOUT || f.norm.role == ESCROW) &&
             GoodPayouts(f.norm)
    requires AllConfirmedFor(f.norm, f.lines) && Payable(cfg, w, f.norm, views, |f.lines|)
    ensures Path(cfg, w, w') && w'.locks == w.locks && w'.store.runs == w.store.runs &&
            w'.store.challenges == w.store.challenges
    ensures w'.procs == w.procs[pid := w.procs[pid].(run := Some(f.(lines := lines)), call := None)]
    ensures |lines| == |f.norm.payouts| && AllConfirmedFor(f.norm, lines)
    ensures w'.store.requests.Keys <= w.store.requests.Keys + PayoutIds(f.norm)
    decreases |f.norm.payouts| - |f.lines|
  {
    hide Path, PayableLine, ConfirmedFor, NormalPayout;
    var k := |f.lines|;
    if k == |f.norm.payouts| {
      w', lines := w, f.lines;
      PathSame(cfg, w);
    } else {
      var w1, line := LineConfirms(cfg, w, pid, f, views[k]);
      var g := f.(lines := f.lines + [line]);
      StillPayable(cfg, w, w1, f.norm, views, k);
      assert f.norm.payouts[k].id in PayoutIds(f.norm);
      w', lines := LinesConfirm(cfg, w1, pid, g, views);
      PathJoin(cfg, w, w1, w');
    }
  }

  lemma StillPayable(cfg: Config, w: World, w': World, n: NormRun, views: seq<View>, k: nat)
    requires k < |n.payouts| && GoodPayouts(n) && Payable(cfg, w, n, views, k) && w'.locks == w.locks
    requires w'.store.requests.Keys == w.store.requests.Keys + {n.payouts[k].id}
    ensures Payable(cfg, w', n, views, k + 1)
  {
    hide Normalize, PreflightFor, GoodView, ParseUint, NormalPayout;
    forall j | k + 1 <= j < |n.payouts| ensures PayableLine(cfg, w', n.role, n.payouts[j], views[j]) {
      assert PayableLine(cfg, w, n.role, n.payouts[j], views[j]);
      assert n.payouts[k].id != n.payouts[j].id;
    }
  }

  /** A run as it starts, on a rail where nobody holds it and nothing is stored for it, can confirm every line. */
  lemma RunConfirms(cfg: Config, w: World, pid: nat, f: RunFrame, views: seq<View>) returns (w': World, g: RunFrame)
    requires RunAt(w, pid, f) && f.pc == RunLocking && f.lines == [] && PlanOk(f.norm, f.plan) && f.plan.ok
    requires f.plan.runId !in w.locks.runs && f.plan.runId !in w.store.runs && Payable(cfg, w, f.norm, views, 0)
    ensures Path(cfg, w, w') && w'.locks == w.locks && w'.store.challenges == w.store.challenges
    ensures w'.procs == w.procs[pid := w.procs[pid].(run := Some(g), call := None)]
    ensures g.pc.RunReturned? && g.pc.answer == ExecutedRun(f.plan, g.lines) && |g.lines| == |f.norm.payouts| &&
            AllConfirmedFor(f.norm, g.lines)
    ensures w'.store.runs == w.store.runs[f.plan.runId := RunRecord(f.norm, f.norm, g.pc.answer)]
    ensures w'.store.requests.Keys <= w.store.requests.Keys + PayoutIds(f.norm)
  {
    hide PayoutIds, Path, RunStep, DecideRun, Payable, ExecutedRun, AllConfirmedFor;
    RunAcquireMoves(cfg, w, pid, f);
    var w1 := RunWorld(w, pid, w.store, w.locks.runs[f.plan.runId := pid], f.(pc := RunReading), None);
    RunReadMoves(cfg, w1, pid, f.(pc := RunReading));
    NothingStored(f);
    var w2 := RunWorld(w1, pid, w1.store, w1.locks.runs, f.(pc := RunLines), None);
    PathJoin(cfg, w, w1, w2);
    SamePayable(cfg, w, w2, f.norm, views);
    assert AllConfirmedFor(f.norm, []) by { NoneConfirmed(f.norm); }
    var w3, lines := LinesConfirm(cfg, w2, pid, f.(pc := RunLines), views);
    PathJoin(cfg, w, w2, w3);
    w', g := RunFinishes(cfg, w, w3, pid, RunFrame(f.norm, f.plan, lines, RunLines));
  }

  lemma NoneConfirmed(n: NormRun)
    ensures AllConfirmedFor(n, [])
  {
  }

  lemma NothingStored(f: RunFrame)
    ensures DecideRun(None, f.norm, f.plan) == None
  {
  }

  lemma SamePayable(cfg: Config, w: World, w': World, n: NormRun, views: seq<View>)
    requires Payable(cfg, w, n, views, 0) && w'.locks.requests == w.locks.requests &&
             w'.store.requests == w.store.requests
    ensures Payable(cfg, w', n, views, 0)
  {
    hide Normalize, PreflightFor, GoodView, ParseUint;
    forall j | 0 <= j < |n.payouts| ensures PayableLine(cfg, w', n.role, n.payouts[j], views[j]) {
      assert PayableLine(cfg, w, n.role, n.payouts[j], views[j]);
    }
  }

  lemma RunFinishes(cfg: Config, w0: World, w: World, pid: nat, f: RunFrame) returns (w': World, g: RunFrame)
    requires Path(cfg, w0, w) && RunAt(w, pid, f) && f.pc == RunLines && |f.lines| == |f.norm.payouts|
    ensures Path(cfg, w0, w') && w'.locks == w.locks.(runs := w.locks.runs - {f.plan.runId}) &&
            w'.store.challenges == w.store.challenges
    ensures w'.procs == w.procs[pid := w.procs[pid].(run := Some(g), call := None)]
    ensures g == f.(pc := RunReturned(ExecutedRun(f.plan, f.lines)))
    ensures w'.store.runs == w.store.runs[f.plan.runId := RunRecord(f.norm, f.norm, g.pc.answer)]
    ensures w'.store.requests == w.store.requests
  {
    hide Path, RunStep, ExecutedRun;
    var r := ExecutedRun(f.plan, f.lines);
    FinishMoves(cfg, w, pid, f);
    var w1 := RunWorld(w, pid, w.store, w.locks.runs, f.(pc := RunWriting(r)), None);
    RunWriteMoves(cfg, w1, pid, f.(pc := RunWriting(r)));
    var s := w1.store.(runs := w1.store.runs[f.plan.runId := RunRecord(f.norm, f.norm, r)]);
    var w2 := RunWorld(w1, pid, s, w1.locks.runs, f.(pc := RunUnlocking(r)), None);
    RunReleaseMoves(cfg, w2, pid, f.(pc := RunUnlocking(r)));
    g := f.(pc := RunReturned(r));
    w' := RunWorld(w2, pid, s, w2.locks.runs - {f.plan.runId}, g, None);
    PathJoin(cfg, w0, w, w1);
    PathJoin(cfg, w0, w1, w2);
    PathJoin(cfg, w0, w2, w');
  }

  // ---------------------------------------------------------------- the challenge

  /** A run that confirmed every payout confirms the challenge that handed it over. */
  lemma ConfirmsChallenge(plan: ChallengePlan, topUp: Option<TopUp>, run: RunResponse)
    requires ReadyPlan(plan) && RunAnswers(Prepare(plan.runRequest).0.payouts, run) && AllConfirmed(run.lines)
    requires forall i :: 0 <= i < |plan.norm.transfers| ==> ChallengeRuns.Kept(plan.norm.transfers[i])
    ensures ExecutedChallenge(plan.response.(topUp := topUp), plan.norm.transfers, run).status == Confirmed
  {
    hide ReadyPlan, Prepare, ExecutedChallenge, IdsDistinct, PayoutIdsDistinct, RunPayouts, OwnResults, BucketsHold,
         ChallengeRuns.Kept, ValidRunHeader, Trim, AllConfirmed, TallyLines, Count, Class, Answers, AllExecuted;
    var ts := plan.norm.transfers;
    ReadyPayouts(plan);
    AuditComplete.PositiveRequested(plan);
    RefinesCore(plan, topUp, run);
    AuditComplete.KeptPrefix(ts, |ts|);
    assert ts[..|ts|] == ts;
    AnswersExecuted(Prepare(plan.runRequest).0.payouts, run.lines);
    TallyCounts(run.lines);
    CountAll(run.lines, IsConfirmed);
    ConfirmedClass(run.lines);
  }

  lemma AnswersExecuted(payouts: seq<Payout>, lines: seq<Line>)
    requires Answered(payouts, lines)
    ensures AllExecuted(lines)
  {
    hide ExecutedLine;
    forall i | 0 <= i < |lines| ensures ExecutedLine(lines[i]) {
      assert Answers(payouts[i], lines[i]);
    }
  }

  lemma ConfirmedRunAnswers(n: NormRun, plan: RunResponse, lines: seq<Line>)
    requires AllConfirmedFor(n, lines) && |lines| == |n.payouts| <= plan.requested && plan.requested > 0
    ensures var r := ExecutedRun(plan, lines); RunAnswers(n.payouts, r) && AllConfirmed(r.lines)
  {
    hide Answers, ExecutedRun, TallyLines;
    ExecutedRunForm(plan, lines);
    forall j | 0 <= j < |lines| ensures Answers(n.payouts[j], lines[j]) && lines[j].status == Confirmed {
      assert ConfirmedFor(n.payouts[j], lines[j]);
    }
  }

  /** A rail on which nobody works on a challenge or its run, and nothing is stored for either. */
  predicate Idle(w: World, id: string) {
    id !in w.locks.challenges && id !in w.locks.runs && id !in w.store.challenges && id !in w.store.runs
  }

  ghost predicate Stored(w: World, n: NormChallenge) {
    n.runId in w.store.challenges && w.store.challenges[n.runId].request == n &&
    w.store.challenges[n.runId].response.status == Confirmed
  }

  /** A response whose challenge needed a top-up. */
  predicate ToppedUp(r: ChallengeResponse) {
    r.topUp.Some? && r.topUp.value.required
  }

  /** Nothing appeared but locks and records under the challenge id, and request records under the given ids. */
  ghost predicate Within(w: World, w': World, id: string, ids: set<string>) {
    w'.locks.requests == w.locks.requests && w'.locks.runs == w.locks.runs &&
    w'.locks.challenges.Keys <= w.locks.challenges.Keys + {id} &&
    w'.store.requests.Keys <= w.store.requests.Keys + ids && w'.store.runs.Keys <= w.store.runs.Keys + {id} &&
    w'.store.challenges.Keys <= w.store.challenges.Keys + {id}
  }

  /** The request ids a challenge may send under: its payouts and its top-up. */
  ghost function SendIds(plan: ChallengePlan): set<string> {
    PayoutIds(Prepare(plan.runRequest).0) +
    (if plan.response.topUp.Some? && TopUpRequest(plan).Some? then {TopUpRequest(plan).value.id} else {})
  }

  /** What a required top-up needs: a fresh id of its own, a cleared escrow account, and a need that fits in 64 bits. */
  ghost predicate TopUpPayable(cfg: Config, w: World, plan: ChallengePlan, v: View, escrow: View) {
    plan.response.topUp.Some? && TopUpRequest(plan).Some? && Untouched(w, TopUpRequest(plan).value.id) &&
    (forall i :: 0 <= i < |plan.norm.transfers| ==> plan.norm.transfers[i].id != TopUpRequest(plan).value.id) &&
    GoodView(cfg, escrow) && PreflightFor(cfg, ESCROW, escrow, TopUpRequest(plan).value.amount).Cleared? &&
    Need(cfg, PlanRun(cfg, v, plan.runRequest).1) < TWO64 &&
    (cfg.escrowAddress == "" || IsWoloAddress(cfg.escrowAddress))
  }

  /**
   * What a challenge needs from the network: an accepted plan, a payable top-up if one is due, and a cleared preflight
   * for each line.
   */
  ghost predicate Fundable(cfg: Config, w: World, request: ChallengeRequest, v: View, escrow: View, views: seq<View>) {
    var plan := PlanChallenge(cfg, w.store.chain, v, request);
    GoodView(cfg, v) && plan.response.ok && (ToppedUp(plan.response) ==> TopUpPayable(cfg, w, plan, v, escrow)) &&
    Idle(w, plan.norm.runId) &&
    (forall i :: 0 <= i < |plan.norm.transfers| ==> ChallengeRuns.Kept(plan.norm.transfers[i])) &&
    Payable(cfg, w, Prepare(plan.runRequest).0, views, 0)
  }

  /**
   * Progress. From every reachable state, a challenge whose plan is accepted, whose amounts are readable, whose ids are
   * untouched, whose top-up, if one is due, and whose lines clear their preflights has a behaviour in which every send
   * confirms and the challenge ends up stored as confirmed.
   */
  lemma AcceptedChallengeCanConfirm(cfg: Config, w: World, request: ChallengeRequest, v: View, escrow: View,
                                    views: seq<View>)
    returns (w': World)
    requires Reachable(cfg, w) && Fundable(cfg, w, request, v, escrow, views)
    ensures Reachable(cfg, w') && Path(cfg, w, w')
    ensures var plan := PlanChallenge(cfg, w.store.chain, v, request);
            Stored(w', plan.norm) &&
            (!ToppedUp(plan.response) ==> !ToppedUp(w'.store.challenges[plan.norm.runId].response)) &&
            Within(w, w', plan.norm.runId, SendIds(plan))
  {
    hide *;
    var plan := PlanChallenge(cfg, w.store.chain, v, request);
    PathSame(cfg, w);
    PathSafe(cfg, w, w);
    assert plan.response.ok by { FundableOk(cfg, w, request, v, escrow, views); }
    AcceptedIsReady(cfg, w.store.chain, v, request);
    var pid := FreshPid(w.procs.Keys);
    FundableParts(cfg, w, request, v, escrow, views);
    var again := RunViewOk(cfg, w, request, v, escrow, views);
    StartedChallenge(cfg, w, request, v);
    var f := ChallengeFrame(plan, plan.response.topUp, ChallengeLocking);
    ChallengeStartsAlone(cfg, w, pid, request, v, f);
    var w1 := w.(procs := w.procs[pid := Process(Some(f), None, None)]);
    StartedIdle(cfg, w, pid, f, Prepare(plan.runRequest).0, views);
    if ToppedUp(plan.response) {
      StartedTopUp(cfg, w, pid, f, v, escrow);
    }
    w' := SettlesConfirmed(cfg, w, w1, pid, plan, v, escrow, again, views);
    SpawnWithin(w, pid, f, w', plan.norm.runId, SendIds(plan));
    PathSafe(cfg, w, w');
  }

  lemma SpawnWithin(w: World, pid: nat, f: ChallengeFrame, w': World, id: string, ids: set<string>)
    requires Within(w.(procs := w.procs[pid := Process(Some(f), None, None)]), w', id, ids)
    ensures Within(w, w', id, ids)
  {
  }

  lemma FundableOk(cfg: Config, w: World, request: ChallengeRequest, v: View, escrow: View, views: seq<View>)
    requires Fundable(cfg, w, request, v, escrow, views)
    ensures PlanChallenge(cfg, w.store.chain, v, request).response.ok
  {
    hide PlanChallenge, GoodView, Payable, ChallengeRuns.Kept, Prepare, Idle, TopUpPayable;
  }

  lemma FundableParts(cfg: Config, w: World, request: ChallengeRequest, v: View, escrow: View, views: seq<View>)
    requires Fundable(cfg, w, request, v, escrow, views) && ReadyPlan(PlanChallenge(cfg, w.store.chain, v, request))
    ensures var plan := PlanChallenge(cfg, w.store.chain, v, request);
            GoodView(cfg, v) && plan.norm.runId != "" && Idle(w, plan.norm.runId) &&
            Payable(cfg, w, Prepare(plan.runRequest).0, views, 0) &&
            (forall i :: 0 <= i < |plan.norm.transfers| ==> ChallengeRuns.Kept(plan.norm.transfers[i])) &&
            (ToppedUp(plan.response) ==> TopUpPayable(cfg, w, plan, v, escrow))
  {
    hide PlanChallenge, GoodView, Payable, ReadyPlan, ChallengeRuns.Kept, Prepare, Trim, TopUpPayable, ToppedUp;
    var plan := PlanChallenge(cfg, w.store.chain, v, request);
    ReadyPayouts(plan);
    PrepareFacts(plan.runRequest);
    NonEmptyId(plan.runRequest);
  }

  lemma NonEmptyId(r: RunRequest)
    requires ValidRunHeader(r)
    ensures Trim(r.runId) != ""
  {
    hide Trim;
  }

  lemma StartedIdle(cfg: Config, w: World, pid: nat, f: ChallengeFrame, n: NormRun, views: seq<View>)
    requires Idle(w, f.plan.norm.runId) && Payable(cfg, w, n, views, 0)
    ensures var w' := w.(procs := w.procs[pid := Process(Some(f), None, None)]);
            ChallengeAt(w', pid, f) && Idle(w', f.plan.norm.runId) && Payable(cfg, w', n, views, 0)
  {
    hide Payable;
    SamePayable(cfg, w, w.(procs := w.procs[pid := Process(Some(f), None, None)]), n, views);
  }

  lemma StartedTopUp(cfg: Config, w: World, pid: nat, f: ChallengeFrame, v: View, escrow: View)
    requires TopUpPayable(cfg, w, f.plan, v, escrow)
    ensures TopUpPayable(cfg, w.(procs := w.procs[pid := Process(Some(f), None, None)]), f.plan, v, escrow)
  {
    hide TopUpRequest, GoodView, PreflightFor, Need, PlanRun, IsWoloAddress;
  }

  // ---------------------------------------------------------------- the run, planned again

  /** The view the run is planned again with: the same, or the same with the top-up credited. */
  lemma RunViewOk(cfg: Config, w: World, request: ChallengeRequest, v: View, escrow: View,
                  views: seq<View>) returns (again: View)
    requires Fundable(cfg, w, request, v, escrow, views)
    ensures GoodView(cfg, again) && PlanRun(cfg, again, PlanChallenge(cfg, w.store.chain, v, request).runRequest).1.ok
  {
    hide *;
    var plan := PlanChallenge(cfg, w.store.chain, v, request);
    FundableOk(cfg, w, request, v, escrow, views);
    AcceptedIsReady(cfg, w.store.chain, v, request);
    FundableParts(cfg, w, request, v, escrow, views);
    var ds, acc := AcceptedPlan(cfg, w.store.chain, v, request);
    var run := PlanRun(cfg, v, plan.runRequest).1;
    JudgedRun(plan, ds, acc, run, PlanTopUp(cfg, v, plan.norm.runId, run));
    if ToppedUp(plan.response) {
      TopUpParts(cfg, w, plan, v, escrow);
      HasBalance(cfg, v, plan.norm.runId, run, plan.response);
      TopUpAdmitsRun(cfg, v, plan.norm.runId, plan.runRequest);
      again := Credited(v, plan.response.topUp.value.amount);
      SameKeys(cfg, v, again, plan.response.topUp.value.amount);
    } else {
      again := v;
    }
  }

  lemma TopUpParts(cfg: Config, w: World, plan: ChallengePlan, v: View, escrow: View)
    requires TopUpPayable(cfg, w, plan, v, escrow)
    ensures Need(cfg, PlanRun(cfg, v, plan.runRequest).1) < TWO64 &&
            (cfg.escrowAddress == "" || IsWoloAddress(cfg.escrowAddress))
  {
    hide TopUpRequest, GoodView, PreflightFor, Need, PlanRun, IsWoloAddress;
  }

  lemma HasBalance(cfg: Config, v: View, sid: string, run: RunResponse, r: ChallengeResponse)
    requires r.topUp == PlanTopUp(cfg, v, sid, run) && ToppedUp(r)
    ensures run.payoutBalanceBefore.Some? && PlanTopUp(cfg, v, sid, run).Some? &&
            PlanTopUp(cfg, v, sid, run).value.required
    ensures r.topUp.Some? && r.topUp.value == PlanTopUp(cfg, v, sid, run).value
  {
    hide RequiredBalance, TopUpId, Trim;
  }

  lemma SameKeys(cfg: Config, v: View, v': View, amount: U64)
    requires GoodView(cfg, v) && v' == Credited(v, amount)
    ensures GoodView(cfg, v')
  {
    hide GoodKey;
  }

  lemma JudgedRun(plan: ChallengePlan, ds: seq<Funding.Deposit>, acc: Acc, run: RunResponse, topUp: Option<TopUp>)
    requires plan.response == FinalizeChallenge(JudgePlan(LinesPlanned(plan.norm, ds, acc), run, topUp)) &&
             plan.response.ok
    ensures plan.response.topUp == topUp && (!ToppedUp(plan.response) ==> run.ok)
  {
    hide FinalizeChallenge, JudgePlan;
    JudgeKeeps(LinesPlanned(plan.norm, ds, acc), run, topUp);
    FinalizeChallengeKeeps(JudgePlan(LinesPlanned(plan.norm, ds, acc), run, topUp));
  }

  // ---------------------------------------------------------------- the challenge's own steps

  /** From its lock to its stored record. */
  lemma SettlesConfirmed(cfg: Config, w0: World, w: World, pid: nat, plan: ChallengePlan, v: View, escrow: View,
                         again: View, views: seq<View>)
    returns (w': World)
    requires Path(cfg, w0, w) && ChallengeAt(w, pid, ChallengeFrame(plan, plan.response.topUp, ChallengeLocking)) &&
             Idle(w, plan.norm.runId)
    requires ReadyPlan(plan) && (ToppedUp(plan.response) ==> TopUpPayable(cfg, w, plan, v, escrow))
    requires GoodView(cfg, again) && PlanRun(cfg, again, plan.runRequest).1.ok &&
             Payable(cfg, w, Prepare(plan.runRequest).0, views, 0)
    requires forall i :: 0 <= i < |plan.norm.transfers| ==> ChallengeRuns.Kept(plan.norm.transfers[i])
    ensures Path(cfg, w0, w') && Stored(w', plan.norm)
    ensures !ToppedUp(plan.response) ==> !ToppedUp(w'.store.challenges[plan.norm.runId].response)
    ensures Within(w, w', plan.norm.runId, SendIds(plan))
  {
    hide Path, ChallengeStep, ReadyPlan, GoodView, PlanRun, Payable, Prepare, ChallengeRuns.Kept, DecideChallenge,
         RefusedChallenge, TopUpPayable, Stored, PayoutIds, TopUpRequest;
    var f, id := ChallengeFrame(plan, plan.response.topUp, ChallengeLocking), plan.norm.runId;
    PlanIsOk(plan);
    ChallengeAcquires(cfg, w, pid, f);
    var w1 := ChallengeWorld(w, pid, w.store, w.locks.challenges[id := pid], f.(pc := ChallengeReading), None, None);
    ChallengeReads(cfg, w1, pid, f.(pc := ChallengeReading));
    NoChallengeStored(plan.norm);
    PathJoin(cfg, w0, w, w1);
    if ToppedUp(plan.response) {
      var w2 := ChallengeWorld(w1, pid, w1.store, w1.locks.challenges, f.(pc := ToppingUp), None, None);
      PathJoin(cfg, w0, w1, w2);
      SameTopUp(cfg, w, w2, plan, v, escrow);
      var w3, topUp := TopUpConfirms(cfg, w0, w2, pid, plan, v, escrow);
      TopUpDueId(cfg, w2, plan, v, escrow);
      PayableAfterTopUp(cfg, w, w3, plan, v, escrow, views);
      w' := PaysConfirmed(cfg, w0, w3, pid, plan, Some(topUp), again, views);
    } else {
      var w2 := ChallengeWorld(w1, pid, w1.store, w1.locks.challenges, f.(pc := Paying), None, None);
      PathJoin(cfg, w0, w1, w2);
      SamePayable(cfg, w, w2, Prepare(plan.runRequest).0, views);
      w' := PaysConfirmed(cfg, w0, w2, pid, plan, plan.response.topUp, again, views);
    }
  }

  lemma TopUpDueId(cfg: Config, w: World, plan: ChallengePlan, v: View, escrow: View)
    requires TopUpPayable(cfg, w, plan, v, escrow)
    ensures plan.response.topUp.Some? && TopUpRequest(plan).Some?
  {
    hide TopUpRequest, GoodView, PreflightFor, Need, PlanRun, IsWoloAddress;
  }

  lemma SameTopUp(cfg: Config, w: World, w': World, plan: ChallengePlan, v: View, escrow: View)
    requires TopUpPayable(cfg, w, plan, v, escrow) && w'.locks.requests == w.locks.requests &&
             w'.store.requests == w.store.requests
    ensures TopUpPayable(cfg, w', plan, v, escrow)
  {
    hide TopUpRequest, GoodView, PreflightFor, Need, PlanRun, IsWoloAddress;
  }

  /** The escrow transfer of a required top-up, confirmed, lets the challenge go on to pay. */
  lemma TopUpConfirms(cfg: Config, w0: World, w: World, pid: nat, plan: ChallengePlan, v: View,
                      escrow: View) returns (w': World, topUp: TopUp)
    requires Path(cfg, w0, w) && TopUpPayable(cfg, w, plan, v, escrow)
    requires ChallengeAt(w, pid, ChallengeFrame(plan, plan.response.topUp, ToppingUp))
    ensures Path(cfg, w0, w') && w'.locks == w.locks && w'.store.runs == w.store.runs &&
            w'.store.challenges == w.store.challenges
    ensures w'.procs == w.procs[pid := Process(Some(ChallengeFrame(plan, Some(topUp), Paying)), None, None)]
    ensures w'.store.requests.Keys == w.store.requests.Keys + {TopUpRequest(plan).value.id}
  {
    hide Path, ChallengeStep, Normalize, PreflightFor, GoodView, Need, PlanRun, IsWoloAddress, BroadcastResponse,
         TxHash, GoodRequest, ParseUint, FailedTopUp;
    var f, req := ChallengeFrame(plan, plan.response.topUp, ToppingUp), TopUpRequest(plan).value;
    TopUpReadable(plan, req);
    TopUpSubmits(cfg, w, pid, f, req);
    var w1 := ChallengeWorld(w, pid, w.store, w.locks.challenges, f, None, Some(Call(req, Locking)));
    var w2, r := CallConfirms(cfg, w1, pid, req, escrow);
    PathJoin(cfg, w0, w, w1);
    PathJoin(cfg, w0, w1, w2);
    var signer, h :| TxHash(h) && r == BroadcastResponse(req, signer, ConfirmedTx(h));
    ConfirmedResponse(req, signer, h);
    TopUpCollects(cfg, w2, pid, f, Call(req, Returned(r)), None);
    topUp := SettleTopUp(plan.response.topUp.value, r, None);
    w' := ChallengeWorld(w2, pid, w2.store, w2.locks.challenges, AfterTopUp(f, r, None), None, None);
    PathJoin(cfg, w0, w2, w');
  }

  lemma ConfirmedResponse(req: Request, signer: string, h: string)
    ensures var r := BroadcastResponse(req, signer, ConfirmedTx(h)); r.ok && r.status == Confirmed
  {
  }

  lemma TopUpReadable(plan: ChallengePlan, req: Request)
    requires plan.response.topUp.Some? && TopUpRequest(plan) == Some(req)
    ensures GoodRequest(req) && req.role == ESCROW && ParseUint(req.amount).Some?
  {
    hide Normalize, GoodRequest, ParseUint, FormatUint, TopUpMemo, Trim;
    NormalizeGood(TopUpRaw(plan.norm.runId, plan.response.topUp.value), ESCROW);
    AuditComplete.TopUpText(plan, req);
    ParseFormat(plan.response.topUp.value.amount);
  }

  lemma PayableAfterTopUp(cfg: Config, w: World, w': World, plan: ChallengePlan, v: View, escrow: View,
                          views: seq<View>)
    requires ReadyPlan(plan) && TopUpPayable(cfg, w, plan, v, escrow) &&
             Payable(cfg, w, Prepare(plan.runRequest).0, views, 0)
    requires w'.locks.requests == w.locks.requests &&
             w'.store.requests.Keys == w.store.requests.Keys + {TopUpRequest(plan).value.id}
    ensures Payable(cfg, w', Prepare(plan.runRequest).0, views, 0)
  {
    hide ReadyPlan, Prepare, Normalize, PreflightFor, GoodView, ParseUint, TopUpRequest, Need, PlanRun, IsWoloAddress,
         RunPayouts, ChallengeRuns.Kept, IdsDistinct, PayoutIdsDistinct, ValidRunHeader, Trim;
    var n := Prepare(plan.runRequest).0;
    ReadyPayouts(plan);
    forall j | 0 <= j < |n.payouts| ensures PayableLine(cfg, w', n.role, n.payouts[j], views[j]) {
      assert PayableLine(cfg, w, n.role, n.payouts[j], views[j]);
      var m := PayoutFrom(plan.norm.transfers, j);
      assert plan.norm.transfers[m].id != TopUpRequest(plan).value.id;
    }
  }

  /** From paying to the stored record. */
  lemma PaysConfirmed(cfg: Config, w0: World, w: World, pid: nat, plan: ChallengePlan, topUp: Option<TopUp>,
                      again: View, views: seq<View>)
    returns (w': World)
    requires Path(cfg, w0, w) && ChallengeAt(w, pid, ChallengeFrame(plan, topUp, Paying))
    requires plan.norm.runId !in w.locks.runs && plan.norm.runId !in w.store.runs && ReadyPlan(plan)
    requires GoodView(cfg, again) && PlanRun(cfg, again, plan.runRequest).1.ok &&
             Payable(cfg, w, Prepare(plan.runRequest).0, views, 0)
    requires forall i :: 0 <= i < |plan.norm.transfers| ==> ChallengeRuns.Kept(plan.norm.transfers[i])
    ensures Path(cfg, w0, w') && Stored(w', plan.norm) && w'.store.challenges[plan.norm.runId].response.topUp == topUp
    ensures Within(w, w', plan.norm.runId, PayoutIds(Prepare(plan.runRequest).0))
  {
    hide Path, ChallengeStep, ReadyPlan, GoodView, PlanRun, Payable, Prepare, ExecutedChallenge, ExecutedRun,
         ChallengeRuns.Kept, Trim, IdsDistinct, PayoutIdsDistinct, RunPayouts, ValidRunHeader, AllConfirmedFor, PlanOk,
         RunAnswers, AllConfirmed, OpenRun, LinesGood, RunRecordOk, RunAnswerOk, PayoutIds;
    var paying := ChallengeFrame(plan, topUp, Paying);
    PlanIsOk(plan);
    ReadyPayouts(plan);
    PlannedId(cfg, again, plan.runRequest);
    NonEmptyId(plan.runRequest);
    StartedRun(cfg, plan.runRequest, again);
    var g := RunFrame(PlanRun(cfg, again, plan.runRequest).0, PlanRun(cfg, again, plan.runRequest).1, [], RunLocking);
    NewRunInv(cfg, w.store, w.locks.runs, pid, plan.runRequest, again, g);
    RunStarts(cfg, w, pid, paying, again, g);
    var w1 := ChallengeWorld(w, pid, w.store, w.locks.challenges, paying, Some(g), None);
    PathJoin(cfg, w0, w, w1);
    SamePayable(cfg, w, w1, g.norm, views);
    var w2, done := RunConfirms(cfg, w1, pid, g, views);
    PathJoin(cfg, w0, w1, w2);
    AdmittedCounts(g.norm, g.plan);
    ConfirmedRunAnswers(g.norm, g.plan, done.lines);
    ConfirmsChallenge(plan, topUp, done.pc.answer);
    w' := StoresConfirmed(cfg, w0, w2, pid, paying, done);
  }

  lemma PlanIsOk(plan: ChallengePlan)
    requires ReadyPlan(plan)
    ensures plan.response.ok && plan.response.requested == |plan.norm.transfers|
  {
    hide RunMatches, ValidRunHeader, PaidTransfer;
  }

  lemma NoChallengeStored(n: NormChallenge)
    ensures DecideChallenge(None, n) == None
  {
  }

  lemma AdmittedCounts(n: NormRun, plan: RunResponse)
    requires PlanOk(n, plan) && plan.ok
    ensures plan.requested > 0 && |n.payouts| <= plan.requested
  {
    hide AllPlanned, GoodPayouts, NeedsEscrow;
  }

  lemma StoresConfirmed(cfg: Config, w0: World, w: World, pid: nat, f: ChallengeFrame, g: RunFrame) returns (w': World)
    requires Path(cfg, w0, w) && pid in w.procs && w.procs[pid] == Process(Some(f), Some(g), None) && f.pc == Paying &&
             g.pc.RunReturned?
    requires ExecutedChallenge(Current(f), f.plan.norm.transfers, g.pc.answer).status == Confirmed
    requires f.plan.response.requested == |f.plan.norm.transfers|
    ensures Path(cfg, w0, w') && Stored(w', f.plan.norm) &&
            w'.store.challenges[f.plan.norm.runId].response.topUp == f.topUp
    ensures w'.locks == w.locks && w'.store == w.store.(challenges := w'.store.challenges)
    ensures w'.store.challenges.Keys == w.store.challenges.Keys + {f.plan.norm.runId}
  {
    hide Path, ChallengeStep, ExecutedChallenge, Merge, LinesOf, TallyLines, Buckets, DeriveStatus, Recount;
    var r := ExecutedChallenge(Current(f), f.plan.norm.transfers, g.pc.answer);
    ExecutedChallengeForm(Current(f), f.plan.norm.transfers, g.pc.answer);
    RunCollects(cfg, w, pid, f, g);
    var w1 := ChallengeWorld(w, pid, w.store, w.locks.challenges, f.(pc := ChallengeWriting(r)), None, None);
    ChallengeWrites(cfg, w1, pid, f.(pc := ChallengeWriting(r)));
    var s := w1.store.(challenges := w1.store.challenges[f.plan.norm.runId := ChallengeRecord(f.plan.norm, f.plan.norm,
                                                                                              r)]);
    w' := ChallengeWorld(w1, pid, s, w1.locks.challenges, f.(pc := ChallengeUnlocking(r)), None, None);
    PathJoin(cfg, w0, w, w1);
    PathJoin(cfg, w0, w1, w');
  }
}

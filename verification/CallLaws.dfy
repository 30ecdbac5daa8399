/** Every step of a single transfer keeps the store and its own frame in order. */
module CallLaws {
  import opened Text
  import opened Amounts
  import opened Ids
  import opened Records
  import opened Signers
  import opened Chain
  import opened Transfers
  import opened Runs
  import opened Challenges
  import opened Machine
  import opened Invariants
  import opened Stability

  lemma PreservedSame(s: Store)
    ensures Preserved(s, s)
  {
  }

  /** What everyone else sees of a step: records are preserved, and nothing locked by another process is touched. */
  ghost predicate Local<R>(l: LockTable, l': LockTable, pid: nat, a: map<string, R>, b: map<string, R>) {
    forall q :: q != pid ==> Undisturbed(l, l', q, a, b)
  }

  // ---------------------------------------------------------------- the network

  lemma SendKeeps(s: Store, req: Request, signer: string, v: Verdict, s': Store)
    requires ChainOk(s) && SendStep(s, req, signer, v, s')
    ensures ChainOk(s') && Grows(s.chain, s'.chain) && SendsKept(s.sends, s'.sends)
    ensures s'.requests == s.requests && s'.runs == s.runs && s'.challenges == s.challenges
    ensures v.Hashed() ==> TxHash(v.hash) && v.hash in s'.sends && s'.sends[v.hash] == Send(req, signer)
    ensures v.ConfirmedTx? ==> v.hash in s'.chain && s'.chain[v.hash].success
  {
    hide HonestTx, Carries, TxHash;
  }

  lemma LandKeeps(s: Store, h: string, tx: Tx)
    requires ChainOk(s) && h !in s.chain && MayLand(s.sends, h, tx)
    ensures var s' := s.(chain := s.chain[h := tx]); ChainOk(s') && Grows(s.chain, s'.chain)
  {
    hide HonestTx, Carries;
  }

  lemma NetworkKeeps(cfg: Config, s: Store, s': Store)
    requires StoreOk(cfg, s) && ChainOk(s') && Grows(s.chain, s'.chain) && SendsKept(s.sends, s'.sends)
    requires s'.requests == s.requests && s'.runs == s.runs && s'.challenges == s.challenges
    ensures StoreOk(cfg, s') && Preserved(s, s')
  {
    hide ChainOk, Grows, SendsKept, RequestsOk, ChallengesOk;
    PreservedSame(s);
    RequestsStable(cfg, s, s');
    ChallengesStable(cfg, s, s');
  }

  lemma BroadcastRecord(cfg: Config, s: Store, req: Request, signer: string, v: Verdict)
    requires GoodRequest(req) && (req.role == PAYOUT || req.role == ESCROW) && SignedBy(cfg, req.role, signer)
    requires v.Hashed() ==> TxHash(v.hash) && v.hash in s.sends && s.sends[v.hash] == Send(req, signer)
    requires v.ConfirmedTx? ==> v.hash in s.chain && s.chain[v.hash].success
    ensures RecordOk(cfg, s, req.id, NewRecord(req, signer, BroadcastResponse(req, signer, v)))
  {
    hide GoodRequest, SignedBy, StoredRole;
    RolesStored();
  }

  // ---------------------------------------------------------------- answers

  lemma DecisionOk(cfg: Config, s: Store, req: Request)
    requires RequestsOk(cfg, s) && GoodRequest(req)
    ensures var answer := Decide(if req.id in s.requests then Some(s.requests[req.id]) else None, req);
            if answer.Some? then AnswerOk(s.requests, req, answer.value) else Open(s.requests, req)
  {
    hide GoodRequest, StoredRole, Linked, TxHash;
  }

  lemma PreflightRecord(cfg: Config, s: Store, req: Request, view: View)
    requires GoodRequest(req) && (req.role == PAYOUT || req.role == ESCROW) && GoodView(cfg, view)
    ensures var p := PreflightFor(cfg, req.role, view, req.amount);
            if p.Stopped? then RecordOk(cfg, s, req.id, NewRecord(req, p.signer, Refusal(req, p)))
            else SignedBy(cfg, req.role, p.signer)
  {
    hide GoodRequest, IsWoloAddress, EqualFold, CapacityFault, ReserveFault, ParseUint, StoredRole, LimitsOf;
  }

  // ---------------------------------------------------------------- steps

  lemma WriteKeeps(cfg: Config, s: Store, l: LockTable, pid: nat, c: Call)
    requires StoreOk(cfg, s) && CallInv(cfg, s, l, pid, c) && c.pc.Writing?
    ensures var rec := NewRecord(c.req, c.pc.signer, c.pc.written);
            var s' := s.(requests := s.requests[c.req.id := rec]);
            StoreOk(cfg, s') && Preserved(s, s') && AnswerOk(s'.requests, c.req, c.pc.written) &&
            Local(l, l, pid, s.requests, s'.requests)
  {
    hide ChainOk, RunsOk, ChallengesOk, GoodRequest, SignedBy, Linked, FinalRun, FinalChallenge, Grows, SendsKept,
         TxHash, StoredRole;
    var rec := NewRecord(c.req, c.pc.signer, c.pc.written);
    var s' := s.(requests := s.requests[c.req.id := rec]);
    assert ChainOk(s') by { ChainUnmoved(s, s'); }
    PreservedSame(s);
    assert RequestsKept(s.requests, s'.requests);
    RequestsWritten(cfg, s, c.req.id, rec);
    RunsStable(s, s');
    ChallengesStable(cfg, s, s');
  }

  lemma ChainUnmoved(s: Store, s': Store)
    requires ChainOk(s) && s'.chain == s.chain && s'.sends == s.sends
    ensures ChainOk(s')
  {
    hide Carries, HonestTx;
  }

  lemma RequestsWritten(cfg: Config, s: Store, id: string, rec: Record)
    requires RequestsOk(cfg, s) && RecordOk(cfg, s, id, rec)
    ensures RequestsOk(cfg, s.(requests := s.requests[id := rec]))
  {
    var s' := s.(requests := s.requests[id := rec]);
    forall x | x in s'.requests ensures RecordOk(cfg, s', x, s'.requests[x]) {
      RecordElsewhere(cfg, s, s', x, s'.requests[x]);
    }
  }

  /** A record's own claims look only at the chain and the sends. */
  lemma RecordElsewhere(cfg: Config, s: Store, s': Store, id: string, rec: Record)
    requires s'.chain == s.chain && s'.sends == s.sends
    ensures RecordOk(cfg, s, id, rec) == RecordOk(cfg, s', id, rec)
  {
    hide GoodRequest, ResponseFor, SignedBy, StoredRole;
  }

  /** One step of a single transfer keeps the store in order, changes no final record and keeps its own promises. */
  lemma CallStepKeeps(cfg: Config, pid: nat, act: CallAct, s: Store, l: LockTable, c: Call, s': Store, l': LockTable,
                      c': Call)
    requires StoreOk(cfg, s) && CallInv(cfg, s, l, pid, c) && CallStep(cfg, pid, act, s, l, c, s', l', c')
    ensures StoreOk(cfg, s') && Preserved(s, s') && CallInv(cfg, s', l', pid, c') &&
            Local(l, l', pid, s.requests, s'.requests)
    ensures s'.runs == s.runs && s'.challenges == s.challenges && c'.req == c.req
  {
    hide StoreOk, Preserved, GoodRequest, SignedBy, RecordOk, AnswerOk, Decide, PreflightFor, Refusal,
         BroadcastResponse, NewRecord, Open, SendStep, GoodView;
    PreservedSame(s);
    match act
    case Acquire =>
    case Contended => ContendedAnswer(s, c.req);
    case Read =>
      StoreParts(cfg, s);
      DecisionOk(cfg, s, c.req);
    case Preflight(view) => PreflightRecord(cfg, s, c.req, view);
    case Broadcast(verdict) =>
      StoreParts(cfg, s);
      SendKeeps(s, c.req, c.pc.signer, verdict, s');
      NetworkKeeps(cfg, s, s');
      BroadcastRecord(cfg, s', c.req, c.pc.signer, verdict);
      StillOpen(s, s', c.req);
    case Write => WriteKeeps(cfg, s, l, pid, c);
    case Release =>
  }

  lemma StillOpen(s: Store, s': Store, req: Request)
    requires s'.requests == s.requests && Open(s.requests, req)
    ensures Open(s'.requests, req)
  {
  }

  lemma StoreParts(cfg: Config, s: Store)
    requires StoreOk(cfg, s)
    ensures ChainOk(s) && RequestsOk(cfg, s) && RunsOk(s) && ChallengesOk(cfg, s)
  {
  }

  lemma ContendedAnswer(s: Store, req: Request)
    ensures AnswerOk(s.requests, req, InProgress(req))
  {
  }
}

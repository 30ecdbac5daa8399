/** Payments on the chain: every line that counts as paid has a transaction of its own, and it moved uwolo. */
module Payments {
  import opened Text
  import opened Amounts
  import opened Ids
  import opened Records
  import opened Chain
  import opened Runs
  import opened RunLaws
  import opened Challenges
  import opened ChallengeLaws
  import opened ChallengeRuns
  import opened ChallengeSound
  import opened Audit
  import opened AuditLaws
  import opened Machine
  import opened Once
  import opened Invariants
  import opened Safety
  import opened Theorems
  import opened AuditComplete

  // ---------------------------------------------------------------- one transaction, one request

  lemma HashNamesId(cfg: Config, s: Store, a: string, b: string)
    requires RequestsOk(cfg, s) && a in s.requests && b in s.requests && s.requests[a].response.txHash != ""
    ensures s.requests[a].response.txHash == s.requests[b].response.txHash <==> a == b
  {
    hide GoodRequest, SignedBy, ResponseFor;
    assert RecordOk(cfg, s, a, s.requests[a]) && RecordOk(cfg, s, b, s.requests[b]);
  }

  /** In every reachable state two request records report the same transaction only if they are the same record. */
  lemma OneHashPerId(cfg: Config, ws: seq<World>, steps: seq<Step>, i: nat, a: string, b: string)
    requires Behaviour(cfg, ws, steps) && i < |ws| && a in ws[i].store.requests && b in ws[i].store.requests
    requires ws[i].store.requests[a].response.txHash != ""
    ensures ws[i].store.requests[a].response.txHash == ws[i].store.requests[b].response.txHash <==> a == b
  {
    hide Next, Init, Execution, ProcessesOk, LogOk, OnceInv, ChainOk, RequestsOk, RunsOk, ChallengesOk;
    ReachableInv(cfg, ws, steps, i);
    HashNamesId(cfg, ws[i].store, a, b);
  }

  // ---------------------------------------------------------------- confirmed challenges

  /** A successful transaction under the line's hash moved the amount, in uwolo, from the line's signer. */
  predicate Carried(chain: Ledger, l: Line) {
    l.txHash in chain && chain[l.txHash].success &&
    Transfer(l.signer, l.to, FormatUint(LineAmount(l.amount)), DENOM) in chain[l.txHash].transfers
  }

  /** A line paid for a transfer, by a signer of the payout account. */
  ghost predicate PaidLine(cfg: Config, s: Store, t: NormTransfer, l: Line) {
    l.id == t.id && l.to == t.to && l.amount == t.amount && l.txHash != "" && Carried(s.chain, l) &&
    SignedBy(cfg, PAYOUT, l.signer) && RecordedLine(s.requests, l)
  }

  predicate RecordedLine(requests: Requests, l: Line) {
    l.id in requests && requests[l.id].response.txHash == l.txHash
  }

  ghost predicate AllPaid(cfg: Config, s: Store, rec: ChallengeRecord) {
    |rec.response.moves| == |rec.request.transfers| && IdsDistinct(rec.request.transfers) &&
    forall k :: 0 <= k < |rec.request.transfers| ==>
      PaidLine(cfg, s, rec.request.transfers[k], rec.response.moves[k].line)
  }

  lemma CarriedAmount(tx: Tx, req: Request, signer: string)
    requires Carries(tx, req, signer) && Trim(req.amount) == req.amount
    ensures Transfer(signer, req.to, FormatUint(LineAmount(req.amount)), DENOM) in tx.transfers
  {
    hide Trim, FormatUint, ParseUint, CanonicalAmounts;
    assert OptionalAmount(req.amount) == ParseUint(req.amount) by { ReadableAmount(req.amount); }
  }

  /** The transaction of a recorded hash, once it is on the chain and succeeded. */
  lemma RecordCarried(cfg: Config, s: Store, id: string)
    requires ChainOk(s) && RequestsOk(cfg, s) && id in s.requests && s.requests[id].response.txHash in s.chain
    requires s.requests[id].response.txHash != "" && s.chain[s.requests[id].response.txHash].success
    ensures var req, r := s.requests[id].request, s.requests[id].response;
            Transfer(r.signer, req.to, FormatUint(LineAmount(req.amount)), DENOM) in s.chain[r.txHash].transfers &&
            SignedBy(cfg, StoredRole(req.role), r.signer)
  {
    hide HonestChain, Carries, SignedBy, ResponseFor, StoredRole, RequestIdPattern, IsWoloAddress, Trim, FormatUint,
         LineAmount;
    assert RecordOk(cfg, s, id, s.requests[id]);
    var req, r := s.requests[id].request, s.requests[id].response;
    CarriedAmount(s.chain[r.txHash], req, r.signer);
  }

  lemma PaidLineOf(cfg: Config, s: Store, n: NormRun, ts: seq<NormTransfer>, run: RunResponse, k: nat)
    requires ChainOk(s) && RequestsOk(cfg, s) && FullyPaid(s.requests, n, ts, run) && n.role == PAYOUT && k < |ts|
    ensures PaidLine(cfg, s, ts[k], Merge(ts, run)[k].line)
  {
    hide ChainOk, RequestsOk, FullyPaid, LastLine, Merge, RecordOk, Trim, StoredRole, SignedBy, FormatUint, LineAmount,
         ExecutedLine;
    PaidMoveOf(cfg, s, n, ts, run, k);
    PaidPayout(s.requests, n, ts, run, k);
    ConfirmedLanded(cfg, s, ts[k].id);
    RecordCarried(cfg, s, ts[k].id);
  }

  lemma ConfirmedLanded(cfg: Config, s: Store, id: string)
    requires RequestsOk(cfg, s) && id in s.requests && s.requests[id].response.status == Confirmed
    requires s.requests[id].response.txHash != ""
    ensures s.requests[id].response.txHash in s.chain && s.chain[s.requests[id].response.txHash].success
  {
    hide GoodRequest, SignedBy, ResponseFor;
    assert RecordOk(cfg, s, id, s.requests[id]);
  }

  lemma ConfirmedAllPaid(cfg: Config, s: Store, rec: ChallengeRecord, plan: ChallengePlan, t: Option<TopUp>,
                         run: RunResponse)
    requires ChainOk(s) && RequestsOk(cfg, s) && ConfirmedBy(cfg, s, rec.request, rec.response, plan, t, run) &&
             rec.response.status == Confirmed
    ensures AllPaid(cfg, s, rec)
  {
    hide ChainOk, RequestsOk, TopUpDone, Prepare, ExecutedChallenge, FundingStands, AllocationStands, TopUpPlanned,
         GoodNames, ReadyPlan, FullyPaid, RunAnswerOk, Settles, Merge, SameNames, PaidLine, RunPayouts, IdsDistinct,
         PayoutIdsDistinct, Buckets, ValidRunHeader, Trim;
    var m, ts := Prepare(plan.runRequest).0, rec.request.transfers;
    AnswerIsResponse(s, rec.request.runId, m, run);
    ConfirmedIsFullyPaid(s.requests, plan, t, run);
    ChallengeSteps.ReadyPayouts(plan);
    RunOfSoundPlan(cfg, s, plan);
    FilledBy(plan, t, run);
    forall k | 0 <= k < |ts| ensures PaidLine(cfg, s, ts[k], rec.response.moves[k].line) {
      PaidLineOf(cfg, s, m, ts, run, k);
    }
  }

  lemma StoredAllPaid(cfg: Config, ws: seq<World>, steps: seq<Step>, i: nat, sid: string)
    requires Behaviour(cfg, ws, steps) && i < |ws| && sid in ws[i].store.challenges
    requires ws[i].store.challenges[sid].response.status == Confirmed
    ensures AllPaid(cfg, ws[i].store, ws[i].store.challenges[sid]) && RequestsOk(cfg, ws[i].store)
  {
    hide Next, Init, Execution, ProcessesOk, LogOk, OnceInv, ConfirmedBy, HashesOk, ChainOk, RequestsOk, RunsOk,
         AllPaid;
    ReachableInv(cfg, ws, steps, i);
    var s, rec := ws[i].store, ws[i].store.challenges[sid];
    assert ChallengeRecordOk(cfg, s, sid, rec);
    var plan, t, run :| ConfirmedBy(cfg, s, rec.request, rec.response, plan, t, run);
    ConfirmedAllPaid(cfg, s, rec, plan, t, run);
  }

  /**
   * What confirmed means on the chain. In every reachable state, each transfer of a challenge stored as confirmed has
   * its own successful transaction, in which the payout signer sent the transfer's recipient its amount of uwolo.
   */
  lemma ConfirmedPaysEach(cfg: Config, ws: seq<World>, steps: seq<Step>, i: nat, sid: string)
    requires Behaviour(cfg, ws, steps) && i < |ws| && sid in ws[i].store.challenges
    requires ws[i].store.challenges[sid].response.status == Confirmed
    ensures var s, rec := ws[i].store, ws[i].store.challenges[sid];
            AllPaid(cfg, s, rec) &&
            forall j, k :: 0 <= j < k < |rec.response.moves| ==>
              rec.response.moves[j].line.txHash != rec.response.moves[k].line.txHash
  {
    hide Behaviour, RequestsOk, Carried, SignedBy;
    StoredAllPaid(cfg, ws, steps, i, sid);
    var s, rec := ws[i].store, ws[i].store.challenges[sid];
    var ts, moves := rec.request.transfers, rec.response.moves;
    forall j, k | 0 <= j < k < |moves| ensures moves[j].line.txHash != moves[k].line.txHash {
      LinesMeet(cfg, s, ts[j], moves[j].line, ts[k], moves[k].line);
    }
  }

  lemma LinesMeet(cfg: Config, s: Store, t: NormTransfer, l: Line, t': NormTransfer, l': Line)
    requires RequestsOk(cfg, s) && PaidLine(cfg, s, t, l) && PaidLine(cfg, s, t', l')
    ensures l.txHash == l'.txHash <==> t.id == t'.id
  {
    hide RequestsOk, Carried, SignedBy;
    HashNamesId(cfg, s, t.id, t'.id);
  }

  /**
   * When a payment is made again. Two lines of challenges stored as confirmed, whatever deposits they cite, are paid by
   * one transaction if and only if they carry the same request id.
   */
  lemma PaymentsMeetExactly(cfg: Config, ws: seq<World>, steps: seq<Step>, i: nat, sid: string, j: nat, sid': string,
                            k: nat)
    requires Behaviour(cfg, ws, steps) && i < |ws| && sid in ws[i].store.challenges && sid' in ws[i].store.challenges
    requires ws[i].store.challenges[sid].response.status == Confirmed
    requires ws[i].store.challenges[sid'].response.status == Confirmed
    requires j < |ws[i].store.challenges[sid].request.transfers| &&
             k < |ws[i].store.challenges[sid'].request.transfers|
    ensures var a, b := ws[i].store.challenges[sid], ws[i].store.challenges[sid'];
            |a.response.moves| == |a.request.transfers| && |b.response.moves| == |b.request.transfers| &&
            (a.response.moves[j].line.txHash == b.response.moves[k].line.txHash <==>
             a.request.transfers[j].id == b.request.transfers[k].id)
  {
    hide Behaviour, RequestsOk, PaidLine, IdsDistinct;
    StoredAllPaid(cfg, ws, steps, i, sid);
    StoredAllPaid(cfg, ws, steps, i, sid');
    var a, b := ws[i].store.challenges[sid], ws[i].store.challenges[sid'];
    LinesMeet(cfg, ws[i].store, a.request.transfers[j], a.response.moves[j].line, b.request.transfers[k],
              b.response.moves[k].line);
  }

  // ---------------------------------------------------------------- audited challenges

  /**
   * The audit compares neither denominations nor the transactions of different lines. In every reachable state it need
   * not: each confirmed or accepted line of a challenge that passes was carried in uwolo by the transaction of its own
   * request, and lines with different ids by different transactions.
   */
  lemma AuditedLinesAreCarried(cfg: Config, ws: seq<World>, steps: seq<Step>, i: nat, sid: string,
                               fault: Option<string>)
    requires Behaviour(cfg, ws, steps) && i < |ws| && sid in ws[i].store.challenges
    requires var s := ws[i].store; AuditHolds(Site(cfg, s.chain, fault), s.requests, s.runs, s.challenges[sid])
    ensures var moves := ws[i].store.challenges[sid].response.moves;
            (forall k :: 0 <= k < |moves| && Executed(moves[k].line) ==> Carried(ws[i].store.chain, moves[k].line)) &&
            (forall j, k :: 0 <= j < k < |moves| && Executed(moves[j].line) && Executed(moves[k].line) &&
                            moves[j].line.id != moves[k].line.id ==>
                              moves[j].line.txHash != moves[k].line.txHash)
  {
    hide Next, Init, Execution, ProcessesOk, LogOk, OnceInv, ChainOk, RequestsOk, RunsOk, AuditHolds, Carried, Executed,
         FundingSound, LineSound, Explained, HashedLineOk, HashedTopUpOk;
    ReachableInv(cfg, ws, steps, i);
    var s, rec := ws[i].store, ws[i].store.challenges[sid];
    var site, moves := Site(cfg, s.chain, fault), rec.response.moves;
    AuditSoundness(site, s.requests, s.runs, rec);
    assert ChallengeRecordOk(cfg, s, sid, rec);
    forall k | 0 <= k < |moves| && Executed(moves[k].line)
      ensures Carried(s.chain, moves[k].line) && RecordedLine(s.requests, moves[k].line) && moves[k].line.txHash != ""
    {
      assert HashedLineOk(s.requests, LinesOf(rec.response.moves)[k]);
      assert LinesOf(rec.response.moves)[k] == moves[k].line;
      SoundLineIsCarried(cfg, s, fault, rec, moves[k]);
    }
    forall j, k | 0 <= j < k < |moves| && Executed(moves[j].line) && Executed(moves[k].line) &&
                  moves[j].line.id != moves[k].line.id
      ensures moves[j].line.txHash != moves[k].line.txHash
    {
      HashNamesId(cfg, s, moves[j].line.id, moves[k].line.id);
    }
  }

  lemma SoundLineIsCarried(cfg: Config, s: Store, fault: Option<string>, rec: ChallengeRecord, m: Move)
    requires ChainOk(s) && RequestsOk(cfg, s) && LineSound(Site(cfg, s.chain, fault), s.requests, rec, m)
    requires HashedLineOk(s.requests, m.line)
    ensures Carried(s.chain, m.line) && RecordedLine(s.requests, m.line) && m.line.txHash != ""
  {
    hide ChainOk, RequestsOk, Matches, MoveRequested, LastTransfer, FirstNonEmpty, Trim, Upper, FormatUint, LineAmount,
         SignedBy, StoredRole;
    var l := m.line;
    if l.txHash == "" {
      assert Trim("") == "" && Upper("") == "" by { NoText(); }
    }
    RecordHash(cfg, s, l.id);
    TxHashTrimmed(l.txHash);
    RecordCarried(cfg, s, l.id);
  }

  lemma NoText()
    ensures Trim("") == "" && Upper("") == ""
  {
  }

  lemma RecordHash(cfg: Config, s: Store, id: string)
    requires RequestsOk(cfg, s) && id in s.requests && s.requests[id].response.txHash != ""
    ensures TxHash(s.requests[id].response.txHash)
  {
    hide GoodRequest, Linked, TxHash;
    assert RecordOk(cfg, s, id, s.requests[id]);
  }
}

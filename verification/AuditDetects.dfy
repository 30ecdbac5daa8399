/** What an audit that returns OK rules out, for every stored state and every chain: each stored field it pins. */
module AuditDetects {
  import opened Text
  import opened Amounts
  import opened Records
  import opened Chain
  import opened Runs
  import opened Funding
  import opened Challenges
  import opened ChallengeLaws
  import opened Audit
  import opened AuditLaws
  import opened Machine
  import opened Invariants
  import opened Safety
  import opened Theorems

  // ---------------------------------------------------------------- failed lines

  /** The hash a record reports stands for a transaction that is on the chain and failed. */
  predicate OnChainFailed(chain: Ledger, hash: string) {
    var h := Upper(Trim(hash));
    h in chain && !chain[h].success
  }

  /**
   * No money left for what is stored as failed. If the audit passes, the hash of every failed line, and of a failed
   * top-up that was required, is that of a transaction on the chain that failed.
   */
  lemma FailedDidNotPay(site: Site, requests: Requests, runs: RunStore, rec: ChallengeRecord)
    requires AuditHolds(site, requests, runs, rec)
    ensures forall i ::
              0 <= i < |rec.response.moves| && rec.response.moves[i].line.status == Failed &&
              Trim(rec.response.moves[i].line.txHash) != "" ==>
                OnChainFailed(site.chain, rec.response.moves[i].line.txHash)
    ensures var t := rec.response.topUp;
            t.Some? && t.value.required ==>
              t.value.response.Some? &&
              (t.value.response.value.status == Failed ==> OnChainFailed(site.chain, t.value.response.value.txHash))
  {
    hide MoveHolds, HeaderHolds, FundingHolds, AllocationHolds, TotalsHold, TotalsOf, RunHolds, TopUpHolds, Trim,
         OnChainFailed, AuditedRun;
    forall i | 0 <= i < |rec.response.moves| && rec.response.moves[i].line.status == Failed &&
               Trim(rec.response.moves[i].line.txHash) != ""
      ensures OnChainFailed(site.chain, rec.response.moves[i].line.txHash)
    {
      FailedMove(site, rec.request, AuditedRun(rec, runs), requests, rec.response.moves[i]);
    }
    FailedTopUpFound(site, rec, requests);
  }

  lemma BlankHash()
    ensures Trim("") == ""
  {
  }

  lemma FailedMove(site: Site, n: NormChallenge, stored: Option<RunRecord>, requests: Requests, m: Move)
    requires MoveHolds(site, n, stored, requests, m) && m.line.status == Failed && Trim(m.line.txHash) != ""
    ensures OnChainFailed(site.chain, m.line.txHash)
  {
    hide Trim, Upper, LookupTx, FirstNonEmpty, MoveRequested, MoveRan, LastTransfer;
    BlankHash();
    var l, r := m.line, requests[m.line.id];
    LookupFinds(site, l.txHash, Expect(FirstNonEmpty(l.signer, r.response.signer), l.to, l.amount));
  }

  lemma FailedTopUpFound(site: Site, rec: ChallengeRecord, requests: Requests)
    requires TopUpHolds(site, rec, requests)
    ensures var t := rec.response.topUp;
            t.Some? && t.value.required ==>
              t.value.response.Some? &&
              (t.value.response.value.status == Failed ==> OnChainFailed(site.chain, t.value.response.value.txHash))
  {
    hide Trim, Upper, LookupTx, FirstNonEmpty, FormatUint, TopUpMemo;
    var t := rec.response.topUp;
    if t.Some? && t.value.required {
      var r := t.value.response.value;
      var sender := FirstNonEmpty(t.value.from, r.signer);
      LookupFinds(site, r.txHash, Expect(sender, t.value.to, FormatUint(t.value.amount)));
    }
  }

  /**
   * A payment stored as failed is found out. From any reachable state in which a transaction stands on the chain as a
   * success, in every later one, no challenge with a line stored as failed under that hash passes its audit.
   */
  lemma LandedFailureIsDetected(cfg: Config, ws: seq<World>, steps: seq<Step>, i: nat, j: nat, h: string, sid: string,
                                k: nat, fault: Option<string>)
    requires Behaviour(cfg, ws, steps) && i <= j < |ws| && h in ws[i].store.chain && ws[i].store.chain[h].success
    requires sid in ws[j].store.challenges && k < |ws[j].store.challenges[sid].response.moves|
    requires var l := ws[j].store.challenges[sid].response.moves[k].line;
             l.status == Failed && Trim(l.txHash) != "" && Upper(Trim(l.txHash)) == h
    ensures var s := ws[j].store;
            !AuditHolds(Site(cfg, s.chain, fault), s.requests, s.runs, s.challenges[sid])
  {
    hide Next, Init, Execution, Behaviour, AuditHolds, Trim, Upper, RequestsKept, RunsKept, ChallengesKept;
    RecordsPreserved(cfg, ws, steps, i, j);
    var s := ws[j].store;
    if AuditHolds(Site(cfg, s.chain, fault), s.requests, s.runs, s.challenges[sid]) {
      FailedDidNotPay(Site(cfg, s.chain, fault), s.requests, s.runs, s.challenges[sid]);
    }
  }

  // ---------------------------------------------------------------- the stored response

  /** The exact total of the transfers of one bucket. */
  function BucketTotal(ts: seq<NormTransfer>, bucket: string): nat {
    if |ts| == 0 then 0
    else
      var t := ts[|ts| - 1];
      BucketTotal(ts[..|ts| - 1], bucket) + (if t.bucket == bucket then LineAmount(t.amount) else 0)
  }

  lemma {:induction false} BucketSumIsTotal(ts: seq<NormTransfer>, bucket: string)
    ensures BucketSum(ts, Some(bucket)) == Wrap(BucketTotal(ts, bucket))
    ensures BucketSum(ts, None) == Wrap(TransferTotal(ts))
  {
    hide Wrap, LineAmount;
    if |ts| == 0 {
      WrapSmall(0);
    } else {
      var init, t := ts[..|ts| - 1], ts[|ts| - 1];
      BucketSumIsTotal(init, bucket);
      WrapAdd(BucketTotal(init, bucket), if t.bucket == bucket then LineAmount(t.amount) else 0);
      WrapAdd(TransferTotal(init), LineAmount(t.amount));
    }
  }

  /** The names, counts and totals of a response that are those of its request. */
  ghost predicate HeaderPinned(rec: ChallengeRecord) {
    var n, r := rec.request, rec.response;
    rec.fingerprint == n && Trim(r.runId) == Trim(n.runId) && Trim(r.sourceApp) == Trim(n.sourceApp) &&
    Trim(r.challengeId) == Trim(n.challengeId) && Trim(r.sourceEventId) == Trim(n.sourceEventId) &&
    |r.funding| == |n.funding| == r.fundingVerified && |r.moves| == |n.transfers| &&
    r.requestedTotal == Some(Wrap(TransferTotal(n.transfers))) &&
    BucketOf(r.buckets, WAGER).requested == Wrap(BucketTotal(n.transfers, WAGER)) &&
    BucketOf(r.buckets, GUARANTEE).requested == Wrap(BucketTotal(n.transfers, GUARANTEE))
  }

  /** A stored deposit that reports, case ignored, everything the proven one does. */
  predicate SameDeposit(d: Deposit, proven: Deposit) {
    var same := (a: string, b: string) => Lower(Trim(a)) == Lower(Trim(b));
    same(d.hash, proven.hash) && same(d.sourceApp, proven.sourceApp) && same(d.runId, proven.runId) &&
    same(d.challengeId, proven.challengeId) && same(d.sourceEventId, proven.sourceEventId) &&
    same(d.side, proven.side) && same(d.pid, proven.pid) && same(d.sender, proven.sender) &&
    same(d.escrow, proven.escrow) && same(d.total, proven.total) && same(d.wager, proven.wager) &&
    same(d.guarantee, proven.guarantee)
  }

  ghost predicate FundingPinned(site: Site, rec: ChallengeRecord, ds: seq<Deposit>) {
    |ds| == |rec.response.funding| && rec.response.fundingTotal == Some(Wrap(ProvenTotal(ds))) &&
    forall i :: 0 <= i < |ds| ==> ProvenBy(site.cfg, site.chain, ds[i]) && SameDeposit(rec.response.funding[i], ds[i])
  }

  /**
   * A passing audit pins the response: its names, counts and totals are those of the request, and every stored deposit
   * and the funded total are those its own transactions prove again.
   */
  lemma ResponseIsPinned(site: Site, requests: Requests, runs: RunStore, rec: ChallengeRecord)
    requires AuditHolds(site, requests, runs, rec)
    ensures HeaderPinned(rec) && FundingPinned(site, rec, Verified(site, rec, |rec.request.funding|))
  {
    hide Verified, Reverified, MovesHold, ProvenBy, BucketsExact, Reallocated, RunHolds, TopUpHolds, RoutesHold,
         FundedTotal, StoredAgrees, SameDeposit, Trim, Wrap, TransferTotal, BucketTotal, BucketSum, ProvenTotal;
    var n, ds := rec.request, Verified(site, rec, |rec.request.funding|);
    BucketSumIsTotal(n.transfers, WAGER);
    BucketSumIsTotal(n.transfers, GUARANTEE);
    AllVerified(site, rec, |n.funding|);
    forall i | 0 <= i < |ds|
      ensures ProvenBy(site.cfg, site.chain, ds[i]) && SameDeposit(rec.response.funding[i], ds[i])
    {
      ReverifiedProven(site, rec, i);
      assert DepositHolds(site, rec, i);
      StoredSame(rec.response.funding[i], ds[i]);
    }
    FundedIsProven(site.cfg, site.chain, ds);
  }

  lemma StoredSame(d: Deposit, proven: Deposit)
    requires StoredAgrees(d, proven)
    ensures SameDeposit(d, proven)
  {
    hide Trim, Lower;
  }

  // ---------------------------------------------------------------- the stored run

  /** The run record of the challenge, unaltered since it was fingerprinted, with the totals the response reports. */
  ghost predicate RunPinned(rec: ChallengeRecord, runs: RunStore) {
    match rec.response.run
    case None => rec.response.moves == [] || rec.response.status == Failed
    case Some(run) =>
      rec.request.runId in runs &&
      var stored := runs[rec.request.runId];
      stored.fingerprint == stored.request && Trim(stored.request.runId) == Trim(rec.request.runId) &&
      stored.response.status == run.status && stored.response.requestedTotal == run.requestedTotal &&
      stored.response.tally.confirmedTotal == run.tally.confirmedTotal &&
      forall i :: 0 <= i < |rec.request.transfers| ==> PaysIn(stored.request.payouts, rec.request.transfers[i])
  }

  /** Some payout of the run has the transfer's id, recipient, amount and memo. */
  ghost predicate PaysIn(payouts: seq<Payout>, t: NormTransfer) {
    exists j ::
      0 <= j < |payouts| && payouts[j].id == t.id && Trim(payouts[j].to) == Trim(t.to) &&
      Trim(payouts[j].amount) == Trim(t.amount) && Trim(payouts[j].memo) == Trim(t.memo)
  }

  lemma {:induction false} LastPayoutFound(payouts: seq<Payout>, id: string) returns (j: nat)
    requires LastPayout(payouts, id).Some?
    ensures j < |payouts| && payouts[j].id == id && LastPayout(payouts, id) == Some(payouts[j])
  {
    if payouts[|payouts| - 1].id == id {
      j := |payouts| - 1;
    } else {
      j := LastPayoutFound(payouts[..|payouts| - 1], id);
    }
  }

  lemma {:induction false} LastTransferFound(ts: seq<NormTransfer>, id: string) returns (j: nat)
    requires LastTransfer(ts, id).Some?
    ensures j < |ts| && ts[j].id == id && LastTransfer(ts, id) == Some(ts[j])
  {
    if ts[|ts| - 1].id == id {
      j := |ts| - 1;
    } else {
      j := LastTransferFound(ts[..|ts| - 1], id);
    }
  }

  lemma PayoutFound(payouts: seq<Payout>, t: NormTransfer)
    requires PayoutHolds(LastPayout(payouts, t.id), t)
    ensures PaysIn(payouts, t)
  {
    hide Trim, LastPayout;
    var j := LastPayoutFound(payouts, t.id);
  }

  // ---------------------------------------------------------------- the stored lines

  /** A line of the request: same id, recipient, amount, bucket and reason. */
  ghost predicate Requested(ts: seq<NormTransfer>, m: Move) {
    exists j ::
      0 <= j < |ts| && ts[j].id == m.line.id && Trim(ts[j].to) == Trim(m.line.to) &&
      Trim(ts[j].amount) == Trim(m.line.amount) && Trim(ts[j].bucket) == Trim(m.bucket) &&
      Trim(ts[j].reason) == Trim(m.reason)
  }

  /** A run that is stored with the challenge reports the line's own status and hash, if it reports the line at all. */
  ghost predicate SameInRun(rec: ChallengeRecord, runs: RunStore, l: Line) {
    rec.response.run.Some? && rec.request.runId in runs ==>
      var lines := runs[rec.request.runId].response.lines;
      (exists j :: 0 <= j < |lines| && lines[j].id == l.id) ==>
        exists j ::
          0 <= j < |lines| && lines[j].id == l.id && lines[j].status == l.status &&
          Trim(lines[j].txHash) == Trim(l.txHash)
  }

  /** The request record of a line that was tried or sent: unaltered since it was fingerprinted, and about this line. */
  predicate RecordedAs(requests: Requests, l: Line) {
    l.id in requests &&
    var rec := requests[l.id];
    rec.fingerprint == Fingerprint(rec.request, rec.response.signer) && Trim(rec.request.to) == Trim(l.to) &&
    Trim(rec.request.amount) == Trim(l.amount) && Trim(rec.request.memo) == Trim(l.memo) &&
    Trim(rec.response.txHash) == Trim(l.txHash)
  }

  ghost predicate LinePinned(rec: ChallengeRecord, requests: Requests, runs: RunStore, m: Move) {
    Requested(rec.request.transfers, m) && SameInRun(rec, runs, m.line) &&
    (m.line.attempted || m.line.txHash != "" || m.line.status == Confirmed || m.line.status == Accepted ||
     m.line.id in requests ==>
       RecordedAs(requests, m.line)) &&
    (m.line.status == Confirmed || m.line.status == Accepted ==> Trim(m.line.txHash) != "")
  }

  lemma {:induction false} LastLineFound(lines: seq<Line>, id: string, k: nat) returns (j: nat)
    requires k < |lines| && lines[k].id == id
    ensures j < |lines| && lines[j].id == id && LastLine(lines, id) == Some(lines[j])
  {
    if lines[|lines| - 1].id == id {
      j := |lines| - 1;
    } else {
      j := LastLineFound(lines[..|lines| - 1], id, k);
    }
  }

  lemma MoveIsPinned(site: Site, requests: Requests, runs: RunStore, rec: ChallengeRecord, m: Move)
    requires MoveHolds(site, rec.request, AuditedRun(rec, runs), requests, m)
    ensures LinePinned(rec, requests, runs, m)
  {
    hide Trim, LastTransfer, LastLine, Reconciles, LookupTx, FirstNonEmpty;
    var _ := LastTransferFound(rec.request.transfers, m.line.id);
    if rec.response.run.Some? && rec.request.runId in runs {
      var lines := runs[rec.request.runId].response.lines;
      if k: nat :| k < |lines| && lines[k].id == m.line.id {
        var _ := LastLineFound(lines, m.line.id, k);
      }
    }
  }

  /** The top-up that was required, as its request record has it. */
  ghost predicate TopUpPinned(rec: ChallengeRecord, requests: Requests) {
    var t := rec.response.topUp;
    t.Some? && t.value.required ==>
      t.value.response.Some? && t.value.id in requests &&
      var r, stored := t.value.response.value, requests[t.value.id];
      stored.fingerprint == Fingerprint(stored.request, stored.response.signer) && Trim(r.txHash) != "" &&
      Trim(stored.response.txHash) == Trim(r.txHash) && Trim(r.to) == Trim(t.value.to) &&
      Trim(r.amount) == FormatUint(t.value.amount)
  }

  /** The transaction of a required top-up, with its memo and the transfer of its amount. */
  ghost predicate TopUpBacked(site: Site, rec: ChallengeRecord) {
    var t := rec.response.topUp;
    t.Some? && t.value.required ==>
      t.value.response.Some? &&
      var r := t.value.response.value;
      var h := Upper(Trim(r.txHash));
      TxHash(h) && h in site.chain &&
      (r.status == Confirmed || r.status == Accepted ==> site.chain[h].success) &&
      (Trim(TopUpMemo(rec.request.runId)) != "" ==>
         Trim(site.chain[h].memo) == Trim(TopUpMemo(rec.request.runId))) &&
      exists x ::
        x in site.chain[h].transfers &&
        SentAs(x, FirstNonEmpty(t.value.from, r.signer), t.value.to, FormatUint(t.value.amount))
  }

  lemma TopUpIsPinned(site: Site, requests: Requests, rec: ChallengeRecord)
    requires TopUpHolds(site, rec, requests)
    ensures TopUpPinned(rec, requests) && TopUpBacked(site, rec)
  {
    hide Trim, Upper, TxHash, LookupTx, FirstNonEmpty, FormatUint, TopUpMemo, SentAs, Matches;
    if rec.response.topUp.Some? && rec.response.topUp.value.required {
      var t := rec.response.topUp.value;
      var r := t.response.value;
      var sender, amount := FirstNonEmpty(t.from, r.signer), FormatUint(t.amount);
      ParseFormat(t.amount);
      LookupFinds(site, r.txHash, Expect(sender, t.to, amount));
      MatchedAs(TopUpLookup(site, t, r).matched.value, sender, t.to, amount);
    }
  }

  /**
   * A passing audit pins the records behind the response: the run's, each line's and the top-up's, with the top-up's
   * own transaction. Altering any of the compared fields in any of them makes the audit fail.
   */
  lemma RecordsArePinned(site: Site, requests: Requests, runs: RunStore, rec: ChallengeRecord)
    requires AuditHolds(site, requests, runs, rec)
    ensures RunPinned(rec, runs) && TopUpPinned(rec, requests) && TopUpBacked(site, rec)
    ensures forall i :: 0 <= i < |rec.response.moves| ==> LinePinned(rec, requests, runs, rec.response.moves[i])
  {
    hide HeaderHolds, FundingHolds, AllocationHolds, TotalsHold, TotalsOf, TopUpHolds, MoveHolds, LinePinned, PaysIn,
         PayoutHolds, LastPayout, Trim, TopUpPinned, TopUpBacked, AuditedRun;
    if rec.response.run.Some? {
      var stored := runs[rec.request.runId];
      forall i | 0 <= i < |rec.request.transfers|
        ensures PaysIn(stored.request.payouts, rec.request.transfers[i])
      {
        PayoutFound(stored.request.payouts, rec.request.transfers[i]);
      }
    }
    TopUpIsPinned(site, requests, rec);
    forall i | 0 <= i < |rec.response.moves| ensures LinePinned(rec, requests, runs, rec.response.moves[i]) {
      MoveIsPinned(site, requests, runs, rec, rec.response.moves[i]);
    }
  }
}

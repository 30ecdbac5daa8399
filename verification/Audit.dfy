/**
 * The challenge audit: stored state reconciled with the deposits, the allocation, the run, the transfers
 * and the top-up.
 */
module Audit {
  import opened Text
  import opened Amounts
  import opened Records
  import opened Chain
  import opened Runs
  import opened Funding
  import opened Challenges

  type Requests = map<string, Record>
  type RunStore = map<string, RunRecord>

  /** The chain as the auditor observes it. */
  datatype Site = Site(cfg: Config, chain: Ledger, fault: Option<string>)

  // ---------------------------------------------------------------- the list of checks

  datatype Check = Check(ok: bool, code: string)

  predicate AllPass(items: seq<Check>) {
    forall i :: 0 <= i < |items| ==> items[i].ok
  }

  predicate Same(a: string, b: string) {
    Trim(a) == Trim(b)
  }

  /** settlementChallengeAuditChecks. */
  class AuditChecks {
    var items: seq<Check>

    constructor ()
      ensures items == []
    {
      items := [];
    }

    method Add(ok: bool, code: string)
      modifies this
      ensures items == old(items) + [Check(ok, if ok then "" else Trim(code))]
      ensures AllPass(items) <==> old(AllPass(items)) && ok
    {
      items := items + [Check(ok, if ok then "" else Trim(code))];
      assert items[|items| - 1].ok == ok;
      assert forall i :: 0 <= i < |old(items)| ==> items[i] == old(items[i]);
    }

    method AddEqual(code: string, expected: string, actual: string)
      modifies this
      ensures items == old(items) + [Check(Same(expected, actual), if Same(expected, actual) then "" else Trim(code))]
      ensures AllPass(items) <==> old(AllPass(items)) && Same(expected, actual)
    {
      if Trim(expected) == Trim(actual) {
        Add(true, "");
      } else {
        Add(false, code);
      }
    }

    method Append(more: seq<Check>)
      modifies this
      ensures items == old(items) + more
      ensures AllPass(items) <==> old(AllPass(items)) && AllPass(more)
    {
      items := items + more;
      assert forall i :: 0 <= i < |old(items)| ==> items[i] == old(items[i]);
      assert forall i :: 0 <= i < |more| ==> more[i] == items[|old(items)| + i];
    }

    method Ok() returns (ok: bool)
      ensures ok <==> AllPass(items)
    {
      for i := 0 to |items|
        invariant AllPass(items[..i])
      {
        if !items[i].ok {
          return false;
        }
      }
      assert items[..|items|] == items;
      return true;
    }

    /** The code of the first failed check that has one. */
    method FirstFailureCode() returns (code: string)
      ensures exists i ::
                0 <= i <= |items| && (forall j :: 0 <= j < i ==> !(!items[j].ok && Trim(items[j].code) != "")) &&
                if i == |items| then code == "CHALLENGE_AUDIT_FAILED"
                else !items[i].ok && Trim(items[i].code) != "" && code == items[i].code
    {
      for i := 0 to |items|
        invariant forall j :: 0 <= j < i ==> !(!items[j].ok && Trim(items[j].code) != "")
      {
        if !items[i].ok && Trim(items[i].code) != "" {
          return items[i].code;
        }
      }
      return "CHALLENGE_AUDIT_FAILED";
    }
  }

  // ---------------------------------------------------------------- funding

  /** What the audit expects of a deposit: the request, completed by what the response stored. */
  function AuditExpectation(rec: ChallengeRecord, i: nat): Expectation
    requires i < |rec.request.funding|
  {
    var e := ExpectationOf(rec.request, rec.request.funding[i]);
    if i >= |rec.response.funding| then e
    else
      var d := rec.response.funding[i];
      e.(sender := FirstNonEmpty(e.sender, d.sender), runId := FirstNonEmpty(e.runId, d.runId),
         total := FirstNonEmpty(e.total, d.total),
         wager := FirstNonEmpty(e.wager, d.wager), guarantee := FirstNonEmpty(e.guarantee, d.guarantee))
  }

  function Reverified(site: Site, rec: ChallengeRecord, i: nat): Deposit
    requires i < |rec.request.funding|
  {
    VerifyDeposit(site.cfg, site.chain, site.fault, rec.request.funding[i].hash, AuditExpectation(rec, i))
  }

  predicate FoldEqual(a: string, b: string) {
    EqualFold(Trim(a), Trim(b))
  }

  /** compareStoredChallengeFunding. */
  predicate StoredAgrees(d: Deposit, v: Deposit) {
    FoldEqual(d.hash, v.hash) && FoldEqual(d.sourceApp, v.sourceApp) && FoldEqual(d.runId, v.runId) &&
    FoldEqual(d.challengeId, v.challengeId) && FoldEqual(d.sourceEventId, v.sourceEventId) &&
    FoldEqual(d.side, v.side) &&
    FoldEqual(d.pid, v.pid) && FoldEqual(d.sender, v.sender) && FoldEqual(d.escrow, v.escrow) &&
    FoldEqual(d.total, v.total) &&
    FoldEqual(d.wager, v.wager) && FoldEqual(d.guarantee, v.guarantee)
  }

  predicate DepositHolds(site: Site, rec: ChallengeRecord, i: nat)
    requires i < |rec.request.funding|
  {
    Reverified(site, rec, i).ok &&
    (i < |rec.response.funding| ==> StoredAgrees(rec.response.funding[i], Reverified(site, rec, i)))
  }

  /** The deposits among the first n that verify again. */
  function Verified(site: Site, rec: ChallengeRecord, n: nat): (ds: seq<Deposit>)
    requires n <= |rec.request.funding|
    ensures |ds| <= n
  {
    if n == 0 then []
    else Verified(site, rec, n - 1) + (if Reverified(site, rec, n - 1).ok then [Reverified(site, rec, n - 1)] else [])
  }

  predicate DepositsHold(site: Site, rec: ChallengeRecord, n: nat)
    requires n <= |rec.request.funding|
  {
    forall i :: 0 <= i < n ==> DepositHolds(site, rec, i)
  }

  /** auditChallengeFunding. */
  method AuditFunding(site: Site, rec: ChallengeRecord) returns (verified: seq<Deposit>, total: U64, items: seq<Check>)
    ensures verified == Verified(site, rec, |rec.request.funding|) && total == FundedTotal(verified)
    ensures AllPass(items) <==>
            DepositsHold(site, rec, |rec.request.funding|) && rec.response.fundingVerified == |verified|
  {
    hide VerifyDeposit, StoredAgrees, AuditExpectation, LineAmount, Add;
    var checks := new AuditChecks();
    verified, total := [], 0;
    for i := 0 to |rec.request.funding|
      invariant fresh(checks)
      invariant verified == Verified(site, rec, i) && total == FundedTotal(verified)
      invariant AllPass(checks.items) <==> DepositsHold(site, rec, i)
    {
      var d := Reverified(site, rec, i);
      DepositsHoldNext(site, rec, i);
      if !d.ok {
        checks.Add(false, FirstNonEmpty(d.code, "FUNDING_PROOF_MISMATCH"));
        continue;
      }
      FundedSnoc(verified, d);
      verified := verified + [d];
      total := Amounts.Add(total, LineAmount(d.total));
      checks.Add(true, "");
      if i < |rec.response.funding| {
        if StoredAgrees(rec.response.funding[i], d) {
          checks.Add(true, "");
        } else {
          checks.Add(false, "FUNDING_STATE_MISMATCH");
        }
      }
    }
    checks.Add(rec.response.fundingVerified == |verified|, "FUNDING_COUNT_MISMATCH");
    items := checks.items;
  }

  lemma DepositsHoldNext(site: Site, rec: ChallengeRecord, i: nat)
    requires i < |rec.request.funding|
    ensures DepositsHold(site, rec, i + 1) <==> DepositsHold(site, rec, i) && DepositHolds(site, rec, i)
  {
    hide DepositHolds;
  }

  lemma FundedSnoc(ds: seq<Deposit>, d: Deposit)
    requires d.ok
    ensures FundedTotal(ds + [d]) == Add(FundedTotal(ds), LineAmount(d.total))
  {
    assert (ds + [d])[..|ds|] == ds;
  }

  // ---------------------------------------------------------------- allocation

  /** The transfers' allocation to re-verified deposits; a transfer that cannot be read or placed is left out. */
  function Reallocated(ds: seq<Deposit>, ts: seq<NormTransfer>): Allocation {
    if |ts| == 0 then map[]
    else
      var a, t := Reallocated(ds, ts[..|ts| - 1]), ts[|ts| - 1];
      var r := Resolve(ds, t.side, t.pid);
      if OptionalAmount(t.amount).None? || !r.One? then a
      else
        var key := Key(ds[r.k]);
        a[(key, t.bucket) := Add(Allocated(a, key, t.bucket), LineAmount(t.amount))]
  }

  /** The wrapped total of the readable transfers of one bucket, or of all when none is named. */
  function BucketSum(ts: seq<NormTransfer>, bucket: Option<string>): U64 {
    if |ts| == 0 then 0
    else
      var t := ts[|ts| - 1];
      Add(BucketSum(ts[..|ts| - 1], bucket),
          if bucket == None || bucket == Some(t.bucket) then LineAmount(t.amount) else 0)
  }

  predicate RouteHolds(n: NormChallenge, ds: seq<Deposit>, t: NormTransfer) {
    OptionalAmount(t.amount).Some? && (EqualFold(t.reason, "treasury") ==> Same(n.treasury, t.to)) &&
    Resolve(ds, t.side, t.pid).One?
  }

  predicate RoutesHold(n: NormChallenge, ds: seq<Deposit>, k: nat)
    requires k <= |n.transfers|
  {
    forall i :: 0 <= i < k ==> RouteHolds(n, ds, n.transfers[i])
  }

  datatype Totals = Totals(total: U64, wager: U64, guarantee: U64)

  function TotalsOf(ts: seq<NormTransfer>): Totals {
    Totals(BucketSum(ts, None), BucketSum(ts, Some(WAGER)), BucketSum(ts, Some(GUARANTEE)))
  }

  lemma AllocationSnoc(ds: seq<Deposit>, ts: seq<NormTransfer>, t: NormTransfer)
    ensures Reallocated(ds, ts + [t]) ==
            var a, r := Reallocated(ds, ts), Resolve(ds, t.side, t.pid);
            if OptionalAmount(t.amount).None? || !r.One? then a
            else a[(Key(ds[r.k]), t.bucket) := Add(Allocated(a, Key(ds[r.k]), t.bucket), LineAmount(t.amount))]
    ensures forall b ::
              BucketSum(ts + [t], b) == Add(BucketSum(ts, b),
                                            if b == None || b == Some(t.bucket) then LineAmount(t.amount) else 0)
  {
    assert (ts + [t])[..|ts|] == ts;
  }

  lemma AddNothing(x: U64)
    ensures Add(x, 0) == x
  {
  }

  /** auditChallengeBucketAllocation. */
  method AuditAllocation(n: NormChallenge, ds: seq<Deposit>) returns (totals: Totals, items: seq<Check>)
    ensures totals == TotalsOf(n.transfers)
    ensures AllPass(items) <==> RoutesHold(n, ds, |n.transfers|) && BucketsExact(ds, Reallocated(ds, n.transfers))
  {
    hide Resolve, Key, OptionalAmount, Amounts.Add, BucketsExact, EqualFold, Same, Reallocated, BucketSum, Allocated,
         RoutesHold;
    var checks := new AuditChecks();
    var allocation: Allocation := map[];
    totals := Totals(0, 0, 0);
    NothingAllocated(ds);
    assert RoutesHold(n, ds, 0) by { RoutesHoldFirst(n, ds); }
    assert n.transfers[..0] == [];
    for i := 0 to |n.transfers|
      invariant fresh(checks)
      invariant totals == TotalsOf(n.transfers[..i]) && allocation == Reallocated(ds, n.transfers[..i])
      invariant AllPass(checks.items) <==> RoutesHold(n, ds, i)
    {
      var t := n.transfers[i];
      AllocationSnoc(ds, n.transfers[..i], t);
      RoutesHoldNext(n, ds, i);
      assert n.transfers[..i] + [t] == n.transfers[..i + 1];
      AddNothing(totals.total);
      AddNothing(totals.wager);
      AddNothing(totals.guarantee);
      if OptionalAmount(t.amount).None? {
        checks.Add(false, "INVALID_TRANSFER_AMOUNT");
        continue;
      }
      var amount := OptionalAmount(t.amount).value;
      totals := totals.(total := Amounts.Add(totals.total, amount));
      if t.bucket == WAGER {
        totals := totals.(wager := Amounts.Add(totals.wager, amount));
      } else if t.bucket == GUARANTEE {
        totals := totals.(guarantee := Amounts.Add(totals.guarantee, amount));
      }
      if EqualFold(t.reason, "treasury") {
        checks.AddEqual("TREASURY_ROUTE_MISMATCH", n.treasury, t.to);
      }
      var owner := Resolve(ds, t.side, t.pid);
      if !owner.One? {
        checks.Add(false, "TRANSFER_FUNDING_MISMATCH");
        continue;
      }
      var slot := (Key(ds[owner.k]), t.bucket);
      allocation := allocation[slot := Amounts.Add(Allocated(allocation, slot.0, slot.1), amount)];
    }
    assert n.transfers[..|n.transfers|] == n.transfers;
    checks.Add(BucketsExact(ds, allocation), "BUCKET_ALLOCATION_MISMATCH");
    items := checks.items;
  }

  lemma RoutesHoldFirst(n: NormChallenge, ds: seq<Deposit>)
    ensures RoutesHold(n, ds, 0)
  {
  }

  lemma RoutesHoldNext(n: NormChallenge, ds: seq<Deposit>, i: nat)
    requires i < |n.transfers|
    ensures RoutesHold(n, ds, i + 1) <==> RoutesHold(n, ds, i) && RouteHolds(n, ds, n.transfers[i])
  {
    hide RouteHolds;
  }

  lemma NothingAllocated(ds: seq<Deposit>)
    ensures Reallocated(ds, []) == map[] && forall b :: BucketSum([], b) == 0
  {
  }

  // ---------------------------------------------------------------- the grouped run

  function LastPayout(payouts: seq<Payout>, id: string): Option<Payout> {
    if |payouts| == 0 then None
    else if payouts[|payouts| - 1].id == id then Some(payouts[|payouts| - 1])
    else LastPayout(payouts[..|payouts| - 1], id)
  }

  function LastTransfer(ts: seq<NormTransfer>, id: string): Option<NormTransfer> {
    if |ts| == 0 then None
    else if ts[|ts| - 1].id == id then Some(ts[|ts| - 1])
    else LastTransfer(ts[..|ts| - 1], id)
  }

  predicate PayoutHolds(p: Option<Payout>, t: NormTransfer) {
    p.Some? && Same(t.to, p.value.to) && Same(t.amount, p.value.amount) && Same(t.memo, p.value.memo)
  }

  predicate PayoutsHold(payouts: seq<Payout>, ts: seq<NormTransfer>) {
    forall i :: 0 <= i < |ts| ==> PayoutHolds(LastPayout(payouts, ts[i].id), ts[i])
  }

  predicate RunRecordHolds(n: NormChallenge, run: RunResponse, stored: RunRecord) {
    stored.fingerprint == stored.request && Same(stored.request.runId, n.runId) &&
    stored.response.status == run.status &&
    stored.response.requestedTotal == run.requestedTotal &&
    stored.response.tally.confirmedTotal == run.tally.confirmedTotal &&
    PayoutsHold(stored.request.payouts, n.transfers)
  }

  predicate RunHolds(rec: ChallengeRecord, runs: RunStore) {
    if rec.response.run.None? then |rec.response.moves| == 0 || rec.response.status == Failed
    else rec.request.runId in runs && RunRecordHolds(rec.request, rec.response.run.value, runs[rec.request.runId])
  }

  /** The run record the later checks read, if any. */
  function AuditedRun(rec: ChallengeRecord, runs: RunStore): Option<RunRecord> {
    if rec.response.run.Some? && rec.request.runId in runs then Some(runs[rec.request.runId]) else None
  }

  /** auditChallengeRunState. */
  method AuditRunState(rec: ChallengeRecord, runs: RunStore) returns (stored: Option<RunRecord>, items: seq<Check>)
    ensures stored == AuditedRun(rec, runs)
    ensures AllPass(items) <==> RunHolds(rec, runs)
  {
    hide Same, LastPayout;
    var checks := new AuditChecks();
    if rec.response.run.None? {
      checks.Add(|rec.response.moves| == 0 || rec.response.status == Failed, "RUN_STATE_MISSING");
      return None, checks.items;
    }
    if rec.request.runId !in runs {
      checks.Add(false, "RUN_STATE_MISSING");
      return None, checks.items;
    }
    var run := rec.response.run.value;
    var found := runs[rec.request.runId];
    checks.Add(true, "");
    checks.Add(found.fingerprint == found.request, "RUN_STATE_FINGERPRINT_MISMATCH");
    checks.AddEqual("RUN_STATE_MISMATCH", found.request.runId, rec.request.runId);
    checks.Add(found.response.status == run.status, "RUN_STATE_MISMATCH");
    checks.Add(found.response.requestedTotal == run.requestedTotal, "RUN_STATE_MISMATCH");
    checks.Add(found.response.tally.confirmedTotal == run.tally.confirmedTotal, "RUN_STATE_MISMATCH");
    var payouts := AuditPayouts(found.request.payouts, rec.request.transfers);
    checks.Append(payouts);
    return Some(found), checks.items;
  }

  method AuditPayouts(payouts: seq<Payout>, ts: seq<NormTransfer>) returns (items: seq<Check>)
    ensures AllPass(items) <==> PayoutsHold(payouts, ts)
  {
    hide Same, LastPayout, PayoutsHold, Indexed;
    var byId: map<string, Payout> := map[];
    NothingIndexed(payouts[..0]);
    for i := 0 to |payouts|
      invariant Indexed(payouts[..i], byId)
    {
      IndexedNext(payouts[..i], byId, payouts[i]);
      assert payouts[..i] + [payouts[i]] == payouts[..i + 1];
      byId := byId[payouts[i].id := payouts[i]];
    }
    assert payouts[..|payouts|] == payouts;
    var checks := new AuditChecks();
    NoTransfers(payouts, ts[..0]);
    for i := 0 to |ts|
      invariant fresh(checks)
      invariant AllPass(checks.items) <==> PayoutsHold(payouts, ts[..i])
    {
      var t := ts[i];
      PayoutsHoldNext(payouts, ts, i);
      IndexedAt(payouts, byId, t.id);
      if t.id !in byId {
        checks.Add(false, "RUN_STATE_MISMATCH");
        continue;
      }
      var p := byId[t.id];
      checks.AddEqual("RUN_STATE_MISMATCH", t.to, p.to);
      checks.AddEqual("RUN_STATE_MISMATCH", t.amount, p.amount);
      checks.AddEqual("RUN_STATE_MISMATCH", t.memo, p.memo);
    }
    assert ts[..|ts|] == ts;
    items := checks.items;
  }

  lemma NothingIndexed(none: seq<Payout>)
    requires none == []
    ensures Indexed(none, map[])
  {
  }

  lemma NoTransfers(payouts: seq<Payout>, none: seq<NormTransfer>)
    requires none == []
    ensures PayoutsHold(payouts, none)
  {
  }

  lemma IndexedAt(payouts: seq<Payout>, byId: map<string, Payout>, id: string)
    requires Indexed(payouts, byId)
    ensures LastPayout(payouts, id) == if id in byId then Some(byId[id]) else None
  {
    hide LastPayout;
  }

  /** The index maps each id to its last payout. */
  ghost predicate Indexed(payouts: seq<Payout>, byId: map<string, Payout>) {
    forall id :: LastPayout(payouts, id) == if id in byId then Some(byId[id]) else None
  }

  lemma IndexedNext(payouts: seq<Payout>, byId: map<string, Payout>, p: Payout)
    requires Indexed(payouts, byId)
    ensures Indexed(payouts + [p], byId[p.id := p])
  {
    var ps := payouts + [p];
    assert ps[..|ps| - 1] == payouts;
    forall id ensures LastPayout(ps, id) == if id in byId[p.id := p] then Some(byId[p.id := p][id]) else None {
      assert LastPayout(payouts, id) == if id in byId then Some(byId[id]) else None;
    }
  }

  lemma PayoutsHoldNext(payouts: seq<Payout>, ts: seq<NormTransfer>, i: nat)
    requires i < |ts|
    ensures PayoutsHold(payouts, ts[..i + 1]) <==>
            PayoutsHold(payouts, ts[..i]) && PayoutHolds(LastPayout(payouts, ts[i].id), ts[i])
  {
    hide PayoutHolds, LastPayout;
    assert forall j :: 0 <= j < i ==> ts[..i + 1][j] == ts[..i][j];
    assert ts[..i + 1][i] == ts[i];
  }

  // ---------------------------------------------------------------- transfers

  /** shouldHaveSettlementRequestState. */
  predicate NeedsRecord(l: Line) {
    l.attempted || l.txHash != "" || l.status == Confirmed || l.status == Accepted
  }

  /** auditLookupMismatch reports nothing. */
  predicate Reconciles(l: Lookup, status: Status, memo: string) {
    l.ok && l.matched.Some? && (status == Confirmed || status == Accepted ==> l.success) &&
    (status == Failed ==> !l.success) &&
    (Trim(memo) != "" ==> Same(l.memo, memo))
  }

  predicate MoveRequested(t: Option<NormTransfer>, m: Move) {
    t.Some? && Same(t.value.to, m.line.to) && Same(t.value.amount, m.line.amount) && Same(t.value.bucket, m.bucket) &&
    Same(t.value.reason, m.reason)
  }

  predicate MoveRan(stored: Option<RunRecord>, m: Move) {
    var l := if stored.Some? then LastLine(stored.value.response.lines, m.line.id) else None;
    l.Some? ==> l.value.status == m.line.status && Same(l.value.txHash, m.line.txHash)
  }

  function MoveLookup(site: Site, record: Record, l: Line): Lookup {
    LookupTx(site.cfg, site.chain, site.fault, l.txHash,
             Expect(FirstNonEmpty(l.signer, record.response.signer), l.to, l.amount))
  }

  predicate MoveSettled(site: Site, record: Record, l: Line) {
    record.fingerprint == Fingerprint(record.request, record.response.signer) && Same(record.request.to, l.to) &&
    Same(record.request.amount, l.amount) && Same(record.request.memo, l.memo) &&
    Same(record.response.txHash, l.txHash) &&
    if Trim(l.txHash) == "" then l.status != Confirmed && l.status != Accepted
    else Reconciles(MoveLookup(site, record, l), l.status, l.memo)
  }

  predicate MoveHolds(site: Site, n: NormChallenge, stored: Option<RunRecord>, requests: Requests, m: Move) {
    MoveRequested(LastTransfer(n.transfers, m.line.id), m) && MoveRan(stored, m) &&
    if m.line.id in requests then MoveSettled(site, requests[m.line.id], m.line) else !NeedsRecord(m.line)
  }

  predicate MovesHold(site: Site, n: NormChallenge, stored: Option<RunRecord>, requests: Requests, moves: seq<Move>) {
    forall i :: 0 <= i < |moves| ==> MoveHolds(site, n, stored, requests, moves[i])
  }

  lemma MovesHoldNext(site: Site, n: NormChallenge, stored: Option<RunRecord>, requests: Requests, moves: seq<Move>,
                      i: nat)
    requires i < |moves|
    ensures MovesHold(site, n, stored, requests, moves[..i + 1]) <==>
            MovesHold(site, n, stored, requests, moves[..i]) && MoveHolds(site, n, stored, requests, moves[i])
  {
    hide MoveHolds;
    assert forall j :: 0 <= j < i ==> moves[..i + 1][j] == moves[..i][j];
    assert moves[..i + 1][i] == moves[i];
  }

  /** auditChallengeTransfers. */
  method AuditTransfers(site: Site, n: NormChallenge, stored: Option<RunRecord>, requests: Requests,
                        moves: seq<Move>) returns (items: seq<Check>)
    ensures AllPass(items) <==> MovesHold(site, n, stored, requests, moves)
  {
    hide MoveHolds;
    var checks := new AuditChecks();
    for i := 0 to |moves|
      invariant fresh(checks)
      invariant AllPass(checks.items) <==> MovesHold(site, n, stored, requests, moves[..i])
    {
      MovesHoldNext(site, n, stored, requests, moves, i);
      var more := AuditMove(site, n, stored, requests, moves[i]);
      checks.Append(more);
    }
    assert moves[..|moves|] == moves;
    items := checks.items;
  }

  /** One pass of the transfer loop. */
  method AuditMove(site: Site, n: NormChallenge, stored: Option<RunRecord>, requests: Requests,
                   m: Move) returns (items: seq<Check>)
    ensures AllPass(items) <==> MoveHolds(site, n, stored, requests, m)
  {
    hide Same, LastTransfer, LastLine, LookupTx, Reconciles, Trim, FirstNonEmpty;
    var checks := new AuditChecks();
    var t := LastTransfer(n.transfers, m.line.id);
    if t.None? {
      checks.Add(false, "TRANSFER_STATE_MISMATCH");
    } else {
      checks.AddEqual("TRANSFER_STATE_MISMATCH", t.value.to, m.line.to);
      checks.AddEqual("TRANSFER_STATE_MISMATCH", t.value.amount, m.line.amount);
      checks.AddEqual("TRANSFER_STATE_MISMATCH", t.value.bucket, m.bucket);
      checks.AddEqual("TRANSFER_STATE_MISMATCH", t.value.reason, m.reason);
    }
    var ran := if stored.Some? then LastLine(stored.value.response.lines, m.line.id) else None;
    if ran.Some? {
      checks.Add(ran.value.status == m.line.status, "RUN_STATE_MISMATCH");
      checks.AddEqual("RUN_STATE_MISMATCH", ran.value.txHash, m.line.txHash);
    }
    assert AllPass(checks.items) <==> MoveRequested(t, m) && MoveRan(stored, m);
    if m.line.id !in requests {
      checks.Add(!NeedsRecord(m.line), "TRANSFER_STATE_MISSING");
      return checks.items;
    }
    hide MoveRequested, MoveRan;
    var settled := AuditSettled(site, requests[m.line.id], m.line);
    checks.Append(settled);
    return checks.items;
  }

  method AuditSettled(site: Site, record: Record, l: Line) returns (items: seq<Check>)
    ensures AllPass(items) <==> MoveSettled(site, record, l)
  {
    hide Same, LookupTx, Reconciles, Trim, FirstNonEmpty;
    var checks := new AuditChecks();
    checks.Add(true, "");
    checks.Add(record.fingerprint == Fingerprint(record.request, record.response.signer),
               "TRANSFER_STATE_FINGERPRINT_MISMATCH");
    checks.AddEqual("TRANSFER_STATE_MISMATCH", record.request.to, l.to);
    checks.AddEqual("TRANSFER_STATE_MISMATCH", record.request.amount, l.amount);
    checks.AddEqual("TRANSFER_STATE_MISMATCH", record.request.memo, l.memo);
    checks.AddEqual("TRANSFER_STATE_MISMATCH", record.response.txHash, l.txHash);
    if Trim(l.txHash) == "" {
      if l.status == Confirmed || l.status == Accepted {
        checks.Add(false, "TRANSFER_TX_MISSING");
      }
    } else {
      checks.Add(Reconciles(MoveLookup(site, record, l), l.status, l.memo), "TRANSFER_TX_MISMATCH");
    }
    return checks.items;
  }

  // ---------------------------------------------------------------- the top-up

  function TopUpLookup(site: Site, t: TopUp, r: Response): Lookup {
    LookupTx(site.cfg, site.chain, site.fault, r.txHash,
             Expect(FirstNonEmpty(t.from, r.signer), t.to, FormatUint(t.amount)))
  }

  predicate TopUpSettled(site: Site, sid: string, requests: Requests, t: TopUp, r: Response) {
    Same(FormatUint(t.amount), r.amount) && Same(t.to, r.to) && t.id in requests &&
    requests[t.id].fingerprint == Fingerprint(requests[t.id].request, requests[t.id].response.signer) &&
    Same(requests[t.id].response.txHash, r.txHash) && Trim(r.txHash) != "" &&
    Reconciles(TopUpLookup(site, t, r), r.status, TopUpMemo(sid))
  }

  predicate TopUpHolds(site: Site, rec: ChallengeRecord, requests: Requests) {
    var t := rec.response.topUp;
    t.Some? && t.value.required ==>
      t.value.response.Some? && TopUpSettled(site, rec.request.runId, requests, t.value, t.value.response.value)
  }

  /** auditChallengeTopUp. */
  method AuditTopUp(site: Site, rec: ChallengeRecord, requests: Requests) returns (items: seq<Check>)
    ensures AllPass(items) <==> TopUpHolds(site, rec, requests)
  {
    hide Same, LookupTx, Reconciles, Trim, FirstNonEmpty, FormatUint, TopUpMemo;
    var checks := new AuditChecks();
    checks.Add(true, "");
    if rec.response.topUp.None? || !rec.response.topUp.value.required {
      return checks.items;
    }
    var t := rec.response.topUp.value;
    if t.response.None? {
      checks.Add(false, "TOP_UP_STATE_MISSING");
      return checks.items;
    }
    var r := t.response.value;
    checks.AddEqual("TOP_UP_STATE_MISMATCH", FormatUint(t.amount), r.amount);
    checks.AddEqual("TOP_UP_STATE_MISMATCH", t.to, r.to);
    if t.id !in requests {
      checks.Add(false, "TOP_UP_STATE_MISSING");
      return checks.items;
    }
    var record := requests[t.id];
    checks.Add(record.fingerprint == Fingerprint(record.request, record.response.signer),
               "TOP_UP_STATE_FINGERPRINT_MISMATCH");
    checks.AddEqual("TOP_UP_STATE_MISMATCH", record.response.txHash, r.txHash);
    if Trim(r.txHash) == "" {
      checks.Add(false, "TOP_UP_TX_MISSING");
      return checks.items;
    }
    checks.Add(Reconciles(TopUpLookup(site, t, r), r.status, TopUpMemo(rec.request.runId)), "TOP_UP_TX_MISMATCH");
    return checks.items;
  }

  // ---------------------------------------------------------------- the whole audit

  predicate HeaderHolds(rec: ChallengeRecord) {
    var n, r := rec.request, rec.response;
    rec.fingerprint == n && Same(r.runId, n.runId) && Same(r.sourceApp, n.sourceApp) &&
    Same(r.challengeId, n.challengeId) &&
    Same(r.sourceEventId, n.sourceEventId) && |n.funding| == |r.funding| && |n.transfers| == |r.moves|
  }

  predicate TotalsHold(r: ChallengeResponse, totals: Totals) {
    r.requestedTotal == Some(totals.total) && BucketOf(r.buckets, WAGER).requested == totals.wager &&
    BucketOf(r.buckets, GUARANTEE).requested == totals.guarantee
  }

  predicate FundingHolds(site: Site, rec: ChallengeRecord) {
    var ds := Verified(site, rec, |rec.request.funding|);
    DepositsHold(site, rec, |rec.request.funding|) && rec.response.fundingVerified == |ds| &&
    rec.response.fundingTotal == Some(FundedTotal(ds))
  }

  predicate AllocationHolds(site: Site, rec: ChallengeRecord) {
    var n, ds := rec.request, Verified(site, rec, |rec.request.funding|);
    RoutesHold(n, ds, |n.transfers|) && BucketsExact(ds, Reallocated(ds, n.transfers))
  }

  /** Every check the audit makes of a stored challenge passes. */
  predicate AuditHolds(site: Site, requests: Requests, runs: RunStore, rec: ChallengeRecord) {
    HeaderHolds(rec) && FundingHolds(site, rec) && AllocationHolds(site, rec) &&
    TotalsHold(rec.response, TotalsOf(rec.request.transfers)) &&
    RunHolds(rec, runs) && MovesHold(site, rec.request, AuditedRun(rec, runs), requests, rec.response.moves) &&
    TopUpHolds(site, rec, requests)
  }

  datatype AuditResult = AuditResult(ok: bool, code: string)

  /**
   * auditSettlementChallenge: the audit is OK exactly when every check passes, and a missing record is
   * reported as such.
   */
  method AuditChallenge(site: Site, requests: Requests, runs: RunStore, challenges: map<string, ChallengeRecord>,
                        sid: string)
    returns (result: AuditResult)
    ensures result.ok <==> Trim(sid) in challenges && AuditHolds(site, requests, runs, challenges[Trim(sid)])
    ensures Trim(sid) !in challenges ==> result.code == "CHALLENGE_STATE_NOT_FOUND"
  {
    hide HeaderHolds, DepositsHold, RoutesHold, BucketsExact, RunHolds, MovesHold, TopUpHolds, Trim, FundedTotal,
         Verified, BucketSum, Same, Reallocated, AuditedRun;
    if Trim(sid) !in challenges {
      return AuditResult(false, "CHALLENGE_STATE_NOT_FOUND");
    }
    var rec := challenges[Trim(sid)];
    var checks := new AuditChecks();
    checks.Add(true, "");
    var header := AuditHeader(rec);
    checks.Append(header);
    var verified, total, funding := AuditFunding(site, rec);
    checks.Append(funding);
    checks.Add(rec.response.fundingTotal == Some(total), "FUNDING_TOTAL_MISMATCH");
    var totals, allocation := AuditAllocation(rec.request, verified);
    checks.Append(allocation);
    checks.Add(rec.response.requestedTotal == Some(totals.total), "REQUESTED_TOTAL_MISMATCH");
    checks.Add(BucketOf(rec.response.buckets, WAGER).requested == totals.wager, "BUCKET_TOTAL_MISMATCH");
    checks.Add(BucketOf(rec.response.buckets, GUARANTEE).requested == totals.guarantee, "BUCKET_TOTAL_MISMATCH");
    var stored, run := AuditRunState(rec, runs);
    checks.Append(run);
    var transfers := AuditTransfers(site, rec.request, stored, requests, rec.response.moves);
    checks.Append(transfers);
    var topUp := AuditTopUp(site, rec, requests);
    checks.Append(topUp);
    var ok := checks.Ok();
    var code := "";
    if !ok {
      code := checks.FirstFailureCode();
    }
    result := AuditResult(ok, code);
  }

  method AuditHeader(rec: ChallengeRecord) returns (items: seq<Check>)
    ensures AllPass(items) <==> HeaderHolds(rec)
  {
    hide Same;
    var checks := new AuditChecks();
    checks.Add(rec.fingerprint == rec.request, "CHALLENGE_STATE_FINGERPRINT_MISMATCH");
    checks.AddEqual("CHALLENGE_STATE_MISMATCH", rec.response.runId, rec.request.runId);
    checks.AddEqual("CHALLENGE_STATE_MISMATCH", rec.response.sourceApp, rec.request.sourceApp);
    checks.AddEqual("CHALLENGE_STATE_MISMATCH", rec.response.challengeId, rec.request.challengeId);
    checks.AddEqual("CHALLENGE_STATE_MISMATCH", rec.response.sourceEventId, rec.request.sourceEventId);
    checks.Add(|rec.request.funding| == |rec.response.funding|, "FUNDING_COUNT_MISMATCH");
    checks.Add(|rec.request.transfers| == |rec.response.moves|, "TRANSFER_STATE_MISMATCH");
    return checks.items;
  }
}

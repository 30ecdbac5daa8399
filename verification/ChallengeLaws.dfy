/** What a challenge settlement promises: conservation of every bucket and agreement with the run that pays it. */
module ChallengeLaws {
  import opened Text
  import opened Amounts
  import opened Ids
  import opened Records
  import opened Chain
  import opened Signers
  import opened Runs
  import opened RunLaws
  import opened Memo
  import opened Funding
  import opened Challenges

  // ---------------------------------------------------------------- treasury lines

  /** A line with reason treasury goes to the treasury, ignoring case, if there is one. */
  predicate Routed(treasury: string, reason: string, to: string) {
    Lower(reason) == "treasury" && treasury != "" ==> Lower(to) == Lower(treasury)
  }

  ghost predicate AllRouted(treasury: string, ts: seq<NormTransfer>) {
    forall i :: 0 <= i < |ts| ==> Routed(treasury, ts[i].reason, ts[i].to)
  }

  lemma TreasuryWord()
    ensures Lower("treasury") == "treasury"
  {
  }

  lemma RoutedSnoc(ds: seq<Deposit>, sid: string, memo: string, treasury: string, acc: Acc, t: TransferInput)
    requires |acc.moves| == |acc.transfers| && AllRouted(treasury, acc.transfers)
    requires NoInvalidMove(PlanTransfer(ds, sid, memo, treasury, acc, t).moves)
    ensures AllRouted(treasury, PlanTransfer(ds, sid, memo, treasury, acc, t).transfers)
  {
    hide PlanTransfer, NormalTransfer, ValidTransfer, Resolve, PlannedMove, Lower, Key, Add;
    TreasuryWord();
    PlanTransferAppends(ds, sid, memo, treasury, acc, t);
  }

  lemma MovesBefore(ds: seq<Deposit>, sid: string, memo: string, treasury: string, acc: Acc, t: TransferInput)
    requires NoInvalidMove(PlanTransfer(ds, sid, memo, treasury, acc, t).moves)
    ensures NoInvalidMove(acc.moves)
  {
    hide NormalTransfer, Resolve, TransferFault, Key, Add, AmountOf;
    var after := PlanTransfer(ds, sid, memo, treasury, acc, t).moves;
    assert forall i :: 0 <= i < |acc.moves| ==> after[i] == acc.moves[i];
  }

  lemma {:induction false} PlanRouted(ds: seq<Deposit>, sid: string, memo: string, treasury: string,
                                      ts: seq<TransferInput>)
    requires NoInvalidMove(PlanTransfers(ds, sid, memo, treasury, ts).moves)
    ensures AllRouted(treasury, PlanTransfers(ds, sid, memo, treasury, ts).transfers)
  {
    hide PlanTransfers, PlanTransfer, NoInvalidMove, Routed;
    PlanTransfersSnoc(ds, sid, memo, treasury, ts, 0);
    if |ts| > 0 {
      var before := PlanTransfers(ds, sid, memo, treasury, ts[..|ts| - 1]);
      PlanTransfersSnoc(ds, sid, memo, treasury, ts, |ts| - 1);
      assert ts[..|ts|] == ts;
      MovesBefore(ds, sid, memo, treasury, before, ts[|ts| - 1]);
      PlanRouted(ds, sid, memo, treasury, ts[..|ts| - 1]);
      RoutedSnoc(ds, sid, memo, treasury, before, ts[|ts| - 1]);
    } else {
      assert ts[..0] == ts;
    }
  }

  /**
   * A line otherwise in order is refused, for its route, exactly when it is a treasury line that goes elsewhere; it
   * then spends nothing and is not paid.
   */
  lemma MisroutedExactly(ds: seq<Deposit>, sid: string, memo: string, treasury: string, acc: Acc, t: TransferInput)
    requires |acc.moves| == |acc.transfers|
    requires var n := NormalTransfer(t, sid, |acc.transfers|, memo, treasury);
             ValidTransfer(n) && Resolve(ds, n.side, n.pid).One? && n.id !in acc.seen
    ensures var n := NormalTransfer(t, sid, |acc.transfers|, memo, treasury);
            var after := PlanTransfer(ds, sid, memo, treasury, acc, t);
            |after.moves| == |acc.moves| + 1 &&
            var line := after.moves[|acc.moves|].line;
            line.ok && line.id == n.id && line.to == n.to && line.amount == n.amount &&
            if Routed(treasury, n.reason, n.to) then
              line.outcome == Ready && line.failureCode == "" && after.payouts == acc.payouts + [PayoutOf(n)]
            else
              line.outcome == Invalid && line.failureCode == "INVALID_TREASURY_ROUTE" &&
              after == acc.(transfers := after.transfers, moves := after.moves)
    ensures var n := NormalTransfer(t, sid, |acc.transfers|, memo, treasury);
            n.to == if Trim(t.to) != "" then Trim(t.to) else if n.reason == "treasury" then treasury else ""
  {
    hide NormalTransfer, Key, Wrap, ValidTransfer, Resolve, Lower, Add, Allocated, AmountOf;
    TreasuryWord();
    NormalRecipient(t, sid, |acc.transfers|, memo, treasury);
  }

  /** A treasury line that names no recipient goes to the treasury. */
  lemma NormalRecipient(t: TransferInput, sid: string, index: nat, memo: string, treasury: string)
    ensures var n := NormalTransfer(t, sid, index, memo, treasury);
            n.to == if Trim(t.to) != "" then Trim(t.to) else if n.reason == "treasury" then treasury else ""
  {
    hide Trim, Lower, NormalizeAmount, MoveId;
  }

  /** Where the treasury lines of accepted requests go: to the request's treasury, or else to the configured one. */
  lemma AcceptedTreasury(cfg: Config, chain: Ledger, v: View, request: ChallengeRequest)
    requires LinesAccepted(PlanChallenge(cfg, chain, v, request))
    ensures var n := PlanChallenge(cfg, chain, v, request).norm;
            AllRouted(n.treasury, n.transfers) && |n.transfers| == |request.transfers| &&
            (n.treasury == "" || IsWoloAddress(n.treasury)) &&
            n.treasury == (if Trim(request.treasury) != "" then Trim(request.treasury) else Trim(cfg.treasuryAddress))
  {
    hide PlanChallenge, VerifyAll, PlanTransfers, FinalizeChallenge, JudgePlan, PlanRun, PlanTopUp, ValidHeader,
         GoodAcc, AllProven, DistinctParticipants, KeysDistinct, BucketsExact, AllRouted, LinesPlanned, RunRequestOf,
         Trim, Cut, TrimAll, AllOk;
    var ds, acc := AcceptedPlan(cfg, chain, v, request);
    TreasuryIsAddress(request, PlanChallenge(cfg, chain, v, request).norm.treasury);
  }

  lemma TreasuryIsAddress(request: ChallengeRequest, treasury: string)
    requires ValidHeader(request, treasury)
    ensures treasury == "" || IsWoloAddress(treasury)
  {
    hide Trim, ValidRunId, ValidSourceApp, ValidEventId, IsWoloAddress;
  }

  // ---------------------------------------------------------------- conservation

  /** The exact amount the transfers spend from one bucket of one deposit. */
  function Spent(ds: seq<Deposit>, ts: seq<NormTransfer>, k: nat, bucket: string): nat {
    if |ts| == 0 then 0
    else
      var t := ts[|ts| - 1];
      Spent(ds, ts[..|ts| - 1], k, bucket) +
      (if Resolve(ds, t.side, t.pid) == One(k) && t.bucket == bucket then LineAmount(t.amount) else 0)
  }

  function TransferTotal(ts: seq<NormTransfer>): nat {
    if |ts| == 0 then 0 else TransferTotal(ts[..|ts| - 1]) + LineAmount(ts[|ts| - 1].amount)
  }

  /** The exact total the deposits prove, bucket by bucket. */
  function ProvenTotal(ds: seq<Deposit>): nat {
    if |ds| == 0 then 0
    else ProvenTotal(ds[..|ds| - 1]) + LineAmount(ds[|ds| - 1].wager) + LineAmount(ds[|ds| - 1].guarantee)
  }

  ghost predicate KeysDistinct(ds: seq<Deposit>) {
    forall i, j :: 0 <= i < j < |ds| ==> Key(ds[i]) != Key(ds[j])
  }

  /** What the transfer loop has established while no line was refused. */
  ghost predicate GoodAcc(ds: seq<Deposit>, acc: Acc) {
    |acc.moves| == |acc.transfers| == |acc.payouts| && acc.total == Wrap(TransferTotal(acc.transfers)) &&
    (forall i :: 0 <= i < |acc.transfers| ==>
       GoodTransfer(ds, i, acc.transfers[i]) && acc.transfers[i].id in acc.seen &&
       acc.payouts[i] == PayoutOf(acc.transfers[i]) && acc.moves[i] == PlannedMove(ds, acc.transfers[i], "")) &&
    (forall i, j :: 0 <= i < j < |acc.transfers| ==> acc.transfers[i].id != acc.transfers[j].id) &&
    (forall k, b :: 0 <= k < |ds| ==> Allocated(acc.allocation, Key(ds[k]), b) == Wrap(Spent(ds, acc.transfers, k, b)))
  }

  function PayoutOf(t: NormTransfer): RawRequest {
    RawRequest(t.id, t.to, t.amount, 0, t.memo)
  }

  predicate GoodTransfer(ds: seq<Deposit>, i: nat, t: NormTransfer) {
    t.index == i && ValidTransfer(t) && Resolve(ds, t.side, t.pid).One? &&
    Trim(t.id) == t.id && Trim(t.to) == t.to && Trim(t.amount) == t.amount && |t.memo| <= 180 &&
    Trim(t.bucket) == t.bucket && Trim(t.reason) == t.reason
  }

  lemma NormalTransferTrimmed(t: TransferInput, sid: string, index: nat, memo: string, treasury: string)
    requires ValidRunId(sid) && Trim(treasury) == treasury
    ensures var n := NormalTransfer(t, sid, index, memo, treasury);
            n.index == index && (ValidTransfer(n) ==> Trim(n.id) == n.id) && Trim(n.to) == n.to &&
            Trim(n.amount) == n.amount &&
            |n.memo| <= 180 && Trim(n.bucket) == n.bucket && Trim(n.reason) == n.reason
  {
    hide Trim, ParseUint, RequestIdPattern;
    TrimShape(t.to);
    TrimShape(Lower(t.bucket));
    TrimShape(Lower(t.reason));
    assert Trim("") == "" by { TrimShape(""); }
    if NormalizeAmount(t.amountUWolo, t.amountWolo).Some? {
      NormalizedAmountTrimmed(t.amountUWolo, t.amountWolo);
    }
    var n := NormalTransfer(t, sid, index, memo, treasury);
    if ValidTransfer(n) {
      PatternTrimmed(n.id);
    }
  }

  lemma PatternTrimmed(s: string)
    requires RequestIdPattern(s)
    ensures Trim(s) == s && s != ""
  {
    assert IdChar(s[0]) && IdChar(s[|s| - 1]);
  }

  lemma {:induction false} PlanTransfersGood(ds: seq<Deposit>, sid: string, memo: string, treasury: string,
                                             ts: seq<TransferInput>)
    requires KeysDistinct(ds) && ValidRunId(sid) && Trim(treasury) == treasury
    requires NoInvalidMove(PlanTransfers(ds, sid, memo, treasury, ts).moves)
    ensures GoodAcc(ds, PlanTransfers(ds, sid, memo, treasury, ts))
  {
    WrapSmall(0);
    if |ts| > 0 {
      var before := PlanTransfers(ds, sid, memo, treasury, ts[..|ts| - 1]);
      var after := PlanTransfers(ds, sid, memo, treasury, ts);
      hide KeysDistinct, Trim, ValidRunId, GoodAcc, NormalTransfer, Key, Wrap;
      assert forall i :: 0 <= i < |before.moves| ==> after.moves[i] == before.moves[i];
      PlanTransfersGood(ds, sid, memo, treasury, ts[..|ts| - 1]);
      PlanTransferGood(ds, sid, memo, treasury, before, ts[|ts| - 1]);
    }
  }

  /** What one accepted pass of the transfer loop appends. */
  lemma PlanTransferAppends(ds: seq<Deposit>, sid: string, memo: string, treasury: string, acc: Acc, t: TransferInput)
    requires |acc.moves| == |acc.transfers|
    requires NoInvalidMove(PlanTransfer(ds, sid, memo, treasury, acc, t).moves)
    ensures var n := NormalTransfer(t, sid, |acc.transfers|, memo, treasury);
            var after, r := PlanTransfer(ds, sid, memo, treasury, acc, t), Resolve(ds, n.side, n.pid);
            TransferFault(ds, treasury, n, acc.seen) == "" && ValidTransfer(n) && r.One? && n.id !in acc.seen &&
            after.transfers == acc.transfers + [n] && after.moves == acc.moves + [PlannedMove(ds, n, "")] &&
            after.payouts == acc.payouts + [PayoutOf(n)] && after.seen == acc.seen + {n.id} &&
            after.total == Add(acc.total, AmountOf(n)) &&
            after.allocation == acc.allocation[(Key(ds[r.k]), n.bucket) := Add(Allocated(acc.allocation, Key(ds[r.k]),
                                                                                         n.bucket), AmountOf(n))]
  {
    hide NormalTransfer, ValidTransfer, Resolve, Key, Wrap, Add, AmountOf, EqualFold, Allocated;
    var n := NormalTransfer(t, sid, |acc.transfers|, memo, treasury);
    var fault := TransferFault(ds, treasury, n, acc.seen);
    var after := PlanTransfer(ds, sid, memo, treasury, acc, t);
    assert after.moves == acc.moves + [PlannedMove(ds, n, fault)];
    assert after.moves[|acc.moves|].line.outcome != Invalid;
  }

  lemma PlanTransferGood(ds: seq<Deposit>, sid: string, memo: string, treasury: string, acc: Acc, t: TransferInput)
    requires KeysDistinct(ds) && ValidRunId(sid) && Trim(treasury) == treasury && GoodAcc(ds, acc)
    requires NoInvalidMove(PlanTransfer(ds, sid, memo, treasury, acc, t).moves)
    ensures GoodAcc(ds, PlanTransfer(ds, sid, memo, treasury, acc, t))
  {
    hide PlanTransfer, NormalTransfer, Trim, ValidRunId, ValidTransfer, Resolve, Key, AmountOf, LineAmount, PlannedMove,
         Allocated, Add, TransferFault, KeysDistinct, NoInvalidMove, GoodAcc, PayoutOf;
    var n := NormalTransfer(t, sid, |acc.transfers|, memo, treasury);
    NormalTransferTrimmed(t, sid, |acc.transfers|, memo, treasury);
    GoodLengths(ds, acc);
    PlanTransferAppends(ds, sid, memo, treasury, acc, t);
    SameAmount(n);
    ExtendGood(ds, acc, n, PlanTransfer(ds, sid, memo, treasury, acc, t));
  }

  lemma GoodLengths(ds: seq<Deposit>, acc: Acc)
    requires GoodAcc(ds, acc)
    ensures |acc.moves| == |acc.transfers| == |acc.payouts|
  {
    hide GoodTransfer, Key, Spent, TransferTotal, Wrap, Allocated, PlannedMove;
  }

  /** One more accepted line keeps everything the loop has established. */
  lemma ExtendGood(ds: seq<Deposit>, acc: Acc, n: NormTransfer, after: Acc)
    requires KeysDistinct(ds) && GoodAcc(ds, acc) && GoodTransfer(ds, |acc.transfers|, n) && n.id !in acc.seen
    requires after.transfers == acc.transfers + [n] && after.moves == acc.moves + [PlannedMove(ds, n, "")]
    requires after.payouts == acc.payouts + [PayoutOf(n)] && after.seen == acc.seen + {n.id} &&
             after.total == Add(acc.total, LineAmount(n.amount))
    requires var key := Key(ds[Resolve(ds, n.side, n.pid).k]);
             after.allocation == acc.allocation[(key, n.bucket) := Add(Allocated(acc.allocation, key, n.bucket),
                                                                       LineAmount(n.amount))]
    ensures GoodAcc(ds, after)
  {
    hide GoodTransfer, Key, Spent, TransferTotal, Wrap, Allocated, PlannedMove, PayoutOf, LineAmount, Resolve,
         KeysDistinct;
    TotalSnoc(ds, acc.transfers, n);
    WrapAdd(TransferTotal(acc.transfers), LineAmount(n.amount));
    GoodResolves(ds, |acc.transfers|, n);
    AllocationGood(ds, acc.allocation, acc.transfers, n);
  }

  lemma GoodResolves(ds: seq<Deposit>, i: nat, t: NormTransfer)
    requires GoodTransfer(ds, i, t)
    ensures Resolve(ds, t.side, t.pid).One?
  {
    hide Resolve, Trim, ValidTransfer;
  }

  lemma SameAmount(t: NormTransfer)
    requires Trim(t.amount) == t.amount && ValidTransfer(t)
    ensures AmountOf(t) == LineAmount(t.amount)
  {
    hide Trim, ParseUint, RequestIdPattern, IsWoloAddress, SidePattern, ReasonPattern, ValidEventId;
  }

  lemma AllocationGood(ds: seq<Deposit>, a: Allocation, ts: seq<NormTransfer>, n: NormTransfer)
    requires KeysDistinct(ds) && Resolve(ds, n.side, n.pid).One?
    requires forall k, b :: 0 <= k < |ds| ==> Allocated(a, Key(ds[k]), b) == Wrap(Spent(ds, ts, k, b))
    ensures var key := Key(ds[Resolve(ds, n.side, n.pid).k]);
            var after := a[(key, n.bucket) := Add(Allocated(a, key, n.bucket), LineAmount(n.amount))];
            forall k, b :: 0 <= k < |ds| ==> Allocated(after, Key(ds[k]), b) == Wrap(Spent(ds, ts + [n], k, b))
  {
    hide Resolve, Key, Wrap, LineAmount, Spent, Allocated, Add;
    var r := Resolve(ds, n.side, n.pid);
    var key := Key(ds[r.k]);
    var after := a[(key, n.bucket) := Add(Allocated(a, key, n.bucket), LineAmount(n.amount))];
    TotalSnoc(ds, ts, n);
    forall k, b | 0 <= k < |ds| ensures Allocated(after, Key(ds[k]), b) == Wrap(Spent(ds, ts + [n], k, b)) {
      AllocatedStep(a, key, n.bucket, LineAmount(n.amount), Key(ds[k]), b, Spent(ds, ts, k, b));
      assert Key(ds[k]) == key <==> k == r.k;
    }
  }

  lemma AllocatedStep(a: Allocation, key: string, bucket: string, amount: U64, key': string, bucket': string,
                      spent: nat)
    requires Allocated(a, key', bucket') == Wrap(spent)
    ensures Allocated(a[(key, bucket) := Add(Allocated(a, key, bucket), amount)], key', bucket') ==
            Wrap(spent + (if key' == key && bucket' == bucket then amount else 0))
  {
    hide Wrap;
    WrapAdd(spent, amount);
  }

  lemma TotalSnoc(ds: seq<Deposit>, ts: seq<NormTransfer>, t: NormTransfer)
    ensures TransferTotal(ts + [t]) == TransferTotal(ts) + LineAmount(t.amount)
    ensures forall k, b ::
              Spent(ds, ts + [t], k, b) ==
              Spent(ds, ts, k, b) +
              (if Resolve(ds, t.side, t.pid) == One(k) && t.bucket == b then LineAmount(t.amount) else 0)
  {
    assert (ts + [t])[..|ts|] == ts;
  }

  /** The buckets of the first n deposits. */
  function SpentBy(ds: seq<Deposit>, ts: seq<NormTransfer>, n: nat): nat {
    if n == 0 then 0 else SpentBy(ds, ts, n - 1) + Spent(ds, ts, n - 1, WAGER) + Spent(ds, ts, n - 1, GUARANTEE)
  }

  lemma {:induction false} SpentBySnoc(ds: seq<Deposit>, ts: seq<NormTransfer>, t: NormTransfer, n: nat)
    requires t.bucket == WAGER || t.bucket == GUARANTEE
    ensures var r := Resolve(ds, t.side, t.pid);
            SpentBy(ds, ts + [t], n) == SpentBy(ds, ts, n) + (if r.One? && r.k < n then LineAmount(t.amount) else 0)
  {
    hide Resolve, LineAmount;
    if n > 0 {
      SpentBySnoc(ds, ts, t, n - 1);
      TotalSnoc(ds, ts, t);
    }
  }

  /** Every transfer spends exactly one bucket of exactly one deposit, so the buckets sum to the transfers. */
  lemma {:induction false} BucketsPartition(ds: seq<Deposit>, ts: seq<NormTransfer>)
    requires forall i :: 0 <= i < |ts| ==> GoodTransfer(ds, i, ts[i])
    ensures SpentBy(ds, ts, |ds|) == TransferTotal(ts)
  {
    hide Resolve, LineAmount, Trim;
    if |ts| > 0 {
      var init, t := ts[..|ts| - 1], ts[|ts| - 1];
      BucketsPartition(ds, init);
      SpentBySnoc(ds, init, t, |ds|);
      assert init + [t] == ts;
    } else {
      NothingSpent(ds, ts, |ds|);
    }
  }

  lemma {:induction false} NothingSpent(ds: seq<Deposit>, ts: seq<NormTransfer>, n: nat)
    requires |ts| == 0
    ensures SpentBy(ds, ts, n) == 0
  {
    if n > 0 {
      NothingSpent(ds, ts, n - 1);
    }
  }

  lemma {:induction false} SpentMatchesProven(ds: seq<Deposit>, ts: seq<NormTransfer>, n: nat)
    requires n <= |ds|
    requires forall k :: 0 <= k < n ==>
      Wrap(Spent(ds, ts, k, WAGER)) == LineAmount(ds[k].wager) &&
      Wrap(Spent(ds, ts, k, GUARANTEE)) == LineAmount(ds[k].guarantee)
    ensures Wrap(SpentBy(ds, ts, n)) == Wrap(ProvenTotal(ds[..n]))
  {
    hide Wrap, LineAmount, Spent;
    if n > 0 {
      SpentMatchesProven(ds, ts, n - 1);
      assert ds[..n][..n - 1] == ds[..n - 1];
      var w, g := Spent(ds, ts, n - 1, WAGER), Spent(ds, ts, n - 1, GUARANTEE);
      WrapCongruent(SpentBy(ds, ts, n - 1), ProvenTotal(ds[..n - 1]), w + g, Wrap(w) + Wrap(g));
      WrapAdd(w, g);
      WrapAdd(g, Wrap(w));
    }
  }

  lemma WrapCongruent(a: int, b: int, c: int, d: int)
    requires Wrap(a) == Wrap(b)
    ensures Wrap(c) == Wrap(d) ==> Wrap(a + c) == Wrap(b + d)
  {
    if Wrap(c) == Wrap(d) {
      WrapAdd(a, c);
      WrapAdd(b, c);
      WrapAdd(c, b);
      WrapAdd(d, b);
    }
  }

  /** The deposits' own totals agree with the buckets they declare. */
  lemma {:induction false} FundedIsProven(cfg: Config, chain: Ledger, ds: seq<Deposit>)
    requires AllProven(cfg, chain, ds)
    ensures FundedTotal(ds) == Wrap(ProvenTotal(ds))
  {
    hide Wrap, ProvenBy, FundedTotal, ProvenTotal, LineAmount;
    if |ds| == 0 {
      FundedNothing();
    } else {
      var init, d := ds[..|ds| - 1], ds[|ds| - 1];
      FundedIsProven(cfg, chain, init);
      DepositAmounts(cfg, chain, d);
      FundedStep(ds);
      var w, g := LineAmount(d.wager) as int, LineAmount(d.guarantee) as int;
      WrapAdd(ProvenTotal(init), Wrap(w + g));
      WrapAdd(w + g, ProvenTotal(init));
    }
  }

  lemma FundedNothing()
    ensures FundedTotal([]) == Wrap(ProvenTotal([]))
  {
  }

  lemma FundedStep(ds: seq<Deposit>)
    requires |ds| > 0
    ensures var init, d := ds[..|ds| - 1], ds[|ds| - 1];
            FundedTotal(ds) == Wrap(FundedTotal(init) + (if d.ok then LineAmount(d.total) else 0)) &&
            ProvenTotal(ds) == ProvenTotal(init) + LineAmount(d.wager) + LineAmount(d.guarantee)
  {
  }

  lemma DepositAmounts(cfg: Config, chain: Ledger, d: Deposit)
    requires ProvenBy(cfg, chain, d)
    ensures d.ok && LineAmount(d.total) == Wrap(LineAmount(d.wager) + LineAmount(d.guarantee))
    ensures LineAmount(d.wager) > 0 && LineAmount(d.guarantee) > 0
  {
    hide ProvenBy, ParseMemo, KindOf, ParseUint, TxHash, Trim, FormatUint;
    var t, f := ProvenDeposit(cfg, chain, d);
    ParseFormat(f.wager);
    ParseFormat(f.guarantee);
    ValidAmounts(f);
    ReadableAmount(d.total);
  }

  lemma ReadableAmount(s: string)
    requires ParseUint(s).Some?
    ensures OptionalAmount(s) == ParseUint(s) && Trim(s) == s
  {
    AmountDigits(s);
  }

  /** A plan whose deposits, lines and buckets all passed: only then is a run planned for it. */
  ghost predicate LinesAccepted(plan: ChallengePlan) {
    plan.response.run.Some?
  }

  /** Everything an accepted list of lines establishes. */
  ghost predicate GoodPlan(cfg: Config, chain: Ledger, n: NormChallenge, ds: seq<Deposit>, acc: Acc) {
    |ds| > 0 && AllProven(cfg, chain, ds) && DistinctParticipants(ds) && KeysDistinct(ds) && GoodAcc(ds, acc) &&
    BucketsExact(ds, acc.allocation) && n.transfers == acc.transfers && |acc.transfers| > 0 &&
    AllRouted(n.treasury, acc.transfers)
  }

  lemma VerifiedAll(cfg: Config, chain: Ledger, fault: Option<string>, n: NormChallenge)
    requires AllOk(VerifyAll(cfg, chain, fault, n))
    ensures AllProven(cfg, chain, VerifyAll(cfg, chain, fault, n))
  {
    hide VerifyDeposit, ProvenBy;
    var ds := VerifyAll(cfg, chain, fault, n);
    forall i | 0 <= i < |ds| ensures ProvenBy(cfg, chain, ds[i]) {
      assert ds[i] == VerifyDeposit(cfg, chain, fault, n.funding[i].hash, ExpectationOf(n, n.funding[i]));
      assert ds[i].ok;
      VerifiedIsProven(cfg, chain, fault, n.funding[i].hash, ExpectationOf(n, n.funding[i]));
    }
  }

  /** The parts of a challenge response that finalizing it leaves alone. */
  lemma FinalizeChallengeKeeps(r: ChallengeResponse)
    ensures var f := FinalizeChallenge(r);
            f.run == r.run && f.funding == r.funding && f.moves == r.moves && f.topUp == r.topUp &&
            f.replay == r.replay &&
            f.requestedTotal == r.requestedTotal && f.fundingTotal == r.fundingTotal &&
            f.fundingVerified == r.fundingVerified &&
            f.runId == r.runId && f.sourceApp == r.sourceApp && f.challengeId == r.challengeId &&
            f.sourceEventId == r.sourceEventId &&
            (r.requested > 0 ==> f.requested == r.requested) &&
            (r.status != Blank ==> f.ok == r.ok && f.status == r.status) &&
            f.tally == TallyLines(Recount(r.tally, r.retryable), LinesOf(r.moves))
  {
    hide TallyLines, Buckets, FirstFailureCode, FirstNonEmpty;
  }

  /** The deposits, accumulated lines and run of an accepted plan. */
  lemma AcceptedPlan(cfg: Config, chain: Ledger, v: View, request: ChallengeRequest) returns (ds: seq<Deposit>,
                                                                                              acc: Acc)
    requires LinesAccepted(PlanChallenge(cfg, chain, v, request))
    ensures var plan := PlanChallenge(cfg, chain, v, request); var n := plan.norm;
            GoodPlan(cfg, chain, n, ds, acc) && ds == VerifyAll(cfg, chain, v.fault, n) && AllOk(ds) &&
            ValidHeader(request, n.treasury) &&
            n == NormHeader(cfg, request).(funding := TrimAll(request.funding), transfers := acc.transfers) &&
            acc == PlanTransfers(ds, n.runId, n.memo, n.treasury, request.transfers) &&
            plan.runRequest == RunRequestOf(n, acc.payouts) && |acc.transfers| == |request.transfers| &&
            var run := PlanRun(cfg, v, plan.runRequest).1;
            plan.response ==
            FinalizeChallenge(JudgePlan(LinesPlanned(n, ds, acc), run, PlanTopUp(cfg, v, n.runId, run)))
  {
    hide FinalizeChallenge, VerifyAll, PlanTransfers, PlanRun, PlanTopUp, ValidHeader, DistinctParticipants, NormHeader,
         BucketsExact, NoInvalidMove, AllProven, GoodAcc, KeysDistinct, JudgePlan, AllRouted;
    var n := NormHeader(cfg, request).(funding := TrimAll(request.funding));
    ds := VerifyAll(cfg, chain, v.fault, n);
    acc := PlanTransfers(ds, n.runId, n.memo, n.treasury, request.transfers);
    FinalizeChallengeKeeps(FundingChecked(n, ds).(failureCode := INVALID));
    FinalizeChallengeKeeps(LinesPlanned(n.(transfers := acc.transfers), ds, acc).(failureCode := INVALID));
    VerifyIgnoresTransfers(cfg, chain, v.fault, n, acc.transfers);
    VerifiedAll(cfg, chain, v.fault, n);
    DistinctKeys(cfg, chain, ds);
    HeaderFacts(cfg, request);
    PlanTransfersGood(ds, n.runId, n.memo, n.treasury, request.transfers);
    PlanRouted(ds, n.runId, n.memo, n.treasury, request.transfers);
  }

  lemma VerifyIgnoresTransfers(cfg: Config, chain: Ledger, fault: Option<string>, n: NormChallenge,
                               ts: seq<NormTransfer>)
    ensures VerifyAll(cfg, chain, fault, n.(transfers := ts)) == VerifyAll(cfg, chain, fault, n)
  {
    hide VerifyDeposit;
  }

  lemma DistinctKeys(cfg: Config, chain: Ledger, ds: seq<Deposit>)
    requires AllProven(cfg, chain, ds) && DistinctParticipants(ds)
    ensures KeysDistinct(ds)
  {
    hide AllProven, DistinctParticipants, Key;
    DepositsDistinct(cfg, chain, ds);
  }

  ghost predicate GoodNames(n: NormChallenge) {
    ValidRunId(n.runId) && Trim(n.runId) == n.runId && Trim(n.sourceApp) == n.sourceApp &&
    Trim(n.challengeId) == n.challengeId &&
    Trim(n.sourceEventId) == n.sourceEventId && ValidSourceApp(n.sourceApp) && ValidEventId(n.challengeId) &&
    ValidEventId(n.sourceEventId) && Trim(n.treasury) == n.treasury
  }

  lemma HeaderFacts(cfg: Config, request: ChallengeRequest)
    requires ValidHeader(request, NormHeader(cfg, request).treasury)
    ensures var n := NormHeader(cfg, request);
            GoodNames(n) && |request.funding| > 0 && |request.transfers| > 0 &&
            (n.challengeId != "" || n.sourceEventId != "") && |n.memo| <= 180
  {
    hide ValidRunId, ValidSourceApp, ValidEventId, IsWoloAddress, Trim;
    TrimShape(request.treasury);
    TrimShape(cfg.treasuryAddress);
    TrimShape(request.runId);
    TrimShape(request.sourceApp);
    TrimShape(request.challengeId);
    TrimShape(request.sourceEventId);
  }

  /**
   * Conservation. When the lines of a challenge are accepted, each participant's wager and guarantee transfers sum to
   * the proven wager and guarantee modulo 2^64, exactly when that sum does not wrap, and the requested total equals the
   * funded total modulo 2^64, exactly when neither wraps.
   */
  lemma Conservation(cfg: Config, chain: Ledger, v: View, request: ChallengeRequest)
    requires LinesAccepted(PlanChallenge(cfg, chain, v, request))
    ensures var plan := PlanChallenge(cfg, chain, v, request); var ds, ts := plan.response.funding, plan.norm.transfers;
            BucketsConserved(ds, ts) &&
            plan.response.requestedTotal == plan.response.fundingTotal &&
            plan.response.requestedTotal == Some(Wrap(TransferTotal(ts))) &&
            plan.response.fundingTotal == Some(Wrap(ProvenTotal(ds))) &&
            (TransferTotal(ts) < TWO64 && ProvenTotal(ds) < TWO64 ==> TransferTotal(ts) == ProvenTotal(ds))
  {
    hide PlanChallenge, FinalizeChallenge, BucketsExact, GoodAcc, AllProven, DistinctParticipants, KeysDistinct,
         PlanRun, PlanTopUp, ValidHeader, NormHeader, VerifyAll, JudgePlan, Wrap, Total, ProvenTotal, BucketsConserved;
    var plan := PlanChallenge(cfg, chain, v, request);
    var ds, acc := AcceptedPlan(cfg, chain, v, request);
    var run := PlanRun(cfg, v, plan.runRequest).1;
    var lines := LinesPlanned(plan.norm, ds, acc);
    JudgeKeeps(lines, run, PlanTopUp(cfg, v, plan.norm.runId, run));
    FinalizeChallengeKeeps(JudgePlan(lines, run, PlanTopUp(cfg, v, plan.norm.runId, run)));
    ConservedCore(cfg, chain, plan.norm, ds, acc);
    if TransferTotal(acc.transfers) < TWO64 && ProvenTotal(ds) < TWO64 {
      WrapSmall(TransferTotal(acc.transfers));
      WrapSmall(ProvenTotal(ds));
    }
  }

  lemma JudgeKeeps(r: ChallengeResponse, run: RunResponse, topUp: Option<TopUp>)
    requires r.status == Failed && !r.ok
    ensures Judged(r, run, topUp, JudgePlan(r, run, topUp))
  {
    hide HasSuffix, FirstNonEmpty, Judged;
    var base := r.(run := Some(run), topUp := topUp);
    forall code, retryable ensures Judged(r, run, topUp, base.(failureCode := code, retryable := retryable)) {
      FailedKeeps(r, run, topUp, code, retryable);
    }
    if if topUp.Some? && topUp.value.required then topUp.value.enabled && topUp.value.possible else run.ok {
      PassedKeeps(r, run, topUp);
    }
  }

  lemma FailedKeeps(r: ChallengeResponse, run: RunResponse, topUp: Option<TopUp>, code: string, retryable: bool)
    requires r.status == Failed && !r.ok
    ensures Judged(r, run, topUp, r.(run := Some(run), topUp := topUp, failureCode := code, retryable := retryable))
  {
  }

  lemma PassedKeeps(r: ChallengeResponse, run: RunResponse, topUp: Option<TopUp>)
    requires if topUp.Some? && topUp.value.required then topUp.value.enabled && topUp.value.possible else run.ok
    ensures Judged(r, run, topUp, r.(run := Some(run), topUp := topUp, ok := true, status := Validated))
  {
  }

  /** What the verdict of a plan keeps, and when it may pass. */
  predicate Judged(r: ChallengeResponse, run: RunResponse, topUp: Option<TopUp>, j: ChallengeResponse) {
    j.run == Some(run) && j.topUp == topUp && j.funding == r.funding && j.moves == r.moves && j.tally == r.tally &&
    j.requested == r.requested && j.requestedTotal == r.requestedTotal && j.fundingTotal == r.fundingTotal &&
    j.fundingVerified == r.fundingVerified && j.runId == r.runId && j.sourceApp == r.sourceApp &&
    j.replay == r.replay &&
    j.challengeId == r.challengeId && j.sourceEventId == r.sourceEventId &&
    (j.status == Failed || j.status == Validated) && (j.ok <==> j.status == Validated) &&
    (j.ok ==> if topUp.Some? && topUp.value.required then topUp.value.enabled && topUp.value.possible else run.ok)
  }

  /** Each participant's transfers spend exactly its proven buckets, up to 64-bit wrap. */
  predicate BucketsConserved(ds: seq<Deposit>, ts: seq<NormTransfer>) {
    forall k ::
      0 <= k < |ds| ==>
        BucketConserved(ds, ts, k, WAGER, LineAmount(ds[k].wager)) &&
        BucketConserved(ds, ts, k, GUARANTEE, LineAmount(ds[k].guarantee))
  }

  predicate BucketConserved(ds: seq<Deposit>, ts: seq<NormTransfer>, k: nat, bucket: string, proven: U64) {
    Wrap(Spent(ds, ts, k, bucket)) == proven &&
    (Spent(ds, ts, k, bucket) < TWO64 <==> Spent(ds, ts, k, bucket) == proven)
  }

  lemma ConservedCore(cfg: Config, chain: Ledger, n: NormChallenge, ds: seq<Deposit>, acc: Acc)
    requires GoodPlan(cfg, chain, n, ds, acc)
    ensures BucketsConserved(ds, acc.transfers)
    ensures acc.total == Wrap(TransferTotal(acc.transfers)) && FundedTotal(ds) == Wrap(ProvenTotal(ds)) &&
            acc.total == FundedTotal(ds)
  {
    hide Wrap, LineAmount, Spent, Key, ProvenBy, Clash, GoodTransfer, PlannedMove, PayoutOf, Total, SpentBy;
    var ts := acc.transfers;
    forall k | 0 <= k < |ds|
      ensures BucketConserved(ds, ts, k, WAGER, LineAmount(ds[k].wager)) &&
              BucketConserved(ds, ts, k, GUARANTEE, LineAmount(ds[k].guarantee))
    {
      ExactWhenSmall(Spent(ds, ts, k, WAGER), LineAmount(ds[k].wager));
      ExactWhenSmall(Spent(ds, ts, k, GUARANTEE), LineAmount(ds[k].guarantee));
    }
    BucketsPartition(ds, ts);
    SpentMatchesProven(ds, ts, |ds|);
    assert ds[..|ds|] == ds;
    FundedIsProven(cfg, chain, ds);
  }

  lemma ExactWhenSmall(x: nat, y: U64)
    requires Wrap(x) == y
    ensures x < TWO64 <==> x == y
  {
  }
}

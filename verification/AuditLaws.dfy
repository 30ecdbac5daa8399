/** What an audit that returns OK proves, for every stored state and every chain. */
module AuditLaws {
  import opened Text
  import opened Amounts
  import opened Records
  import opened Chain
  import opened Runs
  import opened Funding
  import opened Challenges
  import opened ChallengeLaws
  import opened Audit

  /** From this sender to this recipient for this amount, as far as each is given. */
  predicate SentAs(t: Transfer, sender: string, to: string, amount: string) {
    (Trim(sender) != "" ==> Lower(t.sender) == Lower(Trim(sender))) &&
    (Trim(to) != "" ==> Lower(t.recipient) == Lower(Trim(to))) && (Trim(amount) != "" ==> t.amount == Trim(amount))
  }

  /**
   * A found, successful transaction with a transfer from the sender to the line's recipient for the line's amount,
   * in whatever denomination.
   */
  ghost predicate Backed(site: Site, l: Line, sender: string) {
    var h := Upper(Trim(l.txHash));
    TxHash(h) && h in site.chain && site.chain[h].success &&
    (exists t :: t in site.chain[h].transfers && SentAs(t, sender, l.to, l.amount)) &&
    (Trim(l.memo) != "" ==> Same(site.chain[h].memo, l.memo))
  }

  predicate Executed(l: Line) {
    l.status == Confirmed || l.status == Accepted
  }

  /** The reconciled deposits of an audited challenge. */
  ghost predicate FundingSound(site: Site, rec: ChallengeRecord, ds: seq<Deposit>) {
    |ds| == |rec.request.funding| && AllProven(site.cfg, site.chain, ds) && KeysDistinct(ds) &&
    (forall i, j :: 0 <= i < j < |ds| ==> ds[i].hash != ds[j].hash) &&
    (forall i :: 0 <= i < |ds| ==> ds[i].hash == Upper(Trim(rec.request.funding[i].hash))) &&
    BucketsConserved(ds, rec.request.transfers)
  }

  /** Every executed line is a requested line with a request record, backed by a transaction of the signer it names. */
  ghost predicate LinesSound(site: Site, requests: Requests, rec: ChallengeRecord) {
    forall i ::
      0 <= i < |rec.response.moves| && Executed(rec.response.moves[i].line) ==>
        LineSound(site, requests, rec, rec.response.moves[i])
  }

  ghost predicate LineSound(site: Site, requests: Requests, rec: ChallengeRecord, m: Move) {
    var l := m.line;
    MoveRequested(LastTransfer(rec.request.transfers, l.id), m) && l.id in requests &&
    Same(requests[l.id].request.to, l.to) && Same(requests[l.id].request.amount, l.amount) &&
    Same(requests[l.id].response.txHash, l.txHash) &&
    Backed(site, l, FirstNonEmpty(l.signer, requests[l.id].response.signer))
  }

  lemma LookupFinds(site: Site, hash: string, e: Expect)
    requires LookupTx(site.cfg, site.chain, site.fault, hash, e).ok
    ensures var h, l := Upper(Trim(hash)), LookupTx(site.cfg, site.chain, site.fault, hash, e);
            TxHash(h) && h in site.chain && l.success == site.chain[h].success && l.memo == site.chain[h].memo &&
            (l.matched.Some? ==> l.matched.value in site.chain[h].transfers && Matches(l.matched.value, e))
  {
    hide Trim, Upper, TxHash, KindOf, EqualFold;
  }

  lemma MoveIsSound(site: Site, requests: Requests, runs: RunStore, rec: ChallengeRecord, m: Move)
    requires MoveHolds(site, rec.request, AuditedRun(rec, runs), requests, m) && Executed(m.line)
    ensures LineSound(site, requests, rec, m)
  {
    hide Trim, Upper, TxHash, LookupTx, FirstNonEmpty, MoveRequested, MoveRan, Matches, LastTransfer, SentAs;
    var l, r := m.line, requests[m.line.id];
    LookupFinds(site, l.txHash, Expect(FirstNonEmpty(l.signer, r.response.signer), l.to, l.amount));
    var t := MoveLookup(site, r, l).matched.value;
    assert t in site.chain[Upper(Trim(l.txHash))].transfers &&
           Matches(t, Expect(FirstNonEmpty(l.signer, r.response.signer), l.to, l.amount));
    MatchedAs(t, FirstNonEmpty(l.signer, r.response.signer), l.to, l.amount);
  }

  lemma MatchedAs(t: Transfer, sender: string, to: string, amount: string)
    requires Matches(t, Expect(sender, to, amount))
    ensures SentAs(t, sender, to, amount)
  {
    hide Trim, Lower;
  }

  // ---------------------------------------------------------------- deposits

  lemma {:induction false} AllVerified(site: Site, rec: ChallengeRecord, n: nat)
    requires n <= |rec.request.funding| && DepositsHold(site, rec, n)
    ensures var ds := Verified(site, rec, n);
            |ds| == n && forall i :: 0 <= i < n ==> ds[i] == Reverified(site, rec, i) && ds[i].ok
  {
    hide Reverified, StoredAgrees;
    if n > 0 {
      DepositsHoldNext(site, rec, n - 1);
      AllVerified(site, rec, n - 1);
    }
  }

  lemma ReverifiedProven(site: Site, rec: ChallengeRecord, i: nat)
    requires i < |rec.request.funding| && Reverified(site, rec, i).ok
    ensures var d := Reverified(site, rec, i);
            ProvenBy(site.cfg, site.chain, d) && d.hash == Upper(Trim(rec.request.funding[i].hash))
  {
    hide VerifyDeposit, ProvenBy, Upper, Trim, AuditExpectation;
    VerifiedIsProven(site.cfg, site.chain, site.fault, rec.request.funding[i].hash, AuditExpectation(rec, i));
  }

  // ---------------------------------------------------------------- allocation

  /** An allocation names only the keys of deposits that some transfer resolved to. */
  lemma {:induction false} AllocatedFrom(ds: seq<Deposit>, ts: seq<NormTransfer>, key: string,
                                         bucket: string) returns (i: nat)
    requires Allocated(Reallocated(ds, ts), key, bucket) != 0
    ensures i < |ts| && Resolve(ds, ts[i].side, ts[i].pid).One? && Key(ds[Resolve(ds, ts[i].side, ts[i].pid).k]) == key
  {
    hide Resolve, Key, OptionalAmount, Add;
    if Allocated(Reallocated(ds, ts[..|ts| - 1]), key, bucket) != 0 {
      i := AllocatedFrom(ds, ts[..|ts| - 1], key, bucket);
    } else {
      i := |ts| - 1;
    }
  }

  /**
   * The audit never compares participants with each other, and does not need to: a deposit that shares its identity
   * with another leaves its buckets unspent or its transfers ambiguous.
   */
  lemma AuditedKeysDistinct(site: Site, ds: seq<Deposit>, ts: seq<NormTransfer>)
    requires AllProven(site.cfg, site.chain, ds) && BucketsExact(ds, Reallocated(ds, ts))
    ensures KeysDistinct(ds) && forall i, j :: 0 <= i < j < |ds| ==> ds[i].hash != ds[j].hash
  {
    hide ProvenBy, Key, Reallocated, LineAmount, Resolve, Allocated;
    forall i, j | 0 <= i < j < |ds| ensures ds[i].hash != ds[j].hash && Key(ds[i]) != Key(ds[j]) {
      if ds[i].hash == ds[j].hash || Key(ds[i]) == Key(ds[j]) {
        SharedIdentity(site, ds, ts, i, j);
      }
    }
  }

  lemma SharedIdentity(site: Site, ds: seq<Deposit>, ts: seq<NormTransfer>, i: nat, j: nat)
    requires AllProven(site.cfg, site.chain, ds) && BucketsExact(ds, Reallocated(ds, ts)) && i < |ds| && j < |ds|
    requires ds[i].hash == ds[j].hash || Key(ds[i]) == Key(ds[j])
    ensures i == j
  {
    hide ProvenBy, Key, Reallocated, LineAmount, Resolve, Allocated;
    if Key(ds[i]) == Key(ds[j]) {
      KeyHash(site.cfg, site.chain, ds[i], ds[j]);
    }
    SameTxSameParticipant(site.cfg, site.chain, ds[i], ds[j]);
    DepositAmounts(site.cfg, site.chain, ds[i]);
    var x := AllocatedFrom(ds, ts, Key(ds[i]), WAGER);
    var k := Resolve(ds, ts[x].side, ts[x].pid).k;
    KeyHash(site.cfg, site.chain, ds[k], ds[i]);
    SameTxSameParticipant(site.cfg, site.chain, ds[k], ds[i]);
    OnlyOneNamed(ds, ts[x].side, ts[x].pid, k, i);
    OnlyOneNamed(ds, ts[x].side, ts[x].pid, k, j);
  }

  lemma OnlyOneNamed(ds: seq<Deposit>, side: string, pid: string, k: nat, i: nat)
    requires i < |ds| && Resolve(ds, side, pid) == One(k) && ds[k].side == ds[i].side && ds[k].pid == ds[i].pid
    ensures i == k
  {
    hide Trim, Named;
    NamedSound(ds, side, pid);
    assert Names(ds[k], side, pid);
  }

  ghost predicate AllPlaced(ds: seq<Deposit>, ts: seq<NormTransfer>) {
    forall i :: 0 <= i < |ts| ==> OptionalAmount(ts[i].amount).Some? && Resolve(ds, ts[i].side, ts[i].pid).One?
  }

  ghost predicate AllocatesSpent(ds: seq<Deposit>, a: Allocation, ts: seq<NormTransfer>) {
    forall k, b :: 0 <= k < |ds| ==> Allocated(a, Key(ds[k]), b) == Wrap(Spent(ds, ts, k, b))
  }

  lemma {:induction false} ReallocatedIsSpent(ds: seq<Deposit>, ts: seq<NormTransfer>)
    requires KeysDistinct(ds) && AllPlaced(ds, ts)
    ensures AllocatesSpent(ds, Reallocated(ds, ts), ts)
  {
    hide Resolve, Key, OptionalAmount, LineAmount, Add, KeysDistinct, Wrap;
    if |ts| == 0 {
      WrapSmall(0);
    } else {
      var init, t := ts[..|ts| - 1], ts[|ts| - 1];
      ReallocatedIsSpent(ds, init);
      hide Spent, Allocated;
      assert ts == init + [t];
      AllocationGood(ds, Reallocated(ds, init), init, t);
    }
  }

  lemma AuditedBuckets(ds: seq<Deposit>, ts: seq<NormTransfer>)
    requires AllocatesSpent(ds, Reallocated(ds, ts), ts) && BucketsExact(ds, Reallocated(ds, ts))
    ensures BucketsConserved(ds, ts)
  {
    hide Wrap, LineAmount, Spent, Key, Reallocated, Allocated;
    forall k | 0 <= k < |ds|
      ensures BucketConserved(ds, ts, k, WAGER, LineAmount(ds[k].wager)) &&
              BucketConserved(ds, ts, k, GUARANTEE, LineAmount(ds[k].guarantee))
    {
      assert Allocated(Reallocated(ds, ts), Key(ds[k]), WAGER) == Wrap(Spent(ds, ts, k, WAGER));
      assert Allocated(Reallocated(ds, ts), Key(ds[k]), GUARANTEE) == Wrap(Spent(ds, ts, k, GUARANTEE));
      ExactWhenSmall(Spent(ds, ts, k, WAGER), LineAmount(ds[k].wager));
      ExactWhenSmall(Spent(ds, ts, k, GUARANTEE), LineAmount(ds[k].guarantee));
    }
  }

  /**
   * Audit soundness. An audit that passes re-proved every deposit from its own transaction, no two of them the same;
   * each participant's transfers spend exactly the re-proven buckets; and every confirmed or accepted line is backed by
   * a found, successful transaction with the expected sender, recipient and amount.
   */
  lemma AuditSoundness(site: Site, requests: Requests, runs: RunStore, rec: ChallengeRecord)
    requires AuditHolds(site, requests, runs, rec)
    ensures FundingSound(site, rec, Verified(site, rec, |rec.request.funding|))
    ensures LinesSound(site, requests, rec)
  {
    hide Verified, Reverified, MoveHolds, LineSound, ProvenBy, KeysDistinct, BucketsExact, Reallocated,
         BucketsConserved, AllocatesSpent, HeaderHolds, TotalsHold, TotalsOf, RunHolds, TopUpHolds, Executed,
         FundedTotal, EqualFold, Upper, Trim, StoredAgrees, OptionalAmount, Resolve, Same;
    var n, ds := rec.request, Verified(site, rec, |rec.request.funding|);
    AllVerified(site, rec, |n.funding|);
    forall i | 0 <= i < |ds|
      ensures ProvenBy(site.cfg, site.chain, ds[i]) && ds[i].hash == Upper(Trim(n.funding[i].hash))
    {
      ReverifiedProven(site, rec, i);
    }
    AuditedKeysDistinct(site, ds, n.transfers);
    forall i | 0 <= i < |n.transfers|
      ensures OptionalAmount(n.transfers[i].amount).Some? && Resolve(ds, n.transfers[i].side, n.transfers[i].pid).One?
    {
      assert RouteHolds(n, ds, n.transfers[i]);
    }
    ReallocatedIsSpent(ds, n.transfers);
    AuditedBuckets(ds, n.transfers);
    forall i | 0 <= i < |rec.response.moves| && Executed(rec.response.moves[i].line)
      ensures LineSound(site, requests, rec, rec.response.moves[i])
    {
      MoveIsSound(site, requests, runs, rec, rec.response.moves[i]);
    }
  }
}

/**
 * Using a deposit again: exactly when a request that cites the deposits of an accepted one is accepted beside it. The
 * names in the memo count, the settlement id does not.
 */
module Reuse {
  import opened Text
  import opened Amounts
  import opened Ids
  import opened Records
  import opened Chain
  import opened Signers
  import opened Runs
  import opened RunLaws
  import opened Memo
  import opened Funding
  import opened Challenges
  import opened ChallengeLaws
  import opened ChallengeRuns
  import opened ChallengeSound
  import opened TopUps

  // ---------------------------------------------------------------- requests on the same terms

  predicate SameButIds(ts: seq<TransferInput>, ts': seq<TransferInput>) {
    |ts'| == |ts| && forall i :: 0 <= i < |ts| ==> ts'[i] == ts[i].(id := ts'[i].id)
  }

  /** The same deposits, lines and treasury; the settlement id, the names and the transfer ids may differ. */
  predicate SameTerms(r: ChallengeRequest, r': ChallengeRequest) {
    r' == r.(runId := r'.runId, sourceApp := r'.sourceApp, challengeId := r'.challengeId,
             sourceEventId := r'.sourceEventId, transfers := r'.transfers) &&
    SameButIds(r.transfers, r'.transfers)
  }

  /** The request ids the lines are paid under, explicit or derived from the settlement id. */
  predicate UsableIds(sid: string, ts: seq<TransferInput>) {
    (forall i :: 0 <= i < |ts| ==> RequestIdPattern(MoveId(sid, i, ts[i].id))) &&
    (forall i, j :: 0 <= i < j < |ts| ==> MoveId(sid, i, ts[i].id) != MoveId(sid, j, ts[j].id))
  }

  predicate ValidNames(r: ChallengeRequest) {
    Trim(r.sourceApp) != "" && ValidSourceApp(Trim(r.sourceApp)) && ValidEventId(Trim(r.challengeId)) &&
    ValidEventId(Trim(r.sourceEventId)) && (Trim(r.challengeId) != "" || Trim(r.sourceEventId) != "")
  }

  /** Each name is blank or, ignoring case, the one the deposit's memo gives. */
  predicate NamedBy(d: Deposit, r: ChallengeRequest) {
    Agrees(r.sourceApp, d.sourceApp) && Agrees(r.challengeId, d.challengeId) &&
    Agrees(r.sourceEventId, d.sourceEventId)
  }

  predicate AllName(ds: seq<Deposit>, r: ChallengeRequest) {
    forall i :: 0 <= i < |ds| ==> NamedBy(ds[i], r)
  }

  predicate Reusable(ds: seq<Deposit>, r: ChallengeRequest) {
    ValidRunId(Trim(r.runId)) && ValidNames(r) && UsableIds(Trim(r.runId), r.transfers) && AllName(ds, r)
  }

  /** A challenge whose run would have to be paid by the escrow signer, which challenges never ask for. */
  predicate ForMarket(r: ChallengeRequest) {
    Lower(Trim(r.sourceApp)) == "aoe2hdbets" &&
    ("bet-market-" <= Lower(FirstNonEmpty(r.sourceEventId, r.challengeId)) ||
     "aoe2-bet-market-" <= Lower(Trim(r.runId)))
  }

  // ---------------------------------------------------------------- the lines

  ghost function MoveIds(sid: string, ts: seq<TransferInput>): set<string> {
    set i | 0 <= i < |ts| :: MoveId(sid, i, ts[i].id)
  }

  lemma UsableSnoc(sid: string, ts: seq<TransferInput>, t: TransferInput)
    ensures var id := MoveId(sid, |ts|, t.id);
            MoveIds(sid, ts + [t]) == MoveIds(sid, ts) + {id} &&
            (UsableIds(sid, ts + [t]) <==> UsableIds(sid, ts) && RequestIdPattern(id) && id !in MoveIds(sid, ts))
  {
    hide MoveId, RequestIdPattern;
    var all := ts + [t];
    assert forall i :: 0 <= i < |ts| ==> all[i] == ts[i];
    assert all[|ts|] == t;
    if UsableIds(sid, all) {
      assert RequestIdPattern(MoveId(sid, |ts|, all[|ts|].id));
      forall i | 0 <= i < |ts|
        ensures RequestIdPattern(MoveId(sid, i, ts[i].id)) && MoveId(sid, i, ts[i].id) != MoveId(sid, |ts|, t.id)
      {
        assert MoveId(sid, i, all[i].id) != MoveId(sid, |ts|, all[|ts|].id);
      }
      forall i, j | 0 <= i < j < |ts| ensures MoveId(sid, i, ts[i].id) != MoveId(sid, j, ts[j].id) {
        assert MoveId(sid, i, all[i].id) != MoveId(sid, j, all[j].id);
      }
    }
  }

  /** Of a transfer without fault, only the id can be at fault under another id. */
  lemma RenamedFault(ds: seq<Deposit>, treasury: string, n: NormTransfer, seen: set<string>, id: string,
                     seen': set<string>)
    requires TransferFault(ds, treasury, n, seen) == ""
    ensures TransferFault(ds, treasury, n.(id := id), seen') == "" <==> RequestIdPattern(id) && id !in seen'
  {
    hide RequestIdPattern, SidePattern, ValidEventId, ReasonPattern, IsWoloAddress, EqualFold, Resolve;
  }

  lemma RenamedLine(ds: seq<Deposit>, sid: string, sid': string, memo: string, treasury: string, acc: Acc, acc': Acc,
                    t: TransferInput, t': TransferInput)
    requires t' == t.(id := t'.id) && |acc.moves| == |acc.transfers| == |acc'.transfers| == |acc'.moves|
    requires NoInvalidMove(PlanTransfer(ds, sid, memo, treasury, acc, t).moves)
    ensures var id := MoveId(sid', |acc.transfers|, t'.id);
            var after, after' := PlanTransfer(ds, sid, memo, treasury, acc, t),
                                 PlanTransfer(ds, sid', memo, treasury, acc', t');
            (NoInvalidMove(after'.moves) <==> NoInvalidMove(acc'.moves) && RequestIdPattern(id) && id !in acc'.seen) &&
            (NoInvalidMove(after'.moves) ==> after'.seen == acc'.seen + {id}) &&
            (NoInvalidMove(after'.moves) && acc'.allocation == acc.allocation ==> after'.allocation == after.allocation)
  {
    hide NormalTransfer, Resolve, Key, Add, AmountOf, Allocated, TransferFault, RequestIdPattern, MoveId;
    var n, n' := NormalTransfer(t, sid, |acc.transfers|, memo, treasury),
                 NormalTransfer(t', sid', |acc.transfers|, memo, treasury);
    RenamedNormal(sid, sid', memo, treasury, |acc.transfers|, t, t');
    PlanTransferAppends(ds, sid, memo, treasury, acc, t);
    RenamedFault(ds, treasury, n, acc.seen, n'.id, acc'.seen);
    AmountIgnoresId(n, n'.id);
    var after' := PlanTransfer(ds, sid', memo, treasury, acc', t');
    var fault := TransferFault(ds, treasury, n', acc'.seen);
    MovesAppend(ds, sid', memo, treasury, acc', t');
    if NoInvalidMove(after'.moves) {
      PlanTransferAppends(ds, sid', memo, treasury, acc', t');
    }
  }

  lemma AmountIgnoresId(n: NormTransfer, id: string)
    ensures AmountOf(n.(id := id)) == AmountOf(n)
  {
    hide ParseUint;
  }

  lemma RenamedNormal(sid: string, sid': string, memo: string, treasury: string, index: nat, t: TransferInput,
                      t': TransferInput)
    requires t' == t.(id := t'.id)
    ensures NormalTransfer(t', sid', index, memo, treasury) ==
            NormalTransfer(t, sid, index, memo, treasury).(id := MoveId(sid', index, t'.id))
  {
    hide Trim, Lower, NormalizeAmount, MoveId;
  }

  lemma MovesAppend(ds: seq<Deposit>, sid: string, memo: string, treasury: string, acc: Acc, t: TransferInput)
    ensures var n := NormalTransfer(t, sid, |acc.transfers|, memo, treasury);
            NoInvalidMove(PlanTransfer(ds, sid, memo, treasury, acc, t).moves) <==>
            NoInvalidMove(acc.moves) && TransferFault(ds, treasury, n, acc.seen) == ""
  {
    hide NormalTransfer, Resolve, Key, Add, AmountOf, Allocated, TransferFault;
    var n := NormalTransfer(t, sid, |acc.transfers|, memo, treasury);
    var m := PlannedMove(ds, n, TransferFault(ds, treasury, n, acc.seen));
    var after := PlanTransfer(ds, sid, memo, treasury, acc, t).moves;
    assert after == acc.moves + [m];
    assert after[|acc.moves|] == m && forall i :: 0 <= i < |acc.moves| ==> after[i] == acc.moves[i];
    if NoInvalidMove(after) {
      assert after[|acc.moves|].line.outcome != Invalid;
    }
  }

  /** Renamed lines pass exactly when their ids are usable, and then allocate the same. */
  ghost predicate Renaming(acc: Acc, acc': Acc, sid': string, ts': seq<TransferInput>) {
    (NoInvalidMove(acc'.moves) <==> UsableIds(sid', ts')) &&
    (NoInvalidMove(acc'.moves) ==> acc'.allocation == acc.allocation && acc'.seen == MoveIds(sid', ts'))
  }

  lemma RenamingSnoc(ds: seq<Deposit>, sid: string, sid': string, memo: string, treasury: string, acc: Acc, acc': Acc,
                     ts': seq<TransferInput>, t: TransferInput, t': TransferInput)
    requires t' == t.(id := t'.id) && |acc.moves| == |acc.transfers| == |acc'.transfers| == |acc'.moves| == |ts'|
    requires NoInvalidMove(PlanTransfer(ds, sid, memo, treasury, acc, t).moves) && Renaming(acc, acc', sid', ts')
    ensures Renaming(PlanTransfer(ds, sid, memo, treasury, acc, t), PlanTransfer(ds, sid', memo, treasury, acc', t'),
                     sid', ts' + [t'])
  {
    hide PlanTransfer, NoInvalidMove, UsableIds, MoveIds, MoveId, RequestIdPattern;
    RenamedLine(ds, sid, sid', memo, treasury, acc, acc', t, t');
    UsableSnoc(sid', ts', t');
  }

  /** Accepted lines are accepted under other ids exactly when those are usable, and then allocate the same. */
  lemma {:induction false} RenamedLines(ds: seq<Deposit>, sid: string, sid': string, memo: string, treasury: string,
                                        ts: seq<TransferInput>, ts': seq<TransferInput>)
    requires SameButIds(ts, ts') && NoInvalidMove(PlanTransfers(ds, sid, memo, treasury, ts).moves)
    ensures Renaming(PlanTransfers(ds, sid, memo, treasury, ts), PlanTransfers(ds, sid', memo, treasury, ts'), sid',
                     ts')
  {
    hide PlanTransfer, PlanTransfers, NoInvalidMove, Renaming, SameButIds;
    if |ts| == 0 {
      SameLength(ts, ts');
      NoLines(ds, sid, sid', memo, treasury, ts, ts');
    } else {
      LinesBefore(ts, ts');
      var init, t := ts[..|ts| - 1], ts[|ts| - 1];
      var init', t' := ts'[..|ts| - 1], ts'[|ts| - 1];
      var before, before' := PlanTransfers(ds, sid, memo, treasury, init),
                             PlanTransfers(ds, sid', memo, treasury, init');
      LastLinePlanned(ds, sid, memo, treasury, ts);
      LastLinePlanned(ds, sid', memo, treasury, ts');
      MovesAppend(ds, sid, memo, treasury, before, t);
      RenamedLines(ds, sid, sid', memo, treasury, init, init');
      RenamingSnoc(ds, sid, sid', memo, treasury, before, before', init', t, t');
    }
  }

  lemma LinesBefore(ts: seq<TransferInput>, ts': seq<TransferInput>)
    requires SameButIds(ts, ts') && |ts| > 0
    ensures |ts'| == |ts| && SameButIds(ts[..|ts| - 1], ts'[..|ts| - 1])
    ensures ts'[|ts| - 1] == ts[|ts| - 1].(id := ts'[|ts| - 1].id) && ts' == ts'[..|ts| - 1] + [ts'[|ts| - 1]]
  {
  }

  lemma LastLinePlanned(ds: seq<Deposit>, sid: string, memo: string, treasury: string, ts: seq<TransferInput>)
    requires |ts| > 0
    ensures PlanTransfers(ds, sid, memo, treasury, ts) ==
            PlanTransfer(ds, sid, memo, treasury, PlanTransfers(ds, sid, memo, treasury, ts[..|ts| - 1]),
                         ts[|ts| - 1])
  {
    hide PlanTransfer;
  }

  lemma NoLines(ds: seq<Deposit>, sid: string, sid': string, memo: string, treasury: string, ts: seq<TransferInput>,
                ts': seq<TransferInput>)
    requires ts == [] && ts' == []
    ensures Renaming(PlanTransfers(ds, sid, memo, treasury, ts), PlanTransfers(ds, sid', memo, treasury, ts'), sid',
                     ts')
  {
    hide PlanTransfer;
  }

  // ---------------------------------------------------------------- the deposits

  /** What the memo has to say about everything an expectation names, but for the transfer itself. */
  predicate MemoAgrees(e: Expectation, d: Deposit) {
    Agrees(e.sourceApp, d.sourceApp) && Agrees(e.runId, d.runId) && Agrees(e.challengeId, d.challengeId) &&
    Agrees(e.sourceEventId, d.sourceEventId) && Agrees(e.side, d.side) && Agrees(e.pid, d.pid) &&
    Agrees(e.wager, d.wager) && Agrees(e.guarantee, d.guarantee)
  }

  /** Two expectations of the same transfer. */
  predicate SameTransfer(e: Expectation, e': Expectation) {
    e'.sender == e.sender && e'.total == e.total
  }

  lemma OtherExpectation(e: Expectation, e': Expectation, d: Deposit)
    requires SameTransfer(e, e') && MeetsExpectation(d, e)
    ensures MeetsExpectation(d, e') <==> MemoAgrees(e', d)
  {
    hide Agrees;
  }

  /**
   * A deposit that verifies as one expectation asks verifies as another of the same transfer asks if and only
   * if that is well formed and each of its names and amounts is blank or, case ignored, the memo's; and then as
   * the same deposit.
   */
  lemma ExpectedExactly(cfg: Config, chain: Ledger, hash: string, e: Expectation, e': Expectation)
    requires VerifyDeposit(cfg, chain, None, hash, e).ok && SameTransfer(e, e')
    ensures var d, d' := VerifyDeposit(cfg, chain, None, hash, e), VerifyDeposit(cfg, chain, None, hash, e');
            (d'.ok <==> ValidExpectation(e') && MemoAgrees(e', d)) && (d'.ok ==> d' == d)
  {
    hide MemoAgrees, LookupTx, ParseMemo, Trim, Upper, ValidExpectation, MeetsExpectation, FormatUint, ProvenBy;
    VerifiedIsProven(cfg, chain, None, hash, e);
    OtherExpectation(e, e', VerifyDeposit(cfg, chain, None, hash, e));
  }

  predicate NamesAgree(e: Expectation, d: Deposit) {
    Agrees(e.sourceApp, d.sourceApp) && Agrees(e.challengeId, d.challengeId) && Agrees(e.sourceEventId, d.sourceEventId)
  }

  /** Two expectations that differ in the names alone, the second of them well formed. */
  predicate Renames(e: Expectation, e': Expectation) {
    e' == e.(sourceApp := e'.sourceApp, challengeId := e'.challengeId, sourceEventId := e'.sourceEventId) &&
    ValidSourceApp(Trim(e'.sourceApp)) && ValidEventId(Trim(e'.challengeId)) && ValidEventId(Trim(e'.sourceEventId))
  }

  lemma RenamedExpectation(e: Expectation, e': Expectation, d: Deposit)
    requires Renames(e, e') && ValidExpectation(e) && MeetsExpectation(d, e)
    ensures ValidExpectation(e') && (MemoAgrees(e', d) <==> NamesAgree(e', d))
  {
    hide Agrees, Trim, ValidSourceApp, ValidEventId, ValidRunId, SidePattern, IsWoloAddress, BlankOrPositive;
  }

  /** A verified deposit verifies under other names exactly when the memo gives them. */
  lemma RenamedDeposit(cfg: Config, chain: Ledger, hash: string, e: Expectation, e': Expectation)
    requires VerifyDeposit(cfg, chain, None, hash, e).ok && Renames(e, e')
    ensures var d, d' := VerifyDeposit(cfg, chain, None, hash, e), VerifyDeposit(cfg, chain, None, hash, e');
            (d'.ok <==> NamesAgree(e', d)) && (d'.ok ==> d' == d)
  {
    hide NamesAgree, MemoAgrees, VerifyDeposit, Trim, ValidExpectation, MeetsExpectation, ProvenBy, ValidSourceApp,
         ValidEventId, Upper;
    VerifiedIsProven(cfg, chain, None, hash, e);
    RenamedExpectation(e, e', VerifyDeposit(cfg, chain, None, hash, e));
    ExpectedExactly(cfg, chain, hash, e, e');
  }

  lemma NoneUnderFault(cfg: Config, chain: Ledger, fault: Option<string>, n: NormChallenge)
    requires fault.Some? && |n.funding| > 0
    ensures !AllOk(VerifyAll(cfg, chain, fault, n))
  {
    hide VerifyDeposit, ProvenBy, MeetsExpectation, ValidExpectation, Trim, Upper;
    var e := ExpectationOf(n, n.funding[0]);
    var d := VerifyAll(cfg, chain, fault, n)[0];
    if d.ok {
      VerifiedIsProven(cfg, chain, fault, n.funding[0].hash, e);
    }
  }

  lemma RenamedDeposits(cfg: Config, chain: Ledger, chain': Ledger, n: NormChallenge, n': NormChallenge,
                        r': ChallengeRequest)
    requires AllOk(VerifyAll(cfg, chain, None, n)) && Grows(chain, chain') && n'.funding == n.funding && ValidNames(r')
    requires n'.sourceApp == Trim(r'.sourceApp) && n'.challengeId == Trim(r'.challengeId) &&
             n'.sourceEventId == Trim(r'.sourceEventId)
    ensures var ds, ds' := VerifyAll(cfg, chain, None, n), VerifyAll(cfg, chain', None, n');
            (AllOk(ds') <==> AllName(ds, r')) && (AllOk(ds') ==> ds' == ds)
  {
    hide VerifyDeposit, Grows, NamedBy, ValidSourceApp, ValidEventId, Trim, ExpectationOf;
    var ds, ds' := VerifyAll(cfg, chain, None, n), VerifyAll(cfg, chain', None, n');
    forall i | 0 <= i < |ds| ensures (ds'[i].ok <==> NamedBy(ds[i], r')) && (ds'[i].ok ==> ds'[i] == ds[i]) {
      assert ds[i].ok;
      RenamedAt(cfg, chain, chain', n, n', r', i);
    }
    if AllOk(ds') {
      assert forall i :: 0 <= i < |ds| ==> ds'[i].ok;
    }
  }

  lemma RenamedAt(cfg: Config, chain: Ledger, chain': Ledger, n: NormChallenge, n': NormChallenge,
                  r': ChallengeRequest, i: nat)
    requires Grows(chain, chain') && n'.funding == n.funding && ValidNames(r') && i < |n.funding|
    requires n'.sourceApp == Trim(r'.sourceApp) && n'.challengeId == Trim(r'.challengeId) &&
             n'.sourceEventId == Trim(r'.sourceEventId)
    requires VerifyAll(cfg, chain, None, n)[i].ok
    ensures var d, d' := VerifyAll(cfg, chain, None, n)[i], VerifyAll(cfg, chain', None, n')[i];
            (d'.ok <==> NamedBy(d, r')) && (d'.ok ==> d' == d)
  {
    hide VerifyDeposit, Grows, ValidSourceApp, ValidEventId, Trim, EqualFold;
    var f := n.funding[i];
    TrimShape(r'.sourceApp);
    TrimShape(r'.challengeId);
    TrimShape(r'.sourceEventId);
    ChallengeSound.DepositStays(cfg, chain, chain', f.hash, ExpectationOf(n, f));
    RenamedDeposit(cfg, chain', f.hash, ExpectationOf(n, f), ExpectationOf(n', f));
  }

  // ---------------------------------------------------------------- the plan

  /** What the possible ends of a plan keep. */
  lemma PlanShape(cfg: Config, v: View, n: NormChallenge, ds: seq<Deposit>, acc: Acc)
    ensures var f := FinalizeChallenge(FundingChecked(n, ds).(failureCode := INVALID)); f.run.None? && f.funding == ds
    ensures var m := n.(transfers := acc.transfers);
            var f := FinalizeChallenge(LinesPlanned(m, ds, acc).(failureCode := INVALID));
            f.run.None? && f.funding == ds
    ensures var m := n.(transfers := acc.transfers);
            var run := PlanRun(cfg, v, RunRequestOf(m, acc.payouts)).1;
            var f := FinalizeChallenge(JudgePlan(LinesPlanned(m, ds, acc), run, PlanTopUp(cfg, v, m.runId, run)));
            f.run.Some? && f.funding == ds
  {
    hide FinalizeChallenge, PlanRun, PlanTopUp, JudgePlan, FundedTotal, CountOk;
    var m := n.(transfers := acc.transfers);
    var r := LinesPlanned(m, ds, acc);
    var run := PlanRun(cfg, v, RunRequestOf(m, acc.payouts)).1;
    FinalizeChallengeKeeps(FundingChecked(n, ds).(failureCode := INVALID));
    FinalizeChallengeKeeps(r.(failureCode := INVALID));
    JudgeKeeps(r, run, PlanTopUp(cfg, v, m.runId, run));
    FinalizeChallengeKeeps(JudgePlan(r, run, PlanTopUp(cfg, v, m.runId, run)));
  }

  function Cited(cfg: Config, r: ChallengeRequest): NormChallenge {
    NormHeader(cfg, r).(funding := TrimAll(r.funding))
  }

  function Planned(ds: seq<Deposit>, n: NormChallenge, r: ChallengeRequest): Acc {
    PlanTransfers(ds, n.runId, n.memo, n.treasury, r.transfers)
  }

  /** Exactly when the lines of a request are accepted, and with which deposits. */
  lemma AcceptedExactly(cfg: Config, chain: Ledger, v: View, r: ChallengeRequest)
    ensures var n, plan := Cited(cfg, r), PlanChallenge(cfg, chain, v, r);
            var ds := VerifyAll(cfg, chain, v.fault, n); var acc := Planned(ds, n, r);
            (LinesAccepted(plan) <==> ValidHeader(r, n.treasury) && AllOk(ds) && DistinctParticipants(ds) &&
                                      BucketsExact(ds, acc.allocation) && NoInvalidMove(acc.moves)) &&
            (LinesAccepted(plan) ==> plan.response.funding == ds && plan.norm == n.(transfers := acc.transfers))
  {
    hide FinalizeChallenge, VerifyAll, PlanTransfers, PlanRun, PlanTopUp, DistinctParticipants, BucketsExact,
         NoInvalidMove, JudgePlan, ValidHeader, AllOk, TrimAll, NormHeader, FundingChecked, LinesPlanned;
    var n := Cited(cfg, r);
    var ds := VerifyAll(cfg, chain, v.fault, n);
    PlanShape(cfg, v, n, ds, Planned(ds, n, r));
  }

  ghost predicate SameLines(sid: string, ts': seq<TransferInput>, ns: seq<NormTransfer>, ns': seq<NormTransfer>) {
    |ns'| == |ns| == |ts'| && forall i :: 0 <= i < |ns| ==> ns'[i] == ns[i].(id := MoveId(sid, i, ts'[i].id))
  }

  lemma SamePlanned(ds: seq<Deposit>, n: NormChallenge, n': NormChallenge, r: ChallengeRequest, r': ChallengeRequest)
    requires SameTerms(r, r') && n'.memo == n.memo && n'.treasury == n.treasury
    ensures SameLines(n'.runId, r'.transfers, Planned(ds, n, r).transfers, Planned(ds, n', r').transfers)
  {
    hide PlanTransfers, NormalTransfer, MoveId;
    var ts, ts' := r.transfers, r'.transfers;
    forall i | 0 <= i < |ts|
      ensures Planned(ds, n', r').transfers[i] ==
              Planned(ds, n, r).transfers[i].(id := MoveId(n'.runId, i, ts'[i].id))
    {
      PlanTransfersNormal(ds, n.runId, n.memo, n.treasury, ts, i);
      PlanTransfersNormal(ds, n'.runId, n.memo, n.treasury, ts', i);
      RenamedNormal(n.runId, n'.runId, n.memo, n.treasury, i, ts[i], ts'[i]);
    }
  }

  lemma SameHeader(cfg: Config, r: ChallengeRequest, r': ChallengeRequest)
    requires SameTerms(r, r') && ValidHeader(r, NormHeader(cfg, r).treasury)
    ensures var n, n' := Cited(cfg, r), Cited(cfg, r');
            n'.funding == n.funding && n'.memo == n.memo && n'.treasury == n.treasury && n'.runId == Trim(r'.runId) &&
            n'.sourceApp == Trim(r'.sourceApp) && n'.challengeId == Trim(r'.challengeId) &&
            n'.sourceEventId == Trim(r'.sourceEventId) && |n.funding| > 0 &&
            (ValidHeader(r', n'.treasury) <==> ValidRunId(Trim(r'.runId)) && ValidNames(r'))
  {
    hide Trim, ValidRunId, ValidSourceApp, ValidEventId, IsWoloAddress, TrimAll;
  }

  /**
   * A deposit is tied to the names in its memo and to nothing else. Beside a request whose lines were accepted, a
   * request on the same terms is accepted at any later time, with the same deposits, if and only if its settlement id,
   * names and transfer ids are well formed, the ids differ from each other, and every name is blank or the memo's.
   */
  lemma DepositReusedExactly(cfg: Config, chain: Ledger, chain': Ledger, v: View, v': View, r: ChallengeRequest,
                             r': ChallengeRequest)
    requires LinesAccepted(PlanChallenge(cfg, chain, v, r)) && SameTerms(r, r') && Grows(chain, chain')
    ensures var plan, plan' := PlanChallenge(cfg, chain, v, r), PlanChallenge(cfg, chain', v', r');
            (LinesAccepted(plan') <==> v'.fault.None? && Reusable(plan.response.funding, r')) &&
            (LinesAccepted(plan') ==>
               plan'.response.funding == plan.response.funding &&
               SameLines(Trim(r'.runId), r'.transfers, plan.norm.transfers, plan'.norm.transfers))
  {
    hide PlanChallenge, VerifyAll, AllName, DistinctParticipants, BucketsExact, NoInvalidMove, ValidHeader, AllOk,
         Grows, ValidRunId, ValidNames, UsableIds, PlanTransfers, SameTerms, Cited, Trim, SameLines;
    var n, n' := Cited(cfg, r), Cited(cfg, r');
    AcceptedExactly(cfg, chain, v, r);
    AcceptedExactly(cfg, chain', v', r');
    TermsParts(cfg, r, r');
    SameHeader(cfg, r, r');
    if v.fault.Some? {
      NoneUnderFault(cfg, chain, v.fault, n);
    }
    if v'.fault.Some? {
      NoneUnderFault(cfg, chain', v'.fault, n');
    } else if ValidNames(r') {
      RenamedDeposits(cfg, chain, chain', n, n', r');
      var ds := VerifyAll(cfg, chain, v.fault, n);
      RenamedLines(ds, n.runId, n'.runId, n.memo, n.treasury, r.transfers, r'.transfers);
      SamePlanned(ds, n, n', r, r');
    }
  }

  lemma TermsParts(cfg: Config, r: ChallengeRequest, r': ChallengeRequest)
    requires SameTerms(r, r')
    ensures SameButIds(r.transfers, r'.transfers) && Cited(cfg, r).treasury == NormHeader(cfg, r).treasury
  {
    hide Trim, TrimAll;
  }

  // ---------------------------------------------------------------- the verdict

  /** What a plan of a payout run decides, from its total, its number of payouts and its source alone. */
  lemma RunVerdict(cfg: Config, v: View, request: RunRequest)
    requires Prepare(request).0.role == PAYOUT
    ensures var (n, p) := Prepare(request); var r := PlanRun(cfg, v, request).1;
            if |n.payouts| == 0 || NeedsEscrow(n) then !r.ok && r.payoutBalanceBefore.None?
            else
              r.payoutBalanceBefore == HealthReport(cfg, v).balance && r.requestedTotal == p.requestedTotal &&
              r.estimatedFee == EstimatedFee(cfg, |n.payouts|) &&
              (r.ok <==> Serviceable(cfg, v, PAYOUT) &&
                         BalanceOf(v, PAYOUT) >= p.requestedTotal + Reserve(LimitsOf(cfg, PAYOUT)))
  {
    hide Prepare, HasReady, PayoutPlan, Finalize, NeedsEscrow, HealthReport, Serviceable, Reserve;
    var (n, p) := Prepare(request);
    PrepareFacts(request);
    ReadyRun(request);
    NoBalanceYet(request);
    FinalizeKeeps(p);
    FinalizeKeeps(RefuseRun(p, "ESCROW_SIGNER_REQUIRED", false));
    var q := p.(estimatedFee := EstimatedFee(cfg, |n.payouts|));
    PayoutPlanOkExactly(cfg, v, q);
    FinalizeKeeps(PayoutPlan(cfg, v, q));
  }

  lemma NoBalanceYet(request: RunRequest)
    ensures Prepare(request).1.payoutBalanceBefore.None?
  {
    hide ValidRunHeader, PrepareLines, Trim, RunRole;
  }

  predicate SameAmounts(ns: seq<NormTransfer>, ns': seq<NormTransfer>) {
    |ns'| == |ns| && forall i :: 0 <= i < |ns| ==> ns'[i].amount == ns[i].amount
  }

  lemma {:induction false} SameRun(ns: seq<NormTransfer>, ns': seq<NormTransfer>)
    requires SameAmounts(ns, ns')
    ensures TransferTotal(ns') == TransferTotal(ns) && |RunPayouts(ns')| == |RunPayouts(ns)|
  {
    hide LineAmount, ParseUint;
    if |ns| > 0 {
      SameRun(ns[..|ns| - 1], ns'[..|ns| - 1]);
    }
  }

  /** The run of a challenge is a market's exactly when the request's own names say so. */
  lemma MarketExactly(cfg: Config, r: ChallengeRequest, ts: seq<NormTransfer>, payouts: seq<RawRequest>)
    requires var n := Cited(cfg, r).(transfers := ts);
             ValidRunHeader(RunRequestOf(n, payouts)) && Prepare(RunRequestOf(n, payouts)).0.role == PAYOUT
    ensures NeedsEscrow(Prepare(RunRequestOf(Cited(cfg, r).(transfers := ts), payouts)).0) <==> ForMarket(r)
  {
    hide ValidRunHeader, PrepareLines, Trim, TrimAll, RunRole, Lower;
    TrimShape(r.sourceApp);
    TrimShape(r.challengeId);
    TrimShape(r.sourceEventId);
    TrimShape(r.runId);
    assert PAYOUT != ESCROW;
  }

  predicate Passes(run: RunResponse, topUp: Option<TopUp>) {
    if topUp.Some? && topUp.value.required then topUp.value.enabled && topUp.value.possible else run.ok
  }

  lemma JudgePasses(r: ChallengeResponse, run: RunResponse, topUp: Option<TopUp>)
    requires Passes(run, topUp)
    ensures var j := JudgePlan(r, run, topUp); j.ok && j.status == Validated
  {
    hide HasSuffix, FirstNonEmpty;
  }

  lemma JudgeFails(r: ChallengeResponse, run: RunResponse, topUp: Option<TopUp>)
    requires !r.ok && r.status == Failed && !Passes(run, topUp)
    ensures var j := JudgePlan(r, run, topUp); !j.ok && j.status == Failed
  {
    hide JudgePlan;
    if topUp.Some? && topUp.value.required {
      JudgeFailsTopUp(r, run, topUp.value);
    } else {
      JudgeFailsRun(r, run, topUp);
    }
  }

  lemma JudgeFailsTopUp(r: ChallengeResponse, run: RunResponse, t: TopUp)
    requires !r.ok && r.status == Failed && t.required && !(t.enabled && t.possible)
    ensures var j := JudgePlan(r, run, Some(t)); !j.ok && j.status == Failed
  {
    hide HasSuffix, FirstNonEmpty;
  }

  lemma JudgeFailsRun(r: ChallengeResponse, run: RunResponse, topUp: Option<TopUp>)
    requires !r.ok && r.status == Failed && !run.ok && !(topUp.Some? && topUp.value.required)
    ensures var j := JudgePlan(r, run, topUp); !j.ok && j.status == Failed
  {
    hide HasSuffix, FirstNonEmpty;
  }

  lemma JudgedOk(r: ChallengeResponse, run: RunResponse, topUp: Option<TopUp>)
    requires !r.ok && r.status == Failed
    ensures FinalizeChallenge(JudgePlan(r, run, topUp)).ok <==> Passes(run, topUp)
  {
    hide FinalizeChallenge, JudgePlan, Passes;
    if Passes(run, topUp) {
      JudgePasses(r, run, topUp);
    } else {
      JudgeFails(r, run, topUp);
    }
    FinalizeChallengeKeeps(JudgePlan(r, run, topUp));
  }

  lemma OkExactly(cfg: Config, chain: Ledger, v: View, r: ChallengeRequest)
    requires LinesAccepted(PlanChallenge(cfg, chain, v, r))
    ensures var plan := PlanChallenge(cfg, chain, v, r); var run := PlanRun(cfg, v, plan.runRequest).1;
            plan.response.ok <==> Passes(run, PlanTopUp(cfg, v, plan.norm.runId, run))
  {
    hide *;
    var ds, acc := AcceptedPlan(cfg, chain, v, r);
    var plan := PlanChallenge(cfg, chain, v, r);
    var run := PlanRun(cfg, v, plan.runRequest).1;
    PlannedFails(plan.norm, ds, acc);
    JudgedOk(LinesPlanned(plan.norm, ds, acc), run, PlanTopUp(cfg, v, plan.norm.runId, run));
  }

  /** The verdict on a run with this balance that needs this much: no shortfall, or one that can be topped up. */
  predicate Coverable(cfg: Config, v: View, balance: U64, target: U64, ok: bool) {
    if balance >= target then ok
    else
      cfg.autoTopUp && Trim(cfg.payoutAddress) != "" && Trim(cfg.escrowKeyName) != "" &&
      Trim(cfg.escrowAddress) != "" && v.escrowKey.Resolved? && v.escrowBalance.Some? &&
      v.escrowBalance.value >= target - balance
  }

  lemma TopUpVerdict(cfg: Config, v: View, sid: string, run: RunResponse)
    requires run.payoutBalanceBefore.Some?
    ensures Passes(run, PlanTopUp(cfg, v, sid, run)) <==>
            Coverable(cfg, v, run.payoutBalanceBefore.value, RequiredBalance(cfg, run), run.ok)
  {
    hide RequiredBalance, Trim, TopUpId;
  }

  lemma SameNeed(cfg: Config, run: RunResponse, run': RunResponse)
    requires run'.requestedTotal == run.requestedTotal && run'.estimatedFee == run.estimatedFee
    ensures RequiredBalance(cfg, run') == RequiredBalance(cfg, run)
  {
    hide Wrap, Add;
  }

  /** The settlement id changes nothing about a top-up but its id. */
  lemma SameTopUp(cfg: Config, v: View, sid: string, sid': string, run: RunResponse, run': RunResponse)
    requires run'.payoutBalanceBefore == run.payoutBalanceBefore && run'.requestedTotal == run.requestedTotal
    requires run'.estimatedFee == run.estimatedFee && run'.ok == run.ok
    ensures Passes(run', PlanTopUp(cfg, v, sid', run')) <==> Passes(run, PlanTopUp(cfg, v, sid, run))
  {
    hide PlanTopUp, RequiredBalance, Coverable, Passes;
    if run.payoutBalanceBefore.Some? {
      SameNeed(cfg, run, run');
      TopUpVerdict(cfg, v, sid, run);
      TopUpVerdict(cfg, v, sid', run');
    } else {
      Unplanned(cfg, v, sid, run);
      Unplanned(cfg, v, sid', run');
    }
  }

  lemma Unplanned(cfg: Config, v: View, sid: string, run: RunResponse)
    requires run.payoutBalanceBefore.None?
    ensures Passes(run, PlanTopUp(cfg, v, sid, run)) <==> run.ok
  {
    hide RequiredBalance, Trim, TopUpId;
  }

  /** Two runs with the same number of payouts and total pass alike, unless one of them is a market's. */
  lemma SameVerdict(cfg: Config, v: View, a: RunRequest, b: RunRequest, sid: string, sid': string)
    requires Prepare(a).0.role == PAYOUT && Prepare(b).0.role == PAYOUT
    requires |Prepare(a).0.payouts| == |Prepare(b).0.payouts| &&
             Prepare(a).1.requestedTotal == Prepare(b).1.requestedTotal
    ensures var run, run' := PlanRun(cfg, v, a).1, PlanRun(cfg, v, b).1;
            (NeedsEscrow(Prepare(a).0) ==> !Passes(run, PlanTopUp(cfg, v, sid, run))) &&
            (NeedsEscrow(Prepare(b).0) ==> !Passes(run', PlanTopUp(cfg, v, sid', run'))) &&
            (!NeedsEscrow(Prepare(a).0) && !NeedsEscrow(Prepare(b).0) ==>
               (Passes(run', PlanTopUp(cfg, v, sid', run')) <==> Passes(run, PlanTopUp(cfg, v, sid, run))))
  {
    hide Prepare, PlanRun, PlanTopUp, Passes, NeedsEscrow, HealthReport, Serviceable, Reserve;
    RunVerdict(cfg, v, a);
    RunVerdict(cfg, v, b);
    var run, run' := PlanRun(cfg, v, a).1, PlanRun(cfg, v, b).1;
    if run.payoutBalanceBefore.None? && !run.ok {
      Unplanned(cfg, v, sid, run);
    }
    if run'.payoutBalanceBefore.None? && !run'.ok {
      Unplanned(cfg, v, sid', run');
    }
    if |Prepare(a).0.payouts| > 0 && !NeedsEscrow(Prepare(a).0) && !NeedsEscrow(Prepare(b).0) {
      SameTopUp(cfg, v, sid, sid', run, run');
    }
  }

  /** The run handed over for accepted lines. */
  lemma HandedOver(cfg: Config, chain: Ledger, v: View, r: ChallengeRequest)
    requires LinesAccepted(PlanChallenge(cfg, chain, v, r)) && |r.transfers| <= MAX_RUN_PAYOUTS
    ensures var plan := PlanChallenge(cfg, chain, v, r); var (n, p) := Prepare(plan.runRequest);
            n.role == PAYOUT && n.payouts == RunPayouts(plan.norm.transfers) &&
            p.requestedTotal == Wrap(TransferTotal(plan.norm.transfers)) && (NeedsEscrow(n) <==> ForMarket(r))
  {
    hide PlanChallenge, RunPayouts, IdsDistinct, TransferTotal, Wrap, Prepare, ValidRunHeader, ForMarket, NeedsEscrow,
         GoodPlan, ValidHeader, NormHeader, TrimAll, VerifyAll, PlanTransfers, FinalizeChallenge, PlanRun, PlanTopUp,
         JudgePlan, LinesPlanned, AllOk;
    RunOfChallenge(cfg, chain, v, r);
    var ds, acc := AcceptedPlan(cfg, chain, v, r);
    MarketExactly(cfg, r, acc.transfers, acc.payouts);
  }

  /**
   * When one deposit is paid out again. Beside an accepted request, a request on the same terms is accepted under the
   * same observation, at any later time, if and only if it may use the deposits and is not a market's; its lines differ
   * in their ids alone.
   */
  lemma PaidAgainExactly(cfg: Config, chain: Ledger, chain': Ledger, v: View, r: ChallengeRequest, r': ChallengeRequest)
    requires PlanChallenge(cfg, chain, v, r).response.ok && SameTerms(r, r') && Grows(chain, chain')
    ensures var plan, plan' := PlanChallenge(cfg, chain, v, r), PlanChallenge(cfg, chain', v, r');
            (plan'.response.ok <==> Reusable(plan.response.funding, r') && !ForMarket(r')) &&
            (plan'.response.ok ==>
               plan'.response.funding == plan.response.funding &&
               SameLines(Trim(r'.runId), r'.transfers, plan.norm.transfers, plan'.norm.transfers))
  {
    hide *;
    var plan, plan' := PlanChallenge(cfg, chain, v, r), PlanChallenge(cfg, chain', v, r');
    AcceptedIsReady(cfg, chain, v, r);
    DepositReusedExactly(cfg, chain, chain', v, v, r, r');
    NoFault(cfg, chain, v, r);
    if plan'.response.ok {
      AcceptedIsReady(cfg, chain', v, r');
    }
    if LinesAccepted(plan') {
      ReadyShort(cfg, chain, v, r);
      TermsParts(cfg, r, r');
      SameLength(r.transfers, r'.transfers);
      HandedOver(cfg, chain, v, r);
      HandedOver(cfg, chain', v, r');
      LinesHaveSameAmounts(Trim(r'.runId), r'.transfers, plan.norm.transfers, plan'.norm.transfers);
      SameRun(plan.norm.transfers, plan'.norm.transfers);
      SameVerdict(cfg, v, plan.runRequest, plan'.runRequest, plan.norm.runId, plan'.norm.runId);
      OkExactly(cfg, chain, v, r);
      OkExactly(cfg, chain', v, r');
    }
  }

  lemma LinesHaveSameAmounts(sid: string, ts': seq<TransferInput>, ns: seq<NormTransfer>, ns': seq<NormTransfer>)
    requires SameLines(sid, ts', ns, ns')
    ensures SameAmounts(ns, ns')
  {
  }

  lemma SameLength(ts: seq<TransferInput>, ts': seq<TransferInput>)
    requires SameButIds(ts, ts')
    ensures |ts'| == |ts|
  {
  }

  lemma ReadyShort(cfg: Config, chain: Ledger, v: View, r: ChallengeRequest)
    requires PlanChallenge(cfg, chain, v, r).response.ok
    ensures |r.transfers| <= MAX_RUN_PAYOUTS
  {
    hide PlanChallenge, RunPayouts, IdsDistinct, TransferTotal, Wrap, Prepare, SameExecution, PaidTransfer,
         ValidRunHeader;
    AcceptedIsReady(cfg, chain, v, r);
    RunOfChallenge(cfg, chain, v, r);
  }

  lemma NoFault(cfg: Config, chain: Ledger, v: View, r: ChallengeRequest)
    requires LinesAccepted(PlanChallenge(cfg, chain, v, r))
    ensures v.fault.None?
  {
    hide *;
    SelfTerms(r);
    GrowsSelf(chain);
    DepositReusedExactly(cfg, chain, chain, v, v, r, r);
  }

  lemma SelfTerms(r: ChallengeRequest)
    ensures SameTerms(r, r)
  {
  }

  lemma GrowsSelf(chain: Ledger)
    ensures Grows(chain, chain)
  {
  }

  /** A deposit cited in a request: under its own hash, and as the request describes it. */
  predicate CitedAs(r: ChallengeRequest, f: FundingInput, d: Deposit) {
    d.ok && d.hash == Upper(Trim(f.hash)) && AsAsked(f.depositor, d.sender) && AsAsked(f.runId, d.runId) &&
    AsAsked(f.side, d.side) && AsAsked(f.pid, d.pid) && AsAsked(f.expected, d.total) && AsAsked(f.wager, d.wager) &&
    AsAsked(f.guarantee, d.guarantee) && AsAsked(r.sourceApp, d.sourceApp) && AsAsked(r.challengeId, d.challengeId) &&
    AsAsked(r.sourceEventId, d.sourceEventId)
  }

  lemma TrimmedAsked(asked: string, found: string)
    ensures AsAsked(Trim(asked), found) <==> AsAsked(asked, found)
  {
    hide Trim, Lower;
    TrimShape(asked);
  }

  lemma DepositAsCited(cfg: Config, chain: Ledger, v: View, r: ChallengeRequest, i: nat)
    requires i < |r.funding| && |Cited(cfg, r).funding| == |r.funding|
    requires VerifyAll(cfg, chain, v.fault, Cited(cfg, r))[i].ok
    ensures CitedAs(r, r.funding[i], VerifyAll(cfg, chain, v.fault, Cited(cfg, r))[i])
  {
    hide VerifyDeposit, ProvenBy, MeetsExpectation, ValidExpectation, AsAsked, Trim, Upper;
    var n := Cited(cfg, r);
    var f, t := r.funding[i], n.funding[i];
    assert t == TrimFunding(f);
    var e := ExpectationOf(n, t);
    VerifiedAsAsked(cfg, chain, v.fault, t.hash, e);
    VerifiedIsProven(cfg, chain, v.fault, t.hash, e);
    UpperTrimmed(f.hash);
    TrimmedAsked(f.depositor, VerifyDeposit(cfg, chain, v.fault, t.hash, e).sender);
    TrimmedAsked(f.runId, VerifyDeposit(cfg, chain, v.fault, t.hash, e).runId);
    TrimmedAsked(f.side, VerifyDeposit(cfg, chain, v.fault, t.hash, e).side);
    TrimmedAsked(f.pid, VerifyDeposit(cfg, chain, v.fault, t.hash, e).pid);
    TrimmedAsked(f.expected, VerifyDeposit(cfg, chain, v.fault, t.hash, e).total);
    TrimmedAsked(f.wager, VerifyDeposit(cfg, chain, v.fault, t.hash, e).wager);
    TrimmedAsked(f.guarantee, VerifyDeposit(cfg, chain, v.fault, t.hash, e).guarantee);
    TrimmedAsked(r.sourceApp, VerifyDeposit(cfg, chain, v.fault, t.hash, e).sourceApp);
    TrimmedAsked(r.challengeId, VerifyDeposit(cfg, chain, v.fault, t.hash, e).challengeId);
    TrimmedAsked(r.sourceEventId, VerifyDeposit(cfg, chain, v.fault, t.hash, e).sourceEventId);
  }

  lemma UpperTrimmed(s: string)
    ensures Upper(Trim(Upper(Trim(s)))) == Upper(Trim(s))
  {
    TrimShape(s);
    var t := Trim(s);
    assert Trimmed(Upper(t));
  }

  /** Every deposit of an accepted request is one its own transaction proves, exactly as the request describes it. */
  lemma FundedAsCited(cfg: Config, chain: Ledger, v: View, r: ChallengeRequest)
    requires LinesAccepted(PlanChallenge(cfg, chain, v, r))
    ensures var ds := PlanChallenge(cfg, chain, v, r).response.funding;
            |ds| == |r.funding| && AllProven(cfg, chain, ds) &&
            forall i :: 0 <= i < |ds| ==> CitedAs(r, r.funding[i], ds[i])
  {
    hide PlanChallenge, AllProven, CitedAs, DistinctParticipants, BucketsExact, NoInvalidMove, ValidHeader,
         PlanTransfers, VerifyDeposit, NormHeader;
    AcceptedExactly(cfg, chain, v, r);
    FundingProven(cfg, chain, v, r);
    var ds := PlanChallenge(cfg, chain, v, r).response.funding;
    forall i | 0 <= i < |ds| ensures CitedAs(r, r.funding[i], ds[i]) {
      DepositAsCited(cfg, chain, v, r, i);
    }
  }

  /** A planned line: what the request asks for, under its own id or a derived one, with the request's defaults. */
  predicate PlannedAs(r: ChallengeRequest, n: NormChallenge, i: nat, t: NormTransfer)
    requires i < |r.transfers|
  {
    var raw := r.transfers[i];
    t.index == i && t.id == (if Trim(raw.id) != "" then Trim(raw.id) else n.runId + ":challenge-" + Pad3(i + 1)) &&
    t.side == Trim(raw.side) && t.pid == Trim(raw.pid) && t.bucket == Trim(Lower(raw.bucket)) &&
    t.reason == Trim(Lower(raw.reason)) && Some(t.amount) == NormalizeAmount(raw.amountUWolo, raw.amountWolo) &&
    t.to == (if Trim(raw.to) != "" then Trim(raw.to) else n.treasury) &&
    t.memo == Cut(if Trim(raw.memo) != "" then Trim(raw.memo) else Cut(Trim(r.memo), 180), 180)
  }

  /** A line in the form the service asks for. */
  predicate InForm(t: NormTransfer) {
    RequestIdPattern(t.id) && (t.side != "" || t.pid != "") && (t.side == "" || SidePattern(t.side)) &&
    (t.pid == "" || EventPattern(t.pid)) && (t.bucket == "wager" || t.bucket == "guarantee") &&
    ReasonPattern(t.reason) && IsWoloAddress(t.to)
  }

  lemma PlannedInForm(ds: seq<Deposit>, i: nat, t: NormTransfer)
    requires GoodTransfer(ds, i, t)
    ensures InForm(t) && t.amount != "" && t.to != ""
  {
    hide Trim, Resolve, RequestIdPattern, SidePattern, EventPattern, ReasonPattern, IsWoloAddress;
  }

  lemma NormalIsPlanned(r: ChallengeRequest, n: NormChallenge, i: nat)
    requires i < |r.transfers| && n.memo == Cut(Trim(r.memo), 180)
    requires var t := NormalTransfer(r.transfers[i], n.runId, i, n.memo, n.treasury); t.amount != "" && t.to != ""
    ensures PlannedAs(r, n, i, NormalTransfer(r.transfers[i], n.runId, i, n.memo, n.treasury))
  {
    hide Trim, NormalizeAmount, Lower, Pad3;
  }

  /** Every line of an accepted request is in form, and is the one asked for; the rest of it is kept trimmed. */
  lemma LinesAsAsked(cfg: Config, chain: Ledger, v: View, r: ChallengeRequest)
    requires LinesAccepted(PlanChallenge(cfg, chain, v, r))
    ensures var n := PlanChallenge(cfg, chain, v, r).norm;
            |n.transfers| == |r.transfers| && n.runId == Trim(r.runId) && n.sourceApp == Trim(r.sourceApp) &&
            n.challengeId == Trim(r.challengeId) && n.sourceEventId == Trim(r.sourceEventId) &&
            n.note == Cut(Trim(r.note), 280) && n.memo == Cut(Trim(r.memo), 180) && |n.funding| == |r.funding| &&
            forall i :: 0 <= i < |n.transfers| ==> PlannedAs(r, n, i, n.transfers[i]) && InForm(n.transfers[i])
  {
    hide PlanChallenge, VerifyAll, PlanTransfers, FinalizeChallenge, JudgePlan, PlanRun, PlanTopUp, ValidHeader,
         AllProven, DistinctParticipants, KeysDistinct, BucketsExact, AllRouted, LinesPlanned, RunRequestOf, TrimAll,
         AllOk, PlannedAs, InForm, GoodAcc, NormalTransfer, TreasuryOf, Trim;
    var ds, acc := AcceptedPlan(cfg, chain, v, r);
    var n := PlanChallenge(cfg, chain, v, r).norm;
    GoodTransfers(ds, acc);
    forall i | 0 <= i < |n.transfers| ensures PlannedAs(r, n, i, n.transfers[i]) && InForm(n.transfers[i]) {
      PlanTransfersNormal(ds, n.runId, n.memo, n.treasury, r.transfers, i);
      PlannedInForm(ds, i, n.transfers[i]);
      NormalIsPlanned(r, n, i);
    }
  }

  // ---------------------------------------------------------------- derived ids

  /** Lines without an id of their own get usable ids from any valid settlement id, and from no two the same. */
  lemma DerivedAreUsable(sid: string, ts: seq<TransferInput>)
    requires ValidRunId(sid) && |ts| <= TWO63 && forall i :: 0 <= i < |ts| ==> Trim(ts[i].id) == ""
    ensures UsableIds(sid, ts)
  {
    hide Trim, RequestIdPattern, ValidRunId, ChallengeTransferId;
    forall i | 0 <= i < |ts| ensures RequestIdPattern(MoveId(sid, i, ts[i].id)) {
      DerivedIdsValid(sid, i);
    }
    forall i, j | 0 <= i < j < |ts| ensures MoveId(sid, i, ts[i].id) != MoveId(sid, j, ts[j].id) {
      DerivedIdsInjective(sid, i, sid, j);
    }
  }

  /**
   * The very same request, with no ids of its own, is accepted again under any valid settlement id that does not name a
   * market, and no line of the one shares its request id with a line of the other: all of it is paid again.
   */
  lemma SameRequestPaysAgain(cfg: Config, chain: Ledger, chain': Ledger, v: View, r: ChallengeRequest, sid: string)
    requires PlanChallenge(cfg, chain, v, r).response.ok && Grows(chain, chain') && |r.transfers| <= TWO63
    requires forall i :: 0 <= i < |r.transfers| ==> Trim(r.transfers[i].id) == ""
    ensures var plan, plan' := PlanChallenge(cfg, chain, v, r), PlanChallenge(cfg, chain', v, r.(runId := sid));
            (plan'.response.ok <==> ValidRunId(Trim(sid)) && !ForMarket(r.(runId := sid))) &&
            (plan'.response.ok ==> plan'.response.funding == plan.response.funding) &&
            (plan'.response.ok && Trim(sid) != Trim(r.runId) ==>
               forall i, j :: 0 <= i < |plan.norm.transfers| && 0 <= j < |plan'.norm.transfers| ==>
                 plan.norm.transfers[i].id != plan'.norm.transfers[j].id)
  {
    hide PlanChallenge, ForMarket, ValidRunId, AllName, UsableIds, ValidNames, Grows, Trim, ChallengeTransferId;
    var r' := r.(runId := sid);
    var plan, plan' := PlanChallenge(cfg, chain, v, r), PlanChallenge(cfg, chain', v, r');
    PaidAgainExactly(cfg, chain, chain', v, r, r');
    GrowsSelf(chain);
    PaidAgainExactly(cfg, chain, chain, v, r, r);
    SameNaming(plan.response.funding, r, sid);
    if ValidRunId(Trim(sid)) {
      DerivedAreUsable(Trim(sid), r.transfers);
    }
    if plan'.response.ok && Trim(sid) != Trim(r.runId) {
      forall i, j | 0 <= i < |plan.norm.transfers| && 0 <= j < |plan'.norm.transfers|
        ensures plan.norm.transfers[i].id != plan'.norm.transfers[j].id
      {
        DerivedIdsInjective(Trim(r.runId), i, Trim(sid), j);
      }
    }
  }

  lemma SameNaming(ds: seq<Deposit>, r: ChallengeRequest, sid: string)
    ensures AllName(ds, r.(runId := sid)) <==> AllName(ds, r)
    ensures ValidNames(r.(runId := sid)) <==> ValidNames(r)
  {
    hide Trim, ValidSourceApp, ValidEventId, Agrees;
    assert forall d :: NamedBy(d, r.(runId := sid)) <==> NamedBy(d, r);
  }

  // ---------------------------------------------------------------- what one transaction names

  /** Everything a memo says is read from the memo alone. */
  lemma ParsedSame(memo: string, a: string, b: string)
    requires ParseMemo(memo, a).Some? && ParseMemo(memo, b).Some?
    ensures ParseMemo(memo, a) == ParseMemo(memo, b)
  {
    hide Trim, ParseQuery, ValidFields, ParseUint;
  }

  predicate SameWhereNamed(a: string, b: string) {
    Trim(a) == "" || Trim(b) == "" || EqualFold(Trim(a), Trim(b))
  }

  /**
   * Two accepted requests that cite one transaction, whenever they were made, are about the same source, challenge and
   * event as far as both name them, and count the deposit for the same participant with the same buckets.
   */
  lemma SharedDepositNames(cfg: Config, chain: Ledger, chain': Ledger, v: View, v': View, r: ChallengeRequest,
                           r': ChallengeRequest, i: nat, j: nat)
    requires LinesAccepted(PlanChallenge(cfg, chain, v, r)) && LinesAccepted(PlanChallenge(cfg, chain', v', r'))
    requires Grows(chain, chain') && i < |PlanChallenge(cfg, chain, v, r).response.funding| &&
             j < |PlanChallenge(cfg, chain', v', r').response.funding|
    requires PlanChallenge(cfg, chain, v, r).response.funding[i].hash ==
             PlanChallenge(cfg, chain', v', r').response.funding[j].hash
    ensures var d, d' := PlanChallenge(cfg, chain, v, r).response.funding[i],
                         PlanChallenge(cfg, chain', v', r').response.funding[j];
            d'.side == d.side && d'.pid == d.pid && d'.wager == d.wager && d'.guarantee == d.guarantee &&
            NamedBy(d, r) && NamedBy(d, r')
    ensures EqualFold(Trim(r.sourceApp), Trim(r'.sourceApp)) && SameWhereNamed(r.challengeId, r'.challengeId) &&
            SameWhereNamed(r.sourceEventId, r'.sourceEventId)
  {
    hide PlanChallenge, Grows, ProvenBy, Trim, EqualFold, ValidRunId, UsableIds, ValidSourceApp, ValidEventId;
    SelfTerms(r);
    SelfTerms(r');
    GrowsSelf(chain);
    GrowsSelf(chain');
    DepositReusedExactly(cfg, chain, chain, v, v, r, r);
    DepositReusedExactly(cfg, chain', chain', v', v', r', r');
    var d, d' := PlanChallenge(cfg, chain, v, r).response.funding[i],
                 PlanChallenge(cfg, chain', v', r').response.funding[j];
    FundingProven(cfg, chain, v, r);
    FundingProven(cfg, chain', v', r');
    SameMemo(cfg, chain, chain', d, d');
    assert NamedBy(d, r) && NamedBy(d', r');
    FoldedNames(d, r, r');
  }

  lemma FoldedNames(d: Deposit, r: ChallengeRequest, r': ChallengeRequest)
    requires NamedBy(d, r) && NamedBy(d, r') && ValidNames(r) && ValidNames(r')
    ensures EqualFold(Trim(r.sourceApp), Trim(r'.sourceApp)) && SameWhereNamed(r.challengeId, r'.challengeId) &&
            SameWhereNamed(r.sourceEventId, r'.sourceEventId)
  {
    hide Trim, Lower, ValidSourceApp, ValidEventId;
  }

  lemma FundingProven(cfg: Config, chain: Ledger, v: View, r: ChallengeRequest)
    requires LinesAccepted(PlanChallenge(cfg, chain, v, r))
    ensures AllProven(cfg, chain, PlanChallenge(cfg, chain, v, r).response.funding)
  {
    hide PlanChallenge, VerifyAll, AllProven, AllOk, DistinctParticipants, BucketsExact, NoInvalidMove, ValidHeader,
         PlanTransfers;
    AcceptedExactly(cfg, chain, v, r);
    VerifiedAll(cfg, chain, v.fault, Cited(cfg, r));
  }

  lemma SameMemo(cfg: Config, chain: Ledger, chain': Ledger, d: Deposit, d': Deposit)
    requires ProvenBy(cfg, chain, d) && ProvenBy(cfg, chain', d') && d.hash == d'.hash && Grows(chain, chain')
    ensures d' == d.(sender := d'.sender, total := d'.total)
  {
    hide KindOf, TxHash, ParseMemo, Trim, FormatUint, EqualFold;
    var t, f :| ProvenWith(cfg, chain, d, t, f);
    var t', f' :| ProvenWith(cfg, chain', d', t', f');
    ParsedSame(chain[d.hash].memo, t.amount, t'.amount);
  }
}

/** What a grouped run promises: counts, totals and status, and a plan that admits what execution admits. */
module RunLaws {
  import opened Text
  import opened Amounts
  import opened Ids
  import opened Records
  import opened Signers
  import opened Transfers
  import opened Runs

  // ---------------------------------------------------------------- counts, totals and status

  /** The five ways an executed line can end. */
  datatype LineClass = IsConfirmed | IsAccepted | IsRefused | IsRejected | IsReplayedFailure

  /** A line built from the answer of a single transfer. */
  predicate ExecutedLine(l: Line) {
    (l.status == Failed || l.status == Accepted || l.status == Confirmed) && (l.ok <==> l.status != Failed) &&
    OptionalAmount(l.amount).Some? &&
    l.outcome == (if l.replay then Replayed else if l.status == Confirmed then ConfirmedLine
                  else if l.status == Accepted then AcceptedLine else if Trim(l.txHash) == "" then Refused
                       else Rejected)
  }

  function Class(l: Line): LineClass {
    if l.status == Confirmed then IsConfirmed
    else if l.status == Accepted then IsAccepted
    else if l.outcome == Replayed then IsReplayedFailure
    else if l.outcome == Rejected then IsRejected
    else IsRefused
  }

  function Count(lines: seq<Line>, c: LineClass): nat {
    if |lines| == 0 then 0
    else Count(lines[..|lines| - 1], c) + (if Class(lines[|lines| - 1]) == c then 1 else 0)
  }

  /** The exact, unbounded total of the lines of one class. */
  function Total(lines: seq<Line>, c: LineClass): nat {
    if |lines| == 0 then 0
    else
      var l := lines[|lines| - 1];
      Total(lines[..|lines| - 1], c) + (if Class(l) == c then LineAmount(l.amount) else 0)
  }

  predicate AllExecuted(lines: seq<Line>) {
    forall i :: 0 <= i < |lines| ==> ExecutedLine(lines[i])
  }

  lemma {:induction false} ClassesPartition(lines: seq<Line>)
    ensures Count(lines, IsConfirmed) + Count(lines, IsAccepted) + Count(lines, IsRefused) + Count(lines, IsRejected)
            + Count(lines, IsReplayedFailure) == |lines|
  {
    if |lines| > 0 {
      ClassesPartition(lines[..|lines| - 1]);
    }
  }

  lemma {:induction false} CountAll(lines: seq<Line>, c: LineClass)
    ensures Count(lines, c) <= |lines|
    ensures Count(lines, c) == |lines| <==> forall i :: 0 <= i < |lines| ==> Class(lines[i]) == c
  {
    if |lines| > 0 {
      var init := lines[..|lines| - 1];
      CountAll(init, c);
      if Count(lines, c) == |lines| {
        forall i | 0 <= i < |lines| ensures Class(lines[i]) == c {
          if i < |init| { assert lines[i] == init[i]; }
        }
      }
      if forall i :: 0 <= i < |lines| ==> Class(lines[i]) == c {
        assert forall i :: 0 <= i < |init| ==> Class(init[i]) == c;
      }
    }
  }

  /** The counters of a tally that starts from zero count the classes. */
  predicate CountsClasses(t: Tally, lines: seq<Line>) {
    t.confirmed == Count(lines, IsConfirmed) && t.accepted == Count(lines, IsAccepted) &&
    t.refused == Count(lines, IsRefused) && t.rejected == Count(lines, IsRejected) &&
    t.executed == t.confirmed + t.accepted
  }

  /** The totals of a tally that starts from zero are the exact class totals modulo 2^64. */
  predicate SumsClasses(t: Tally, lines: seq<Line>) {
    t.confirmedTotal == Wrap(Total(lines, IsConfirmed)) && t.acceptedTotal == Wrap(Total(lines, IsAccepted)) &&
    t.refusedTotal == Wrap(Total(lines, IsRefused)) && t.rejectedTotal == Wrap(Total(lines, IsRejected)) &&
    t.executedTotal == Wrap(Total(lines, IsConfirmed) + Total(lines, IsAccepted))
  }

  lemma {:induction false} TallyCounts(lines: seq<Line>)
    requires AllExecuted(lines)
    ensures CountsClasses(TallyLines(ZERO, lines), lines)
  {
    if |lines| > 0 {
      var init, l := lines[..|lines| - 1], lines[|lines| - 1];
      TallyCounts(init);
      hide ExecutedLine, CountsClasses, TallyLine;
      TallyCountsStep(TallyLines(ZERO, init), init, l);
      assert init + [l] == lines;
    }
  }

  lemma TallyCountsStep(t: Tally, init: seq<Line>, l: Line)
    requires ExecutedLine(l) && CountsClasses(t, init)
    ensures CountsClasses(TallyLine(t, l.status, l.outcome, l.replay, l.retryable, OptionalAmount(l.amount)),
                          init + [l])
  {
    hide Add, Trim, OptionalAmount, Count;
    CountSnoc(init, l);
  }

  lemma CountSnoc(init: seq<Line>, l: Line)
    ensures forall c :: Count(init + [l], c) == Count(init, c) + (if Class(l) == c then 1 else 0)
  {
    assert (init + [l])[..|init|] == init;
  }

  lemma TallySumsStep(t: Tally, init: seq<Line>, l: Line)
    requires ExecutedLine(l) && SumsClasses(t, init)
    ensures SumsClasses(TallyLine(t, l.status, l.outcome, l.replay, l.retryable, OptionalAmount(l.amount)), init + [l])
  {
    hide Wrap, Trim, OptionalAmount, Total;
    var a := LineAmount(l.amount);
    TotalSnoc(init, l);
    WrapAdd(Total(init, Class(l)), a);
    WrapAdd(Total(init, IsConfirmed) + Total(init, IsAccepted), a);
  }

  lemma TotalSnoc(init: seq<Line>, l: Line)
    ensures forall c :: Total(init + [l], c) == Total(init, c) + (if Class(l) == c then LineAmount(l.amount) else 0)
  {
    assert (init + [l])[..|init|] == init;
  }

  lemma {:induction false} TallySums(lines: seq<Line>)
    requires AllExecuted(lines)
    ensures SumsClasses(TallyLines(ZERO, lines), lines)
  {
    WrapSmall(0);
    if |lines| > 0 {
      var init, l := lines[..|lines| - 1], lines[|lines| - 1];
      TallySums(init);
      hide ExecutedLine, SumsClasses, TallyLine;
      TallySumsStep(TallyLines(ZERO, init), init, l);
      assert init + [l] == lines;
    }
  }

  lemma {:induction false} TallyRetryable(lines: seq<Line>)
    requires AllExecuted(lines)
    ensures TallyLines(ZERO, lines).retryable <==> HasRetryable(lines)
  {
    hide Wrap, Trim, ParseUint, Add;
    if |lines| > 0 {
      var init, l := lines[..|lines| - 1], lines[|lines| - 1];
      TallyRetryable(init);
      if HasRetryable(init) {
        var i :| 0 <= i < |init| && init[i].retryable;
        assert lines[i].retryable;
      }
    }
  }

  /**
   * The two ways a finished run is left without any status: every shortfall is a replayed failure or an invalid line.
   */
  predicate NoVerdict(requested: nat, lines: seq<Line>) {
    Count(lines, IsRefused) == 0 && Count(lines, IsRejected) == 0 &&
    (requested == 0 || Count(lines, IsConfirmed) + Count(lines, IsAccepted) != requested)
  }

  predicate AllConfirmed(lines: seq<Line>) {
    forall i :: 0 <= i < |lines| ==> lines[i].status == Confirmed
  }

  lemma ExecutedRunForm(plan: RunResponse, lines: seq<Line>)
    requires plan.requested > 0 || |lines| == 0
    ensures var r := ExecutedRun(plan, lines); var t := TallyLines(ZERO, lines);
            r.tally == t && r.lines == lines && r.requested == plan.requested &&
            r.requestedTotal == plan.requestedTotal &&
            !r.replay && r.runId == plan.runId && r.role == plan.role && r.retryable == t.retryable &&
            r.status == DeriveStatus(plan.requested, t) && (r.ok <==> r.status == Confirmed || r.status == Accepted)
  {
    hide TallyLines, FirstFailureCode, FirstNonEmpty;
    assert Recount(ZERO, false) == ZERO;
  }

  /** Counts, totals and status of an executed run, for every plan and every list of executed lines. */
  lemma RunStatusAndTotals(plan: RunResponse, lines: seq<Line>)
    requires AllExecuted(lines) && |lines| <= plan.requested
    ensures var r := ExecutedRun(plan, lines); var t := r.tally;
            t.confirmed + t.accepted + t.refused + t.rejected + Count(lines, IsReplayedFailure) == |lines| &&
            t.executed == t.confirmed + t.accepted &&
            t.executedTotal == Wrap(t.confirmedTotal + t.acceptedTotal) && SumsClasses(t, lines) &&
            (r.status == Confirmed <==> plan.requested > 0 && |lines| == plan.requested && AllConfirmed(lines)) &&
            (r.status == Blank <==> NoVerdict(plan.requested, lines)) &&
            (r.ok <==> r.status == Confirmed || r.status == Accepted) &&
            (r.retryable <==> HasRetryable(lines))
  {
    hide ExecutedRun, TallyLines, Wrap, Count, Total, ExecutedLine, SumsClasses;
    ExecutedRunForm(plan, lines);
    ClassesPartition(lines);
    TallyCounts(lines);
    TallySums(lines);
    TallyRetryable(lines);
    CountAll(lines, IsConfirmed);
    assert AllConfirmed(lines) <==> forall i :: 0 <= i < |lines| ==> Class(lines[i]) == IsConfirmed;
    ExecutedTotals(TallyLines(ZERO, lines), lines);
  }

  lemma ExecutedTotals(t: Tally, lines: seq<Line>)
    requires SumsClasses(t, lines)
    ensures t.executedTotal == Wrap(t.confirmedTotal + t.acceptedTotal)
  {
    hide Wrap, Total;
    WrapAdd(Total(lines, IsConfirmed), Wrap(Total(lines, IsAccepted)));
    WrapAdd(Total(lines, IsAccepted), Total(lines, IsConfirmed));
  }

  lemma {:induction false} CountSome(lines: seq<Line>, c: LineClass)
    ensures Count(lines, c) > 0 <==> exists i :: 0 <= i < |lines| && Class(lines[i]) == c
  {
    hide Class;
    if |lines| > 0 {
      var init := lines[..|lines| - 1];
      CountSome(init, c);
      if i :| 0 <= i < |init| && Class(init[i]) == c {
        assert Class(lines[i]) == c;
      }
      if i :| 0 <= i < |lines| && Class(lines[i]) == c {
        assert i < |init| ==> Class(init[i]) == c;
      }
    }
  }

  /** The line was sent, and its send was accepted or confirmed. */
  predicate Sent(l: Line) {
    l.status == Confirmed || l.status == Accepted
  }

  /** The line was refused before it was sent, or rejected by the chain, in this very run. */
  predicate TurnedAway(l: Line) {
    Class(l) == IsRefused || Class(l) == IsRejected
  }

  predicate SomeSent(lines: seq<Line>) {
    exists i :: 0 <= i < |lines| && Sent(lines[i])
  }

  predicate SomeTurnedAway(lines: seq<Line>) {
    exists i :: 0 <= i < |lines| && TurnedAway(lines[i])
  }

  predicate AllSent(lines: seq<Line>) {
    forall i :: 0 <= i < |lines| ==> Sent(lines[i])
  }

  lemma SentCounts(lines: seq<Line>)
    ensures SomeSent(lines) <==> Count(lines, IsConfirmed) + Count(lines, IsAccepted) > 0
    ensures SomeTurnedAway(lines) <==> Count(lines, IsRefused) + Count(lines, IsRejected) > 0
    ensures AllSent(lines) <==> Count(lines, IsConfirmed) + Count(lines, IsAccepted) == |lines|
  {
    hide Count;
    CountSome(lines, IsConfirmed);
    CountSome(lines, IsAccepted);
    CountSome(lines, IsRefused);
    CountSome(lines, IsRejected);
    CountSome(lines, IsReplayedFailure);
    ClassesPartition(lines);
    forall i | 0 <= i < |lines|
      ensures Sent(lines[i]) <==> Class(lines[i]) == IsConfirmed || Class(lines[i]) == IsAccepted
    {
    }
  }

  /** Every status of an executed run, told from its lines alone. */
  lemma RunStatusExactly(plan: RunResponse, lines: seq<Line>)
    requires AllExecuted(lines) && |lines| <= plan.requested
    ensures var s := ExecutedRun(plan, lines).status; var whole := plan.requested > 0 && |lines| == plan.requested;
            (s == Confirmed <==> whole && AllConfirmed(lines)) &&
            (s == Accepted <==> whole && AllSent(lines) && !AllConfirmed(lines)) &&
            (s == Partial <==> SomeSent(lines) && SomeTurnedAway(lines)) &&
            (s == Failed <==> !SomeSent(lines) && SomeTurnedAway(lines))
  {
    hide ExecutedRun, TallyLines, Count, ExecutedLine, SomeSent, SomeTurnedAway, AllSent, AllConfirmed, NoVerdict,
         SumsClasses;
    ExecutedRunForm(plan, lines);
    RunStatusAndTotals(plan, lines);
    TallyCounts(lines);
    ClassesPartition(lines);
    SentCounts(lines);
  }

  function Values(payouts: seq<Payout>): (v: seq<nat>)
    ensures |v| == |payouts|
  {
    seq(|payouts|, i requires 0 <= i < |payouts| => LineAmount(payouts[i].amount) as nat)
  }

  lemma {:induction false} ConfirmedSum(lines: seq<Line>, payouts: seq<Payout>)
    requires |lines| == |payouts| && AllConfirmed(lines)
    requires forall i :: 0 <= i < |lines| ==> lines[i].amount == payouts[i].amount
    ensures Total(lines, IsConfirmed) == Sum(Values(payouts))
  {
    if |lines| > 0 {
      var n := |lines| - 1;
      ConfirmedSum(lines[..n], payouts[..n]);
      assert Values(payouts)[..n] == Values(payouts[..n]);
    }
  }

  // ---------------------------------------------------------------- preparation

  /** The facts every prepared list of payouts satisfies. */
  predicate Prepared(p: Prep) {
    |p.payouts| <= |p.lines| &&
    (p.invalid <==> |p.payouts| < |p.lines|) &&
    (forall k :: 0 <= k < |p.payouts| ==> NormalPayout(p.payouts[k]) && p.payouts[k].id in p.seen) &&
    (forall j, k :: 0 <= j < k < |p.payouts| ==> p.payouts[j].id != p.payouts[k].id) &&
    (forall i :: 0 <= i < |p.lines| ==> PlannedLine(p.lines[i])) &&
    p.total == Wrap(Sum(Values(p.payouts)))
  }

  /** A payout that normalizing again leaves as it is, except for spaces at the end of a cut memo. */
  predicate NormalPayout(p: Payout) {
    Trim(p.id) == p.id && RequestIdPattern(p.id) && Trim(p.to) == p.to && IsWoloAddress(p.to) &&
    Trim(p.amount) == p.amount && p.amount != "" && |p.memo| <= 180
  }

  /** A line that has not been executed carries no hash and no executed status. */
  predicate PlannedLine(l: Line) {
    !l.attempted && l.txHash == "" && !l.replay && (l.status == Failed || l.status == Validated) &&
    (l.outcome == Invalid || l.outcome == Ready || l.outcome == Refused)
  }

  lemma PrepareLineKeeps(runId: string, memo: string, role: string, prep: Prep, raw: RawRequest)
    requires Prepared(prep)
    ensures Prepared(PrepareLine(runId, memo, role, prep, raw))
  {
    hide Wrap, Normalize, ItemRaw, NormalPayout, LineAmount;
    var item := ItemRaw(runId, memo, |prep.lines|, raw);
    var n := Normalize(item, role);
    if n.Some? && n.value.id !in prep.seen {
      NormalizedPayout(item, role, |prep.lines|);
      PayoutSnoc(prep.payouts, ReadyPayout(n.value, |prep.lines|));
    }
  }

  function ReadyPayout(n: Request, index: nat): Payout {
    Payout(index, n.id, n.to, n.amount, n.memo)
  }

  lemma NormalizedPayout(raw: RawRequest, role: string, index: nat)
    requires Normalize(raw, role).Some?
    ensures NormalPayout(ReadyPayout(Normalize(raw, role).value, index))
  {
    hide Trim, ParseUint, RequestIdPattern, IsWoloAddress;
    NormalizeFixed(raw, role, role);
  }

  lemma PayoutSnoc(payouts: seq<Payout>, p: Payout)
    ensures Wrap(Sum(Values(payouts + [p]))) == Wrap(Wrap(Sum(Values(payouts))) + LineAmount(p.amount))
  {
    hide Wrap, LineAmount;
    var x: nat := LineAmount(p.amount);
    assert Values(payouts + [p]) == Values(payouts) + [x];
    SumSnoc(Values(payouts), x);
    WrapAdd(Sum(Values(payouts)), x);
  }

  lemma {:induction false} PrepareLinesPrepared(runId: string, memo: string, role: string, raws: seq<RawRequest>)
    ensures Prepared(PrepareLines(runId, memo, role, raws))
  {
    if |raws| > 0 {
      PrepareLinesPrepared(runId, memo, role, raws[..|raws| - 1]);
      PrepareLineKeeps(runId, memo, role, PrepareLines(runId, memo, role, raws[..|raws| - 1]), raws[|raws| - 1]);
    }
  }

  /** The id an item is paid under: its own, or one derived from the run's. */
  function IdOfItem(runId: string, raw: RawRequest, index: nat): string {
    Trim(if Trim(raw.id) != "" then raw.id else runId + ":item-" + Pad3(index + 1))
  }

  /** An item that can be paid as far as it goes. */
  predicate PayableItem(runId: string, raw: RawRequest, index: nat) {
    RequestIdPattern(IdOfItem(runId, raw, index)) && IsWoloAddress(Trim(raw.to)) &&
    NormalizeAmount(raw.amountUWolo, raw.amountWolo).Some?
  }

  /** The payout that a submitted item asks for: its own id or a derived one, its recipient, its amount and its memo. */
  predicate PaysItem(runId: string, memo: string, raws: seq<RawRequest>, p: Payout) {
    p.index < |raws| &&
    var raw := raws[p.index];
    p.id == IdOfItem(runId, raw, p.index) &&
    p.to == Trim(raw.to) && Some(p.amount) == NormalizeAmount(raw.amountUWolo, raw.amountWolo) &&
    p.memo == Cut(Trim(if Trim(raw.memo) != "" then raw.memo else memo), 180)
  }

  /**
   * Every payout is asked for by an item, in order, and every other item is a refused line: it cannot be paid, or
   * repeats the id of an earlier payout.
   */
  ghost predicate PaysItems(runId: string, memo: string, raws: seq<RawRequest>, p: Prep) {
    |p.lines| == |raws| && (forall j :: 0 <= j < |p.payouts| ==> PaysItem(runId, memo, raws, p.payouts[j])) &&
    (forall j, k :: 0 <= j < k < |p.payouts| ==> p.payouts[j].index < p.payouts[k].index) &&
    (forall id :: id in p.seen ==> PaidBefore(p, id, |raws|)) &&
    forall i :: 0 <= i < |raws| ==> LineFor(runId, raws[i], p, i)
  }

  ghost predicate LineFor(runId: string, raw: RawRequest, p: Prep, i: nat)
    requires i < |p.lines|
  {
    p.lines[i].index == i &&
    if exists j :: 0 <= j < |p.payouts| && p.payouts[j].index == i then p.lines[i].outcome == Ready
    else
      p.lines[i].outcome == Invalid && p.lines[i].status == Failed && !p.lines[i].ok &&
      (PayableItem(runId, raw, i) ==> p.lines[i].failureCode == "DUPLICATE_REQUEST_ID" &&
                                      PaidBefore(p, IdOfItem(runId, raw, i), i))
  }

  ghost predicate PaidBefore(p: Prep, id: string, i: nat) {
    exists j :: 0 <= j < |p.payouts| && p.payouts[j].index < i && p.payouts[j].id == id
  }

  lemma NormalizesExactly(runId: string, memo: string, role: string, raw: RawRequest, index: nat)
    ensures var n := Normalize(ItemRaw(runId, memo, index, raw), role);
            (n.Some? <==> PayableItem(runId, raw, index)) && (n.Some? ==> n.value.id == IdOfItem(runId, raw, index))
  {
    hide IsWoloAddress, NormalizeAmount, Trim, Pad3, RequestIdPattern;
    TrimShape(raw.id);
    TrimShape(raw.to);
  }

  lemma PaysItemLater(runId: string, memo: string, raws: seq<RawRequest>, raw: RawRequest, p: Payout)
    requires PaysItem(runId, memo, raws, p)
    ensures PaysItem(runId, memo, raws + [raw], p)
  {
    hide Trim, NormalizeAmount, Pad3;
  }

  lemma ItemPays(runId: string, memo: string, role: string, raws: seq<RawRequest>, raw: RawRequest)
    ensures var n := Normalize(ItemRaw(runId, memo, |raws|, raw), role);
            n.Some? ==> PaysItem(runId, memo, raws + [raw], ReadyPayout(n.value, |raws|))
  {
    hide IsWoloAddress, NormalizeAmount, Trim, Pad3, RequestIdPattern;
    TrimShape(raw.id);
    TrimShape(raw.memo);
    assert (raws + [raw])[|raws|] == raw;
  }

  lemma PaysItemsSnoc(runId: string, memo: string, role: string, raws: seq<RawRequest>, raw: RawRequest, prep: Prep)
    requires PaysItems(runId, memo, raws, prep)
    ensures PaysItems(runId, memo, raws + [raw], PrepareLine(runId, memo, role, prep, raw))
  {
    hide Normalize, ItemRaw, PaysItem, PayableItem, IdOfItem, PaidBefore, LineFor, Add, LineAmount;
    var after := PrepareLine(runId, memo, role, prep, raw);
    var all := raws + [raw];
    ItemPays(runId, memo, role, raws, raw);
    forall j | 0 <= j < |after.payouts| ensures PaysItem(runId, memo, all, after.payouts[j]) {
      if j < |prep.payouts| {
        PaysItemLater(runId, memo, raws, raw, prep.payouts[j]);
      }
    }
    IndexBounds(runId, memo, raws, prep);
    var n := Normalize(ItemRaw(runId, memo, |raws|, raw), role);
    forall id | id in after.seen ensures PaidBefore(after, id, |all|) {
      if id in prep.seen {
        PaidStays(prep, after, id, |raws|, |all|);
      } else {
        NewlyPaid(after, |prep.payouts|, id, |all|);
      }
    }
    forall i | 0 <= i < |raws| ensures LineFor(runId, all[i], after, i) {
      assert LineFor(runId, raws[i], prep, i);
      LineStays(runId, raws[i], prep, after, i);
    }
    if n.Some? && n.value.id in prep.seen {
      PaidStays(prep, after, n.value.id, |raws|, |raws|);
    }
    NewLine(runId, memo, role, raw, prep);
  }

  lemma NewlyPaid(p: Prep, j: nat, id: string, k: nat)
    requires j < |p.payouts| && p.payouts[j].id == id && p.payouts[j].index < k
    ensures PaidBefore(p, id, k)
  {
  }

  /** The line that was just added. */
  lemma NewLine(runId: string, memo: string, role: string, raw: RawRequest, prep: Prep)
    requires forall j :: 0 <= j < |prep.payouts| ==> prep.payouts[j].index < |prep.lines|
    requires var n := Normalize(ItemRaw(runId, memo, |prep.lines|, raw), role);
             n.Some? && n.value.id in prep.seen ==>
               PaidBefore(PrepareLine(runId, memo, role, prep, raw), n.value.id, |prep.lines|)
    ensures LineFor(runId, raw, PrepareLine(runId, memo, role, prep, raw), |prep.lines|)
  {
    hide Normalize, ItemRaw, PayableItem, IdOfItem, PaidBefore, Add, LineAmount;
    var n := Normalize(ItemRaw(runId, memo, |prep.lines|, raw), role);
    NormalizesExactly(runId, memo, role, raw, |prep.lines|);
    var after := PrepareLine(runId, memo, role, prep, raw);
    if n.Some? && n.value.id !in prep.seen {
      assert after.payouts[|prep.payouts|].index == |prep.lines|;
    }
  }

  lemma PaidStays(p: Prep, q: Prep, id: string, i: nat, k: nat)
    requires PaidBefore(p, id, i) && p.payouts <= q.payouts && i <= k
    ensures PaidBefore(q, id, k)
  {
    var j :| 0 <= j < |p.payouts| && p.payouts[j].index < i && p.payouts[j].id == id;
    assert q.payouts[j] == p.payouts[j];
  }

  lemma LineStays(runId: string, raw: RawRequest, p: Prep, q: Prep, i: nat)
    requires i < |p.lines| < |q.lines| && LineFor(runId, raw, p, i) && q.lines[i] == p.lines[i]
    requires p.payouts <= q.payouts && forall j :: |p.payouts| <= j < |q.payouts| ==> q.payouts[j].index > i
    ensures LineFor(runId, raw, q, i)
  {
    hide PayableItem, IdOfItem;
    if j :| 0 <= j < |p.payouts| && p.payouts[j].index == i {
      assert q.payouts[j].index == i;
    } else if PayableItem(runId, raw, i) {
      PaidStays(p, q, IdOfItem(runId, raw, i), i, i);
    }
  }

  lemma IndexBounds(runId: string, memo: string, raws: seq<RawRequest>, prep: Prep)
    requires PaysItems(runId, memo, raws, prep)
    ensures forall j :: 0 <= j < |prep.payouts| ==> prep.payouts[j].index < |raws|
  {
    hide Trim, NormalizeAmount, Pad3;
    forall j | 0 <= j < |prep.payouts| ensures prep.payouts[j].index < |raws| {
      assert PaysItem(runId, memo, raws, prep.payouts[j]);
    }
  }

  /** What a run pays is what its items ask for: nothing else, and nothing less than it says. */
  lemma {:induction false} PreparedItems(runId: string, memo: string, role: string, raws: seq<RawRequest>)
    ensures PaysItems(runId, memo, raws, PrepareLines(runId, memo, role, raws))
  {
    if |raws| > 0 {
      var init, raw := raws[..|raws| - 1], raws[|raws| - 1];
      PreparedItems(runId, memo, role, init);
      PaysItemsSnoc(runId, memo, role, init, raw, PrepareLines(runId, memo, role, init));
      assert init + [raw] == raws;
    }
  }

  /** A line is ready exactly for a payout, so some line is ready exactly when there is a payout. */
  lemma {:induction false} ReadyExactly(runId: string, memo: string, role: string, raws: seq<RawRequest>)
    ensures var p := PrepareLines(runId, memo, role, raws); HasReady(p.lines) <==> |p.payouts| > 0
  {
    hide Normalize, ItemRaw;
    if |raws| > 0 {
      var init := raws[..|raws| - 1];
      ReadyExactly(runId, memo, role, init);
      var before, after := PrepareLines(runId, memo, role, init), PrepareLines(runId, memo, role, raws);
      if HasReady(before.lines) {
        var i :| 0 <= i < |before.lines| && before.lines[i].outcome == Ready;
        assert after.lines[i] == before.lines[i];
      } else if |after.payouts| > 0 {
        assert after.lines[|init|].outcome == Ready;
      }
    }
  }

  lemma ReadyRun(request: RunRequest)
    ensures HasReady(Prepare(request).1.lines) <==> |Prepare(request).0.payouts| > 0
  {
    hide PrepareLines, ValidRunHeader, Trim, RunRole, HasReady;
    ReadyExactly(Trim(request.runId), Cut(Trim(request.memo), 180), RunRole(request.role), request.payouts);
    NoneReady([]);
  }

  lemma NoneReady(none: seq<Line>)
    requires none == []
    ensures !HasReady(none)
  {
  }

  // ---------------------------------------------------------------- the plan

  predicate AllPlanned(lines: seq<Line>) {
    forall i :: 0 <= i < |lines| ==> PlannedLine(lines[i])
  }

  /** Two tallies that agree on everything executed. */
  predicate SameExecution(a: Tally, b: Tally) {
    a.executed == b.executed && a.confirmed == b.confirmed && a.accepted == b.accepted &&
    a.executedTotal == b.executedTotal && a.confirmedTotal == b.confirmedTotal && a.acceptedTotal == b.acceptedTotal
  }

  lemma {:induction false} PlannedTally(t: Tally, lines: seq<Line>)
    requires AllPlanned(lines)
    ensures var t' := TallyLines(t, lines);
            SameExecution(t', t) && t'.rejected == t.rejected
  {
    if |lines| > 0 {
      PlannedTally(t, lines[..|lines| - 1]);
    }
  }

  /** The parts of a response that finalizing a plan leaves alone. */
  lemma FinalizeKeeps(r: RunResponse)
    requires r.status != Blank
    ensures var f := Finalize(r);
            f.lines == r.lines && f.ok == r.ok && f.status == r.status && f.role == r.role && f.signer == r.signer &&
            f.runId == r.runId && f.replay == r.replay && f.requestedTotal == r.requestedTotal &&
            f.balanceBefore == r.balanceBefore && f.payoutBalanceBefore == r.payoutBalanceBefore &&
            f.estimatedFee == r.estimatedFee && (r.requested > 0 ==> f.requested == r.requested) &&
            f.tally == TallyLines(Recount(r.tally, r.retryable), r.lines)
  {
    hide TallyLines, FirstFailureCode;
  }

  lemma RefusedIsPlanned(r: RunResponse, code: string, retryable: bool)
    requires AllPlanned(r.lines)
    ensures var f := RefuseRun(r, code, retryable);
            AllPlanned(f.lines) && f.status == Failed && !f.ok && f.runId == r.runId && f.replay == r.replay &&
            f.requested == r.requested && f.requestedTotal == r.requestedTotal && f.role == r.role &&
            f.tally == r.tally &&
            f.payoutBalanceBefore == r.payoutBalanceBefore && f.estimatedFee == r.estimatedFee
  {
  }

  /** The balance-dependent part of either plan. */
  ghost predicate SignedPlan(cfg: Config, v: View, role: string, r: RunResponse, p: RunResponse) {
    AllPlanned(p.lines) && (p.status == Failed || p.status == Validated) && (p.ok <==> p.status == Validated) &&
    p.runId == r.runId && p.replay == r.replay && p.requested == r.requested && p.requestedTotal == r.requestedTotal &&
    p.role == role && p.tally == r.tally && p.estimatedFee == r.estimatedFee &&
    (p.ok ==> Serviceable(cfg, v, role) && p.balanceBefore == Some(BalanceOf(v, role)) &&
              (role == PAYOUT ==> p.payoutBalanceBefore == Some(BalanceOf(v, role))) &&
              BalanceOf(v, role) >= r.requestedTotal + Reserve(LimitsOf(cfg, role)))
  }

  lemma PayoutPlanFacts(cfg: Config, v: View, r: RunResponse)
    requires AllPlanned(r.lines)
    ensures SignedPlan(cfg, v, PAYOUT, r, PayoutPlan(cfg, v, r))
  {
    hide IsWoloAddress, RefuseRun;
    var h := HealthReport(cfg, v);
    var signed := r.(role := PAYOUT, signer := h.address, payoutBalanceBefore := h.balance, balanceBefore := h.balance,
                     lines := SignReady(r.lines, PAYOUT, h.address));
    assert AllPlanned(signed.lines);
    forall code, retryable ensures SignedPlan(cfg, v, PAYOUT, r, RefuseRun(signed, code, retryable)) {
      RefusedIsPlanned(signed, code, retryable);
    }
    if h.balance.Some? {
      CapacityIsOneComparison(LimitsOf(cfg, PAYOUT), h.balance.value, r.requestedTotal);
    }
  }

  lemma EscrowPlanFacts(cfg: Config, v: View, r: RunResponse)
    requires AllPlanned(r.lines)
    ensures SignedPlan(cfg, v, ESCROW, r, EscrowPlan(cfg, v, r))
  {
    hide RefuseRun, ParseUint;
    ParseFormat(r.requestedTotal);
    var p := EscrowPreflight(cfg, v, FormatUint(r.requestedTotal));
    var signed := r.(role := ESCROW, signer := p.signer, lines := SignReady(r.lines, ESCROW, p.signer));
    assert AllPlanned(signed.lines);
    if p.Stopped? {
      RefusedIsPlanned(signed, p.code, p.retryable);
    } else {
      CapacityIsOneComparison(LimitsOf(cfg, ESCROW), p.balance, r.requestedTotal);
    }
  }

  predicate GoodPayouts(n: NormRun) {
    (forall k :: 0 <= k < |n.payouts| ==> NormalPayout(n.payouts[k])) &&
    (forall j, k :: 0 <= j < k < |n.payouts| ==> n.payouts[j].id != n.payouts[k].id)
  }

  lemma PrepareFacts(request: RunRequest)
    ensures var (n, r) := Prepare(request);
            AllPlanned(r.lines) && GoodPayouts(n) && r.status == Failed && !r.ok && !r.replay && r.tally == ZERO &&
            r.runId == Trim(request.runId) && r.role == RunRole(request.role) &&
            (ValidRunHeader(request) ==>
               n.role == r.role && n.role in {PAYOUT, ESCROW} && n.runId == r.runId &&
               |n.payouts| <= |request.payouts| == r.requested &&
               |r.lines| == |request.payouts| && r.requestedTotal == Wrap(Sum(Values(n.payouts))) && n != EMPTY_RUN) &&
            (!ValidRunHeader(request) ==> n == EMPTY_RUN && r.lines == [])
  {
    PrepareLinesPrepared(Trim(request.runId), Cut(Trim(request.memo), 180), RunRole(request.role), request.payouts);
    hide Trim, Wrap, PrepareLines, PlannedLine, NormalPayout, RunRole;
    assert ValidRunHeader(request) ==> Trim(request.runId) != "";
  }

  /** An admitted run: its signer was allowed and covered the wrapped total plus the reserve. */
  ghost predicate AdmittedRun(cfg: Config, v: View, n: NormRun, r: RunResponse) {
    n.role in {PAYOUT, ESCROW} && !NeedsEscrow(n) && GoodPayouts(n) && n != EMPTY_RUN && r.role == n.role &&
    |n.payouts| <= r.requested && r.requested > 0 &&
    Serviceable(cfg, v, n.role) && r.requestedTotal == Wrap(Sum(Values(n.payouts))) &&
    r.balanceBefore == Some(BalanceOf(v, n.role)) &&
    BalanceOf(v, n.role) >= r.requestedTotal + Reserve(LimitsOf(cfg, n.role))
  }

  /** Everything a plan tells its executor, whatever was observed. */
  lemma PlanFacts(cfg: Config, v: View, request: RunRequest)
    ensures var (n, r) := PlanRun(cfg, v, request);
            n == Prepare(request).0 && AllPlanned(r.lines) && r.runId == Trim(request.runId) && !r.replay &&
            (r.status == Failed || r.status == Validated) && (r.ok <==> r.status == Validated) && GoodPayouts(n) &&
            SameExecution(r.tally, ZERO) &&
            (ValidRunHeader(request) ==>
               r.requested == |request.payouts| && r.requestedTotal == Prepare(request).1.requestedTotal) &&
            (r.ok ==> ValidRunHeader(request) && AdmittedRun(cfg, v, n, r))
  {
    hide Prepare, Finalize, PayoutPlan, EscrowPlan, RefuseRun, PlannedLine, GoodPayouts, Serviceable, NeedsEscrow, Trim,
         Wrap, TallyLines;
    PrepareFacts(request);
    var (n, p) := Prepare(request);
    RefusedIsPlanned(p, "ESCROW_SIGNER_REQUIRED", false);
    var q := p.(estimatedFee := EstimatedFee(cfg, |n.payouts|));
    PayoutPlanFacts(cfg, v, q);
    EscrowPlanFacts(cfg, v, q);
    var unfinished := if !HasReady(p.lines) then p else if NeedsEscrow(n) then RefuseRun(p, "ESCROW_SIGNER_REQUIRED",
                                                                                         false)
      else if n.role == ESCROW then EscrowPlan(cfg, v, q) else PayoutPlan(cfg, v, q);
    FinalizeKeeps(unfinished);
    PlannedTally(Recount(unfinished.tally, unfinished.retryable), unfinished.lines);
  }

  /** A run that ends confirmed paid exactly what was requested, as its 64-bit totals report it. */
  lemma ConfirmedPaysRequested(cfg: Config, v: View, request: RunRequest, n: NormRun, plan: RunResponse,
                               lines: seq<Line>)
    requires PlanRun(cfg, v, request) == (n, plan) && plan.ok && |lines| == |n.payouts| && AllExecuted(lines)
    requires forall i :: 0 <= i < |lines| && lines[i].ok ==> lines[i].amount == n.payouts[i].amount
    ensures var r := ExecutedRun(plan, lines);
            r.status == Confirmed ==>
              r.tally.confirmedTotal == r.requestedTotal && r.tally.executedTotal == r.requestedTotal &&
              r.tally.acceptedTotal == 0
  {
    hide PlanRun, ExecutedRun, TallyLines, Serviceable, NeedsEscrow, GoodPayouts, Wrap, Count, Total, ValidRunHeader,
         Prepare, Trim, OptionalAmount, Values, Sum;
    PlanFacts(cfg, v, request);
    ExecutedRunForm(plan, lines);
    RunStatusAndTotals(plan, lines);
    if ExecutedRun(plan, lines).status == Confirmed {
      ConfirmedSum(lines, n.payouts);
      NothingAccepted(lines);
      WrapSmall(0);
    }
  }

  lemma {:induction false} NothingAccepted(lines: seq<Line>)
    requires AllConfirmed(lines)
    ensures Total(lines, IsAccepted) == 0
  {
    if |lines| > 0 {
      NothingAccepted(lines[..|lines| - 1]);
    }
  }

  // ---------------------------------------------------------------- plan and execution agree

  /**
   * The balances seen before each line: the first is the planned one, and only the run's own sends and fees lower it.
   */
  ghost predicate OwnDebitsOnly(start: U64, balances: seq<U64>, amounts: seq<nat>, fees: seq<nat>) {
    |balances| == |amounts| == |fees| &&
    (|balances| > 0 ==> balances[0] >= start) &&
    forall k :: 0 <= k < |balances| - 1 ==> balances[k + 1] >= balances[k] - amounts[k] - fees[k]
  }

  lemma {:induction false} BalanceBound(start: U64, balances: seq<U64>, amounts: seq<nat>, fees: seq<nat>, k: nat)
    requires OwnDebitsOnly(start, balances, amounts, fees) && k < |balances|
    ensures balances[k] >= start - Sum(amounts[..k]) - Sum(fees[..k])
  {
    if k > 0 {
      BalanceBound(start, balances, amounts, fees, k - 1);
      assert amounts[..k][..k - 1] == amounts[..k - 1] && fees[..k][..k - 1] == fees[..k - 1];
    }
  }

  ghost predicate Readable(payouts: seq<Payout>) {
    forall k :: 0 <= k < |payouts| ==> ParseUint(payouts[k].amount).Some?
  }

  ghost predicate EveryLineClears(cfg: Config, role: string, views: seq<View>, payouts: seq<Payout>)
    requires |views| == |payouts|
  {
    forall k :: 0 <= k < |views| ==> PreflightFor(cfg, role, views[k], payouts[k].amount).Cleared?
  }

  ghost predicate AllServiceable(cfg: Config, role: string, views: seq<View>) {
    forall k :: 0 <= k < |views| ==> Serviceable(cfg, views[k], role)
  }

  ghost function Balances(cfg: Config, role: string, views: seq<View>): (b: seq<U64>)
    requires AllServiceable(cfg, role, views)
    ensures |b| == |views| && forall k :: 0 <= k < |b| ==> b[k] == BalanceOf(views[k], role)
  {
    seq(|views|, k requires 0 <= k < |views| => BalanceOf(views[k], role))
  }

  lemma OneLineClears(cfg: Config, role: string, reserved: nat, total: nat, v: View, view: View, p: Payout, spent: nat,
                      fees: nat)
    requires Serviceable(cfg, v, role) && Serviceable(cfg, view, role) && NormalPayout(p) && ParseUint(p.amount).Some?
    requires BalanceOf(view, role) >= BalanceOf(v, role) - spent - fees && spent + LineAmount(p.amount) <= total
    requires reserved == Reserve(LimitsOf(cfg, role)) && fees <= BalanceOf(v, role) - total - reserved
    ensures PreflightFor(cfg, role, view, p.amount).Cleared?
  {
    hide Serviceable, Reserve, ParseUint, PreflightFor, BalanceOf, LimitsOf;
    PreflightClearsExactly(cfg, role, view, p.amount);
  }

  /**
   * Plan admits what execution admits. An admitted run whose exact total does not wrap, whose fees fit above the
   * reserve and whose signer only pays for this run passes every per-line preflight, for either signer.
   */
  lemma AdmittedRunClears(cfg: Config, v: View, request: RunRequest, n: NormRun, r: RunResponse, views: seq<View>,
                          fees: seq<nat>)
    requires PlanRun(cfg, v, request) == (n, r) && r.ok
    requires |views| == |fees| == |n.payouts| && AllServiceable(cfg, n.role, views) && Readable(n.payouts)
    requires OwnDebitsOnly(BalanceOf(v, n.role), Balances(cfg, n.role, views), Values(n.payouts), fees)
    requires Sum(Values(n.payouts)) < TWO64
    requires Sum(fees) <= BalanceOf(v, n.role) - r.requestedTotal - Reserve(LimitsOf(cfg, n.role))
    ensures EveryLineClears(cfg, n.role, views, n.payouts)
  {
    hide *;
    PlanFacts(cfg, v, request);
    AdmittedClears(cfg, v, n, r, views, fees);
  }

  lemma AdmittedClears(cfg: Config, v: View, n: NormRun, r: RunResponse, views: seq<View>, fees: seq<nat>)
    requires AdmittedRun(cfg, v, n, r)
    requires |views| == |fees| == |n.payouts| && AllServiceable(cfg, n.role, views) && Readable(n.payouts)
    requires OwnDebitsOnly(BalanceOf(v, n.role), Balances(cfg, n.role, views), Values(n.payouts), fees)
    requires Sum(Values(n.payouts)) < TWO64
    requires Sum(fees) <= BalanceOf(v, n.role) - r.requestedTotal - Reserve(LimitsOf(cfg, n.role))
    ensures EveryLineClears(cfg, n.role, views, n.payouts)
  {
    hide Serviceable, Reserve, ParseUint, NeedsEscrow, Sum, PreflightFor, BalanceOf, OwnDebitsOnly;
    var amounts := Values(n.payouts);
    WrapSmall(Sum(amounts));
    forall k | 0 <= k < |views| ensures PreflightFor(cfg, n.role, views[k], n.payouts[k].amount).Cleared? {
      BalanceBound(BalanceOf(v, n.role), Balances(cfg, n.role, views), amounts, fees, k);
      SumPrefix(amounts, k + 1);
      SumPrefix(fees, k);
      SumStep(amounts, k);
      OneLineClears(cfg, n.role, Reserve(LimitsOf(cfg, n.role)), r.requestedTotal, v, views[k], n.payouts[k],
                    Sum(amounts[..k]), Sum(fees[..k]));
    }
  }

  /** Every line is sent: each balance is the previous one less the amount and the fee. */
  ghost predicate EveryLineSent(start: U64, balances: seq<U64>, amounts: seq<nat>, fees: seq<nat>) {
    |balances| == |amounts| == |fees| &&
    (|balances| > 0 ==> balances[0] == start) &&
    forall k :: 0 <= k < |balances| - 1 ==> balances[k + 1] == balances[k] - amounts[k] - fees[k]
  }

  lemma {:induction false} ClearedSum(cfg: Config, role: string, start: U64, views: seq<View>, payouts: seq<Payout>,
                                      fees: seq<nat>, k: nat)
    requires |views| == |payouts| == |fees| && k < |views|
    requires AllServiceable(cfg, role, views) && Readable(payouts) && EveryLineClears(cfg, role, views, payouts)
    requires forall i :: 0 <= i < |payouts| ==> NormalPayout(payouts[i])
    requires EveryLineSent(start, Balances(cfg, role, views), Values(payouts), fees)
    ensures BalanceOf(views[k], role) <= start - Sum(Values(payouts)[..k])
    ensures Sum(Values(payouts)[..k + 1]) <= start
  {
    var amounts := Values(payouts);
    if k > 0 {
      ClearedSum(cfg, role, start, views, payouts, fees, k - 1);
      assert amounts[..k][..k - 1] == amounts[..k - 1];
      assert Balances(cfg, role, views)[k] == Balances(cfg, role, views)[k - 1] - amounts[k - 1] - fees[k - 1];
    }
    PreflightClearsExactly(cfg, role, views[k], payouts[k].amount);
    SumStep(amounts, k);
  }

  lemma ClearsMeansNoWrap(cfg: Config, v: View, n: NormRun, r: RunResponse, views: seq<View>, fees: seq<nat>)
    requires AdmittedRun(cfg, v, n, r)
    requires |views| == |fees| == |n.payouts| && AllServiceable(cfg, n.role, views) && Readable(n.payouts)
    requires EveryLineSent(BalanceOf(v, n.role), Balances(cfg, n.role, views), Values(n.payouts), fees)
    requires EveryLineClears(cfg, n.role, views, n.payouts)
    ensures Sum(Values(n.payouts)) < TWO64
  {
    hide Serviceable, Reserve, ParseUint, NeedsEscrow, PreflightFor, NormalPayout;
    if |views| > 0 {
      ClearedSum(cfg, n.role, BalanceOf(v, n.role), views, n.payouts, fees, |views| - 1);
      assert Values(n.payouts)[..|views|] == Values(n.payouts);
    }
  }

  /** The balances a run sees when a line debits the signer, amount and fee, exactly if its preflight clears. */
  ghost predicate ClearedLinesDebit(cfg: Config, role: string, start: U64, views: seq<View>, payouts: seq<Payout>,
                                    fees: seq<nat>) {
    |views| == |payouts| == |fees| && (|views| > 0 ==> BalanceOf(views[0], role) == start) &&
    forall k :: 0 <= k < |views| - 1 ==>
      BalanceOf(views[k + 1], role) == BalanceOf(views[k], role) - Debit(cfg, role, views[k], payouts[k], fees[k])
  }

  function Debit(cfg: Config, role: string, view: View, p: Payout, fee: nat): nat {
    if PreflightFor(cfg, role, view, p.amount).Cleared? then LineAmount(p.amount) as nat + fee else 0
  }

  lemma DebitsAreOwn(cfg: Config, role: string, start: U64, views: seq<View>, payouts: seq<Payout>, fees: seq<nat>)
    requires ClearedLinesDebit(cfg, role, start, views, payouts, fees) && AllServiceable(cfg, role, views)
    ensures OwnDebitsOnly(start, Balances(cfg, role, views), Values(payouts), fees)
    ensures EveryLineClears(cfg, role, views, payouts) ==>
              EveryLineSent(start, Balances(cfg, role, views), Values(payouts), fees)
  {
    hide PreflightFor, Serviceable, LineAmount, BalanceOf;
    forall k | 0 <= k < |views| - 1
      ensures 0 <= Debit(cfg, role, views[k], payouts[k], fees[k]) <= Values(payouts)[k] + fees[k]
      ensures EveryLineClears(cfg, role, views, payouts) ==>
                Debit(cfg, role, views[k], payouts[k], fees[k]) == Values(payouts)[k] + fees[k]
    {
    }
  }

  /** A preflight that clears has read the amount. */
  lemma ClearedIsReadable(cfg: Config, role: string, views: seq<View>, payouts: seq<Payout>)
    requires |views| == |payouts| && EveryLineClears(cfg, role, views, payouts)
    requires forall k :: 0 <= k < |payouts| ==> NormalPayout(payouts[k])
    ensures Readable(payouts)
  {
    hide ParseUint, Trim, CapacityFault, HealthReport, RequestIdPattern, IsWoloAddress;
    forall k | 0 <= k < |payouts| ensures ParseUint(payouts[k].amount).Some? {
      assert PreflightFor(cfg, role, views[k], payouts[k].amount).Cleared?;
    }
  }

  /**
   * The exact condition. Whatever happens to its lines, when a line debits the signer only if its preflight clears and
   * the fees fit above the reserve, all preflights of an admitted run clear if and only if its amounts are readable and
   * its exact total is below 2^64, because the planned total wraps.
   */
  lemma AdmittedRunClearsExactly(cfg: Config, v: View, request: RunRequest, n: NormRun, r: RunResponse,
                                 views: seq<View>, fees: seq<nat>)
    requires PlanRun(cfg, v, request) == (n, r) && r.ok
    requires ClearedLinesDebit(cfg, n.role, BalanceOf(v, n.role), views, n.payouts, fees) &&
             AllServiceable(cfg, n.role, views)
    requires Sum(fees) <= BalanceOf(v, n.role) - r.requestedTotal - Reserve(LimitsOf(cfg, n.role))
    ensures EveryLineClears(cfg, n.role, views, n.payouts) <==> Readable(n.payouts) && Sum(Values(n.payouts)) < TWO64
  {
    hide *;
    PlanFacts(cfg, v, request);
    AdmittedExactly(cfg, v, n, r, views, fees);
  }

  lemma AdmittedExactly(cfg: Config, v: View, n: NormRun, r: RunResponse, views: seq<View>, fees: seq<nat>)
    requires AdmittedRun(cfg, v, n, r) && AllServiceable(cfg, n.role, views)
    requires ClearedLinesDebit(cfg, n.role, BalanceOf(v, n.role), views, n.payouts, fees)
    requires Sum(fees) <= BalanceOf(v, n.role) - r.requestedTotal - Reserve(LimitsOf(cfg, n.role))
    ensures EveryLineClears(cfg, n.role, views, n.payouts) <==> Readable(n.payouts) && Sum(Values(n.payouts)) < TWO64
  {
    hide AllServiceable, EveryLineClears, Readable, Sum, Reserve, BalanceOf, Serviceable, NeedsEscrow, OwnDebitsOnly,
         EveryLineSent;
    DebitsAreOwn(cfg, n.role, BalanceOf(v, n.role), views, n.payouts, fees);
    if Readable(n.payouts) && Sum(Values(n.payouts)) < TWO64 {
      AdmittedClears(cfg, v, n, r, views, fees);
    }
    if EveryLineClears(cfg, n.role, views, n.payouts) {
      ClearedIsReadable(cfg, n.role, views, n.payouts);
      ClearsMeansNoWrap(cfg, v, n, r, views, fees);
    }
  }
}

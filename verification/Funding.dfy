/** Escrow deposits: proving one from its memo, telling participants apart, and matching transfers to them. */
module Funding {
  import opened Text
  import opened Amounts
  import opened Ids
  import opened Records
  import opened Chain
  import opened Memo

  /** A funding deposit as verification reports it; amounts are printed numbers. */
  datatype Deposit = Deposit(
    ok: bool, code: string, hash: string, sourceApp: string, runId: string, challengeId: string, sourceEventId: string,
    side: string, pid: string, sender: string, escrow: string, total: string, wager: string, guarantee: string)

  datatype Expectation = Expectation(
    sender: string, sourceApp: string, runId: string, challengeId: string, sourceEventId: string,
    side: string, pid: string, total: string, wager: string, guarantee: string)

  predicate BlankOrPositive(s: string) {
    Trim(s) == "" || PositiveAmount(Trim(s)).Some?
  }

  /** validateChallengeFundingExpectation. */
  predicate ValidExpectation(e: Expectation) {
    (Trim(e.sender) == "" || IsWoloAddress(e.sender)) && ValidSourceApp(Trim(e.sourceApp)) &&
    (Trim(e.runId) == "" || ValidRunId(Trim(e.runId))) && ValidEventId(Trim(e.challengeId)) &&
    ValidEventId(Trim(e.sourceEventId)) && (Trim(e.side) == "" || SidePattern(Trim(e.side))) &&
    ValidEventId(Trim(e.pid)) &&
    BlankOrPositive(e.total) && BlankOrPositive(e.wager) && BlankOrPositive(e.guarantee)
  }

  predicate Agrees(expected: string, actual: string) {
    Trim(expected) == "" || EqualFold(Trim(expected), Trim(actual))
  }

  /** compareChallengeFundingExpectation. */
  predicate MeetsExpectation(d: Deposit, e: Expectation) {
    Agrees(e.sourceApp, d.sourceApp) && Agrees(e.runId, d.runId) && Agrees(e.challengeId, d.challengeId) &&
    Agrees(e.sourceEventId, d.sourceEventId) && Agrees(e.side, d.side) && Agrees(e.pid, d.pid) &&
    Agrees(e.sender, d.sender) && Agrees(e.total, d.total) && Agrees(e.wager, d.wager) &&
    Agrees(e.guarantee, d.guarantee)
  }

  function Proven(f: Fields, hash: string, sender: string, escrow: string, amount: string): Deposit {
    Deposit(true, "", hash, f.sourceApp, f.runId, f.challengeId, f.sourceEventId, f.side, f.pid, sender, escrow,
            Trim(amount), FormatUint(f.wager), FormatUint(f.guarantee))
  }

  function Unproven(cfg: Config, code: string, hash: string): Deposit {
    Deposit(false, code, hash, "", "", "", "", "", "", "", Trim(cfg.escrowAddress), "", "", "")
  }

  /** verifyChallengeFundingDeposit. */
  function VerifyDeposit(cfg: Config, chain: Ledger, fault: Option<string>, txHash: string, e: Expectation): Deposit {
    var h := Upper(Trim(txHash));
    if Trim(cfg.escrowAddress) == "" then Unproven(cfg, "ESCROW_UNCONFIGURED", h)
    else if !ValidExpectation(e) then Unproven(cfg, "INVALID_CHALLENGE", h)
    else
      var l := LookupTx(cfg, chain, fault, txHash, Expect(Trim(e.sender), cfg.escrowAddress, Trim(e.total)));
      if !l.ok then Unproven(cfg, l.code, h)
      else if l.kind != EscrowDeposit then Unproven(cfg, "NOT_ESCROW_DEPOSIT", h)
      else if l.matched.None? then Unproven(cfg, "CHALLENGE_FUNDING_MISMATCH", h)
      else
        var f := ParseMemo(l.memo, l.matched.value.amount);
        if f.None? then Unproven(cfg, "INVALID_CHALLENGE_FUNDING_MEMO", h)
        else
          var d := Proven(f.value, l.hash, l.matched.value.sender, cfg.escrowAddress, l.matched.value.amount);
          if MeetsExpectation(d, e) then d else d.(ok := false, code := "CHALLENGE_FUNDING_MISMATCH")
  }

  /** The deposit that transfer t of a transaction proves, together with its memo. */
  ghost predicate ProvenWith(cfg: Config, chain: Ledger, d: Deposit, t: Transfer, f: Fields) {
    TxHash(d.hash) && d.hash in chain && KindOf(cfg, chain[d.hash].transfers) == EscrowDeposit &&
    t in chain[d.hash].transfers && EqualFold(t.recipient, Trim(cfg.escrowAddress)) &&
    ParseMemo(chain[d.hash].memo, t.amount) == Some(f) && d == Proven(f, d.hash, t.sender, cfg.escrowAddress, t.amount)
  }

  /** The part of a verified deposit that only depends on the transaction it cites. */
  ghost predicate ProvenBy(cfg: Config, chain: Ledger, d: Deposit) {
    exists t, f :: ProvenWith(cfg, chain, d, t, f)
  }

  lemma VerifiedIsProven(cfg: Config, chain: Ledger, fault: Option<string>, txHash: string, e: Expectation)
    requires VerifyDeposit(cfg, chain, fault, txHash, e).ok
    ensures var d := VerifyDeposit(cfg, chain, fault, txHash, e);
            ProvenBy(cfg, chain, d) && d.hash == Upper(Trim(txHash)) && MeetsExpectation(d, e) && ValidExpectation(e) &&
            Trim(cfg.escrowAddress) != "" && fault.None?
  {
    hide ValidExpectation, MeetsExpectation, ParseMemo, KindOf, Trim, Upper, TxHash, FormatUint;
    var d := VerifyDeposit(cfg, chain, fault, txHash, e);
    var want := Expect(Trim(e.sender), cfg.escrowAddress, Trim(e.total));
    var l := LookupTx(cfg, chain, fault, txHash, want);
    var t := l.matched.value;
    var f := ParseMemo(l.memo, t.amount).value;
    assert t in chain[d.hash].transfers && Matches(t, want);
    assert d == Proven(f, d.hash, t.sender, cfg.escrowAddress, t.amount);
    assert ProvenWith(cfg, chain, d, t, f);
  }

  /** A name or amount that was asked for is the one that is there, case ignored. */
  predicate AsAsked(asked: string, found: string) {
    Trim(asked) == "" || Lower(Trim(asked)) == Lower(Trim(found))
  }

  /**
   * A verified deposit is the one that was asked for: every expected value that is not blank is, case ignored, what the
   * transaction and its memo give.
   */
  lemma VerifiedAsAsked(cfg: Config, chain: Ledger, fault: Option<string>, txHash: string, e: Expectation)
    requires VerifyDeposit(cfg, chain, fault, txHash, e).ok
    ensures var d := VerifyDeposit(cfg, chain, fault, txHash, e);
            AsAsked(e.sender, d.sender) && AsAsked(e.sourceApp, d.sourceApp) && AsAsked(e.runId, d.runId) &&
            AsAsked(e.challengeId, d.challengeId) && AsAsked(e.sourceEventId, d.sourceEventId) &&
            AsAsked(e.side, d.side) && AsAsked(e.pid, d.pid) && AsAsked(e.total, d.total) &&
            AsAsked(e.wager, d.wager) && AsAsked(e.guarantee, d.guarantee)
  {
    hide VerifyDeposit, ProvenBy, ValidExpectation, Trim, Upper, Lower;
    VerifiedIsProven(cfg, chain, fault, txHash, e);
  }

  /** The success flag of a transaction makes no difference to the deposit it proves. */
  lemma SuccessIsNotChecked(cfg: Config, chain: Ledger, fault: Option<string>, hash: string, e: Expectation, h: string,
                            success: bool)
    requires h in chain
    ensures VerifyDeposit(cfg, chain[h := chain[h].(success := success)], fault, hash, e) ==
            VerifyDeposit(cfg, chain, fault, hash, e)
  {
    hide ValidExpectation, MeetsExpectation, ParseMemo, KindOf, Trim, Upper, TxHash, Proven, MatchTransfer;
  }

  /** The transfers of a transaction that moved the chain's own token. */
  function InUwolo(ts: seq<Transfer>): (r: seq<Transfer>)
    ensures forall t :: t in r <==> t in ts && t.denom == DENOM
  {
    if |ts| == 0 then [] else (if ts[0].denom == DENOM then [ts[0]] else []) + InUwolo(ts[1..])
  }

  /** A transfer of the chain's own token into the escrow account, or out of the payout account. */
  predicate IntoEscrow(cfg: Config, t: Transfer) {
    cfg.escrowAddress != "" && Lower(t.recipient) == Lower(cfg.escrowAddress) && t.denom == "uwolo"
  }

  predicate FromPayout(cfg: Config, t: Transfer) {
    cfg.payoutAddress != "" && Lower(t.sender) == Lower(cfg.payoutAddress) && t.denom == "uwolo"
  }

  /** A transaction is an escrow deposit exactly when one of its transfers is, and no payout comes before it. */
  lemma {:induction false} DepositKindExactly(cfg: Config, ts: seq<Transfer>)
    ensures KindOf(cfg, ts) == EscrowDeposit <==>
            exists i :: 0 <= i < |ts| && IntoEscrow(cfg, ts[i]) && forall j :: 0 <= j < i ==> !FromPayout(cfg, ts[j])
  {
    hide Lower;
    if |ts| > 0 {
      DepositKindExactly(cfg, ts[1..]);
      var tail := ts[1..];
      if i :| 0 <= i < |tail| && IntoEscrow(cfg, tail[i]) && forall j :: 0 <= j < i ==> !FromPayout(cfg, tail[j]) {
        assert IntoEscrow(cfg, ts[i + 1]);
        if !IntoEscrow(cfg, ts[0]) && !FromPayout(cfg, ts[0]) {
          assert forall j :: 0 <= j < i + 1 ==> !FromPayout(cfg, ts[j]) by {
            forall j | 0 <= j < i + 1 ensures !FromPayout(cfg, ts[j]) {
              if j > 0 { assert ts[j] == tail[j - 1]; }
            }
          }
        }
      }
      if i :| 0 <= i < |ts| && IntoEscrow(cfg, ts[i]) && forall j :: 0 <= j < i ==> !FromPayout(cfg, ts[j]) {
        if i > 0 {
          assert tail[i - 1] == ts[i] && forall j :: 0 <= j < i - 1 ==> tail[j] == ts[j + 1];
        }
      }
    }
  }

  /** A verified deposit's transaction did move the chain's own token into escrow. */
  lemma VerifiedMovedUwolo(cfg: Config, chain: Ledger, fault: Option<string>, txHash: string, e: Expectation)
    requires VerifyDeposit(cfg, chain, fault, txHash, e).ok
    ensures var h := Upper(Trim(txHash));
            h in chain && exists i :: 0 <= i < |chain[h].transfers| && IntoEscrow(cfg, chain[h].transfers[i])
  {
    hide VerifyDeposit, ValidExpectation, MeetsExpectation, ParseMemo, KindOf, Trim, Upper, TxHash, FormatUint, Lower;
    VerifiedIsProven(cfg, chain, fault, txHash, e);
    DepositKindExactly(cfg, chain[Upper(Trim(txHash))].transfers);
  }

  lemma {:induction false} KindInUwolo(cfg: Config, ts: seq<Transfer>)
    ensures KindOf(cfg, InUwolo(ts)) == EscrowDeposit <==> KindOf(cfg, ts) == EscrowDeposit
  {
    hide EqualFold;
    if |ts| > 0 {
      KindInUwolo(cfg, ts[1..]);
      HeadInUwolo(ts);
      hide InUwolo;
    }
  }

  lemma HeadInUwolo(ts: seq<Transfer>)
    requires |ts| > 0
    ensures var r, tail := InUwolo(ts), InUwolo(ts[1..]);
            if ts[0].denom == DENOM then |r| > 0 && r[0] == ts[0] && r[1..] == tail else r == tail
  {
  }

  lemma {:induction false} FirstInUwolo(ts: seq<Transfer>, e: Expect)
    requires FirstMatch(ts, e).Some? && FirstMatch(ts, e).value.denom == DENOM
    ensures FirstMatch(InUwolo(ts), e) == FirstMatch(ts, e)
  {
    hide Matches, InUwolo;
    HeadInUwolo(ts);
    if !Matches(ts[0], e) {
      FirstInUwolo(ts[1..], e);
    }
  }

  /** What verification looks for in the transaction. */
  function Wanted(cfg: Config, e: Expectation): Expect {
    Expect(Trim(e.sender), cfg.escrowAddress, Trim(e.total))
  }

  /**
   * The denomination of the matched transfer is not looked at. A verified deposit is what its transaction deposited in
   * uwolo if and only if the first matching uwolo transfer has the sender and amount of the first matching transfer,
   * and so whenever the latter is itself in uwolo.
   */
  lemma DenomIsNotMatched(cfg: Config, chain: Ledger, fault: Option<string>, hash: string, e: Expectation)
    requires VerifyDeposit(cfg, chain, fault, hash, e).ok
    ensures var d := VerifyDeposit(cfg, chain, fault, hash, e);
            d.hash in chain && FirstMatch(chain[d.hash].transfers, Wanted(cfg, e)).Some?
    ensures var d := VerifyDeposit(cfg, chain, fault, hash, e);
            var ts := chain[d.hash].transfers;
            var t, u := FirstMatch(ts, Wanted(cfg, e)).value, FirstMatch(InUwolo(ts), Wanted(cfg, e));
            (VerifyDeposit(cfg, chain[d.hash := chain[d.hash].(transfers := InUwolo(ts))], fault, hash, e) == d <==>
             u.Some? && u.value.sender == t.sender && Trim(u.value.amount) == Trim(t.amount)) &&
            (t.denom == DENOM ==> u == Some(t))
  {
    hide ValidExpectation, MeetsExpectation, ParseMemo, KindOf, Trim, Upper, TxHash, FirstMatch, InUwolo, FormatUint;
    var d, want := VerifyDeposit(cfg, chain, fault, hash, e), Wanted(cfg, e);
    var ts := chain[d.hash].transfers;
    var t, u := FirstMatch(ts, want), FirstMatch(InUwolo(ts), want);
    assert t.Some?;
    KindInUwolo(cfg, ts);
    if t.value.denom == DENOM {
      FirstInUwolo(ts, want);
    }
    if u.Some? && Trim(u.value.amount) == Trim(t.value.amount) {
      SameText(chain[d.hash].memo, u.value.amount, t.value.amount);
    }
  }

  lemma SameText(memo: string, a: string, b: string)
    requires Trim(a) == Trim(b)
    ensures ParseMemo(memo, a) == ParseMemo(memo, b)
  {
    hide Trim, ParseQuery, ValidFields, ParseUint;
  }

  /** A proven deposit names its participant and its buckets add up to the transferred total modulo 2^64. */
  lemma ProvenDeposit(cfg: Config, chain: Ledger, d: Deposit) returns (t: Transfer, f: Fields)
    requires ProvenBy(cfg, chain, d)
    ensures ProvenWith(cfg, chain, d, t, f) && ValidFields(f)
    ensures d.side == f.side && d.pid == f.pid && d.wager == FormatUint(f.wager) &&
            d.guarantee == FormatUint(f.guarantee)
    ensures d.total == Trim(t.amount) && ParseUint(d.total) == Some(Add(f.wager, f.guarantee))
  {
    hide ParseMemo, KindOf, Trim, ValidFields, TxHash, FormatUint, ParseUint;
    t, f :| ProvenWith(cfg, chain, d, t, f);
    ParsedBucketsAddUp(chain[d.hash].memo, t.amount);
  }

  // ---------------------------------------------------------------- participants

  /** Two deposits that name the same side, or the same participant, ignoring case. */
  predicate Clash(a: Deposit, b: Deposit) {
    (Trim(a.side) != "" && EqualFold(Trim(a.side), Trim(b.side))) ||
    (Trim(a.pid) != "" && EqualFold(Trim(a.pid), Trim(b.pid)))
  }

  predicate DistinctParticipants(ds: seq<Deposit>) {
    forall i, j :: 0 <= i < j < |ds| ==> !Clash(ds[i], ds[j])
  }

  /** The lower-case sides, and participants, a list of deposits already uses. */
  ghost function SidesOf(ds: seq<Deposit>): set<string> {
    set k | 0 <= k < |ds| && Trim(ds[k].side) != "" :: Lower(Trim(ds[k].side))
  }

  ghost function PidsOf(ds: seq<Deposit>): set<string> {
    set k | 0 <= k < |ds| && Trim(ds[k].pid) != "" :: Lower(Trim(ds[k].pid))
  }

  lemma SeenNames(ds: seq<Deposit>, d: Deposit)
    ensures SidesOf(ds + [d]) == SidesOf(ds) + (if Trim(d.side) != "" then {Lower(Trim(d.side))} else {})
    ensures PidsOf(ds + [d]) == PidsOf(ds) + (if Trim(d.pid) != "" then {Lower(Trim(d.pid))} else {})
    ensures DistinctParticipants(ds + [d]) <==>
            DistinctParticipants(ds) && !(Trim(d.side) != "" && Lower(Trim(d.side)) in SidesOf(ds)) &&
            !(Trim(d.pid) != "" && Lower(Trim(d.pid)) in PidsOf(ds))
  {
    hide Trim, Lower;
    var all := ds + [d];
    assert forall k :: 0 <= k < |ds| ==> all[k] == ds[k];
    assert all[|ds|] == d;
    if Trim(d.side) != "" { assert Lower(Trim(all[|ds|].side)) in SidesOf(all); }
    if Trim(d.pid) != "" { assert Lower(Trim(all[|ds|].pid)) in PidsOf(all); }
    ClashIsSeen(ds, d);
    assert DistinctParticipants(all) <==>
           DistinctParticipants(ds) && forall k :: 0 <= k < |ds| ==> !Clash(ds[k], d) by {
      hide Clash;
      if DistinctParticipants(ds) && forall k :: 0 <= k < |ds| ==> !Clash(ds[k], d) {
        assert DistinctParticipants(all);
      }
      if DistinctParticipants(all) {
        forall k | 0 <= k < |ds| ensures !Clash(ds[k], d) { assert !Clash(all[k], all[|ds|]); }
        forall i, j | 0 <= i < j < |ds| ensures !Clash(ds[i], ds[j]) { assert !Clash(all[i], all[j]); }
      }
    }
  }

  lemma ClashIsSeen(ds: seq<Deposit>, d: Deposit)
    ensures (exists k :: 0 <= k < |ds| && Clash(ds[k], d)) <==>
            (Trim(d.side) != "" && Lower(Trim(d.side)) in SidesOf(ds)) ||
            (Trim(d.pid) != "" && Lower(Trim(d.pid)) in PidsOf(ds))
  {
    hide Trim;
    assert forall a: string, b: string :: Lower(a) == Lower(b) && a != "" ==> b != "" by {
      forall a: string, b: string | Lower(a) == Lower(b) && a != "" ensures b != "" { assert |Lower(a)| == |a|; }
    }
    if k :| 0 <= k < |ds| && Clash(ds[k], d) {
      if Trim(ds[k].side) != "" && EqualFold(Trim(ds[k].side), Trim(d.side)) {
        assert Lower(Trim(ds[k].side)) in SidesOf(ds);
      } else {
        assert Lower(Trim(ds[k].pid)) in PidsOf(ds);
      }
    }
    if Trim(d.side) != "" && Lower(Trim(d.side)) in SidesOf(ds) {
      var k :| 0 <= k < |ds| && Trim(ds[k].side) != "" && Lower(Trim(ds[k].side)) == Lower(Trim(d.side));
      assert Clash(ds[k], d);
    }
    if Trim(d.pid) != "" && Lower(Trim(d.pid)) in PidsOf(ds) {
      var k :| 0 <= k < |ds| && Trim(ds[k].pid) != "" && Lower(Trim(ds[k].pid)) == Lower(Trim(d.pid));
      assert Clash(ds[k], d);
    }
  }

  lemma NoNames(none: seq<Deposit>)
    requires none == []
    ensures SidesOf(none) == {} && PidsOf(none) == {} && DistinctParticipants(none)
  {
  }

  /** validateVerifiedChallengeFundingParticipants: one error for every repeated side or participant. */
  method ParticipantErrors(ds: seq<Deposit>) returns (errors: nat)
    ensures errors == 0 <==> DistinctParticipants(ds)
  {
    hide DistinctParticipants, SidesOf, PidsOf, Trim, Lower;
    errors := 0;
    var sides: set<string>, pids: set<string> := {}, {};
    NoNames(ds[..0]);
    for i := 0 to |ds|
      invariant sides == SidesOf(ds[..i]) && pids == PidsOf(ds[..i])
      invariant errors == 0 <==> DistinctParticipants(ds[..i])
    {
      var side, pid := Trim(ds[i].side), Trim(ds[i].pid);
      SeenNames(ds[..i], ds[i]);
      assert ds[..i] + [ds[i]] == ds[..i + 1];
      if side != "" {
        if Lower(side) in sides { errors := errors + 1; } else { sides := sides + {Lower(side)}; }
      }
      if pid != "" {
        if Lower(pid) in pids { errors := errors + 1; } else { pids := pids + {Lower(pid)}; }
      }
    }
    assert ds[..|ds|] == ds;
  }

  predicate Names(d: Deposit, side: string, pid: string) {
    (Trim(side) != "" || Trim(pid) != "") &&
    (Trim(side) != "" ==> EqualFold(Trim(d.side), Trim(side))) &&
    (Trim(pid) != "" ==> EqualFold(Trim(d.pid), Trim(pid)))
  }

  /** The positions of the deposits a participant reference names. */
  function Named(ds: seq<Deposit>, side: string, pid: string): (m: seq<nat>)
    ensures forall x :: 0 <= x < |m| ==> m[x] < |ds|
  {
    if |ds| == 0 then []
    else Named(ds[..|ds| - 1], side, pid) + (if Names(ds[|ds| - 1], side, pid) then [|ds| - 1] else [])
  }

  datatype Resolution = One(k: nat) | Missing | Ambiguous

  /** resolveChallengeFundingParticipant. */
  function Resolve(ds: seq<Deposit>, side: string, pid: string): (r: Resolution)
    ensures r.One? ==> r.k < |ds|
  {
    var m := Named(ds, side, pid);
    if |m| == 1 then One(m[0]) else if |m| > 1 then Ambiguous else Missing
  }

  method ResolveLoop(ds: seq<Deposit>, side: string, pid: string) returns (r: Resolution)
    ensures r == Resolve(ds, side, pid)
  {
    var matches: seq<nat> := [];
    for i := 0 to |ds|
      invariant matches == Named(ds[..i], side, pid)
    {
      assert ds[..i + 1][..i] == ds[..i];
      if Names(ds[i], side, pid) {
        matches := matches + [i];
      }
    }
    assert ds[..|ds|] == ds;
    r := if |matches| == 1 then One(matches[0]) else if |matches| > 1 then Ambiguous else Missing;
  }

  lemma {:induction false} NamedSound(ds: seq<Deposit>, side: string, pid: string)
    ensures var m := Named(ds, side, pid);
            (forall x :: 0 <= x < |m| ==> m[x] < |ds| && Names(ds[m[x]], side, pid)) &&
            (forall x, y :: 0 <= x < y < |m| ==> m[x] < m[y]) &&
            (forall k :: 0 <= k < |ds| && Names(ds[k], side, pid) ==> k in m)
  {
    hide Names;
    if |ds| > 0 {
      NamedSound(ds[..|ds| - 1], side, pid);
    }
  }

  /** The participant a reference gives: the same side and the same id, case ignored, as far as it gives them. */
  predicate IsParticipant(d: Deposit, side: string, pid: string) {
    (Trim(side) != "" || Trim(pid) != "") && AsAsked(side, d.side) && AsAsked(pid, d.pid)
  }

  lemma NamesParticipant(d: Deposit, side: string, pid: string)
    ensures Names(d, side, pid) <==> IsParticipant(d, side, pid)
  {
    hide Trim, Lower;
  }

  /** Among distinct participants no reference is ambiguous, and a reference resolves to the one deposit it names. */
  lemma ResolutionUnique(ds: seq<Deposit>, side: string, pid: string)
    requires DistinctParticipants(ds)
    ensures !Resolve(ds, side, pid).Ambiguous?
    ensures forall k: nat :: Resolve(ds, side, pid) == One(k) <==> k < |ds| && IsParticipant(ds[k], side, pid)
    ensures Resolve(ds, side, pid).Missing? <==> forall k :: 0 <= k < |ds| ==> !IsParticipant(ds[k], side, pid)
  {
    hide Trim, Named, Names, IsParticipant;
    forall d: Deposit ensures Names(d, side, pid) <==> IsParticipant(d, side, pid) {
      NamesParticipant(d, side, pid);
    }
    NamedSound(ds, side, pid);
    var m := Named(ds, side, pid);
    if |m| > 1 {
      BothNamedClash(ds[m[0]], ds[m[1]], side, pid);
    }
    forall k: nat | k < |ds| && Names(ds[k], side, pid) ensures k in m {
    }
  }

  lemma BothNamedClash(a: Deposit, b: Deposit, side: string, pid: string)
    requires Names(a, side, pid) && Names(b, side, pid)
    ensures Clash(a, b)
  {
    hide Trim, Lower;
    assert Trim(side) != "" ==> |Lower(Trim(a.side))| == |Trim(side)|;
    assert Trim(pid) != "" ==> |Lower(Trim(a.pid))| == |Trim(pid)|;
  }

  /** challengeFundingIdentityKey. */
  function Key(d: Deposit): string {
    Lower(Trim(d.side)) + "|" + Lower(Trim(d.pid)) + "|" + Upper(Trim(d.hash))
  }

  ghost predicate AllProven(cfg: Config, chain: Ledger, ds: seq<Deposit>) {
    forall i :: 0 <= i < |ds| ==> ProvenBy(cfg, chain, ds[i])
  }

  lemma SameTxSameParticipant(cfg: Config, chain: Ledger, a: Deposit, b: Deposit)
    requires ProvenBy(cfg, chain, a) && ProvenBy(cfg, chain, b) && a.hash == b.hash
    ensures a.side == b.side && a.pid == b.pid && Clash(a, b)
  {
    hide KindOf, TxHash, ParseMemo, ValidFields, FormatUint, Trim, Lower;
    var t, f := ProvenDeposit(cfg, chain, a);
    var u, g := ProvenDeposit(cfg, chain, b);
    ParsedNames(chain[a.hash].memo, t.amount, u.amount);
    NamesTrimmed(f);
  }

  lemma ParsedNames(memo: string, a: string, b: string)
    requires ParseMemo(memo, a).Some? && ParseMemo(memo, b).Some?
    ensures ParseMemo(memo, a).value.side == ParseMemo(memo, b).value.side
    ensures ParseMemo(memo, a).value.pid == ParseMemo(memo, b).value.pid
  {
    hide Trim, ParseQuery, ValidFields, ParseUint;
  }

  lemma NamesTrimmed(f: Fields)
    requires ValidFields(f)
    ensures Trim(f.side) == f.side && Trim(f.pid) == f.pid && (f.side != "" || f.pid != "")
  {
    assert f.side != "" ==> Trimmed(f.side);
    assert f.pid != "" ==> EventChar(f.pid[0]) && EventChar(f.pid[|f.pid| - 1]);
  }

  /**
   * No deposit is counted twice: when participants are distinct, the funding transactions of proven deposits are
   * pairwise different, and so are their identity keys.
   */
  lemma DepositsDistinct(cfg: Config, chain: Ledger, ds: seq<Deposit>)
    requires AllProven(cfg, chain, ds) && DistinctParticipants(ds)
    ensures forall i, j :: 0 <= i < j < |ds| ==> ds[i].hash != ds[j].hash && Key(ds[i]) != Key(ds[j])
  {
    hide ProvenBy, Clash;
    forall i, j | 0 <= i < j < |ds| ensures ds[i].hash != ds[j].hash && Key(ds[i]) != Key(ds[j]) {
      if ds[i].hash == ds[j].hash {
        SameTxSameParticipant(cfg, chain, ds[i], ds[j]);
      }
      if Key(ds[i]) == Key(ds[j]) {
        KeyHash(cfg, chain, ds[i], ds[j]);
      }
    }
  }

  lemma KeyHash(cfg: Config, chain: Ledger, a: Deposit, b: Deposit)
    requires ProvenBy(cfg, chain, a) && ProvenBy(cfg, chain, b) && Key(a) == Key(b)
    ensures a.hash == b.hash
  {
    hide ParseMemo, KindOf, Trim, Upper, Lower;
    var _, _ := ProvenDeposit(cfg, chain, a);
    var _, _ := ProvenDeposit(cfg, chain, b);
    TxHashTrimmed(a.hash);
    TxHashTrimmed(b.hash);
    var ra, rb := Lower(Trim(a.side)) + "|" + Lower(Trim(a.pid)), Lower(Trim(b.side)) + "|" + Lower(Trim(b.pid));
    assert Key(a) == ra + ['|'] + a.hash && Key(b) == rb + ['|'] + b.hash;
    SplitAtLast(ra, '|', a.hash, rb, b.hash);
  }
}

/** The chain as the rail sees it: transactions by hash, with their memo and transfers. */
module Chain {
  import opened Text
  import opened Amounts
  import opened Records

  datatype Transfer = Transfer(sender: string, recipient: string, amount: string, denom: string)

  datatype Tx = Tx(success: bool, memo: string, transfers: seq<Transfer>)

  type Ledger = map<string, Tx>

  datatype Expect = Expect(sender: string, recipient: string, amount: string)

  datatype Kind = EscrowDeposit | PayoutKind | PlainTransfer | UnknownKind

  datatype Lookup = Lookup(ok: bool, code: string, hash: string, success: bool, kind: Kind, memo: string,
                           matched: Option<Transfer>)

  predicate Matches(t: Transfer, e: Expect) {
    (Trim(e.sender) != "" ==> EqualFold(t.sender, Trim(e.sender))) &&
    (Trim(e.recipient) != "" ==> EqualFold(t.recipient, Trim(e.recipient))) &&
    (Trim(e.amount) != "" ==> t.amount == Trim(e.amount))
  }

  function FirstMatch(ts: seq<Transfer>, e: Expect): (r: Option<Transfer>)
    ensures r.Some? ==> r.value in ts && Matches(r.value, e)
    ensures r.None? ==> forall t :: t in ts ==> !Matches(t, e)
  {
    if |ts| == 0 then None
    else if Matches(ts[0], e) then Some(ts[0])
    else FirstMatch(ts[1..], e)
  }

  /** matchSettlementTransfer: an expectation that says nothing matches nothing. */
  function MatchTransfer(ts: seq<Transfer>, e: Expect): Option<Transfer> {
    if Trim(e.sender) == "" && Trim(e.recipient) == "" && Trim(e.amount) == "" then None else FirstMatch(ts, e)
  }

  function KindOf(cfg: Config, ts: seq<Transfer>): Kind {
    if |ts| == 0 then UnknownKind
    else if cfg.escrowAddress != "" && EqualFold(ts[0].recipient, cfg.escrowAddress) && ts[0].denom == DENOM
    then EscrowDeposit
    else if cfg.payoutAddress != "" && EqualFold(ts[0].sender, cfg.payoutAddress) && ts[0].denom == DENOM
    then PayoutKind
    else
      var rest := KindOf(cfg, ts[1..]);
      if rest.UnknownKind? then PlainTransfer else rest
  }

  /** lookupSettlementTx: the hash is normalized to upper case; a fault is a network observation. */
  function LookupTx(cfg: Config, chain: Ledger, fault: Option<string>, txHash: string, e: Expect): Lookup {
    var h := Upper(Trim(txHash));
    if !TxHash(h) then Lookup(false, "INVALID_TX_HASH", "", false, UnknownKind, "", None)
    else if fault.Some? then Lookup(false, fault.value, "", false, UnknownKind, "", None)
    else if h !in chain then Lookup(false, "TX_NOT_FOUND", "", false, UnknownKind, "", None)
    else
      var tx := chain[h];
      Lookup(true, "", h, tx.success, KindOf(cfg, tx.transfers), tx.memo, MatchTransfer(tx.transfers, e))
  }

  /** Every amount the chain prints is canonical. */
  predicate CanonicalAmounts(tx: Tx) {
    forall t :: t in tx.transfers ==> Canonical(t.amount)
  }

  /** A transaction that made the bank send a request asks for, as an honest chain reports it. */
  predicate Carries(tx: Tx, req: Request, signer: string) {
    tx.memo == req.memo && CanonicalAmounts(tx) && ParseUint(req.amount).Some? &&
    Transfer(signer, req.to, FormatUint(ParseUint(req.amount).value), DENOM) in tx.transfers
  }

  /** Ledgers only grow. */
  ghost predicate Grows(c: Ledger, c': Ledger) {
    forall h :: h in c ==> h in c' && c'[h] == c[h]
  }
}

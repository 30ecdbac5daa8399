/** Configuration, requests, responses and stored records shared by every layer of the rail. */
module Records {
  import opened Text
  import opened Amounts

  const PAYOUT := "payout"
  const ESCROW := "escrow"
  const DENOM := "uwolo"

  datatype Config = Config(
    payoutKeyName: string, payoutAddress: string,
    escrowKeyName: string, escrowAddress: string,
    treasuryAddress: string, autoTopUp: bool,
    payoutFloor: U64, payoutHeadroom: U64,
    escrowFloor: U64, escrowHeadroom: U64,
    feePerPayout: Option<U64>)

  datatype Status = Blank | Failed | Validated | Partial | Accepted | Confirmed

  datatype Outcome = Invalid | Ready | Refused | Rejected | ConfirmedLine | AcceptedLine | Replayed | Unclear

  /** A transfer as a caller submits it. */
  datatype RawRequest = RawRequest(id: string, to: string, amountUWolo: string, amountWolo: int, memo: string)

  /** A normalized transfer. The fingerprint of a record is the request paired with its signer. */
  datatype Request = Request(id: string, to: string, amount: string, memo: string, role: string)

  datatype Response = Response(
    ok: bool, status: Status, failureCode: string, retryable: bool, replay: bool,
    id: string, role: string, signer: string, to: string, amount: string, txHash: string)

  datatype Fingerprint = Fingerprint(request: Request, signer: string)

  datatype Record = Record(request: Request, fingerprint: Fingerprint, response: Response)

  /** What submitting a bank send gave back. */
  datatype Verdict =
    | NoHash(code: string, retryable: bool)
    | RejectedTx(hash: string, code: string)
    | AcceptedTx(hash: string)
    | ConfirmedTx(hash: string)
  {
    predicate Hashed() {
      !NoHash?
    }
  }

  /** normalizeStoredSettlementSignerRole: records written before roles existed have none and mean payout. */
  function StoredRole(role: string): string {
    var r := Trim(Lower(role));
    if r == "" then PAYOUT else r
  }

  predicate SameRequest(a: Request, b: Request) {
    a.id == b.id && a.to == b.to && a.amount == b.amount && a.memo == b.memo && StoredRole(a.role) == StoredRole(b.role)
  }

  /** A response that later calls replay instead of retrying. */
  predicate Final(r: Response) {
    r.ok || r.txHash != "" || !r.retryable
  }

  predicate IsHex(c: char) {
    IsDigit(c) || 'A' <= c <= 'F'
  }

  /** A transaction hash in the form the chain reports it. */
  predicate TxHash(h: string) {
    |h| > 0 && |h| % 2 == 0 && forall i :: 0 <= i < |h| ==> IsHex(h[i])
  }

  lemma TxHashTrimmed(h: string)
    requires TxHash(h)
    ensures Trim(h) == h && Upper(h) == h
  {
  }

  lemma RolesStored()
    ensures StoredRole("") == PAYOUT && StoredRole(PAYOUT) == PAYOUT && StoredRole(ESCROW) == ESCROW
  {
    assert Lower("") == "";
    assert Lower("payout") == "payout";
    assert Lower("escrow") == "escrow";
  }
}

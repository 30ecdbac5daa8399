/** One transfer: normalization, replay decision, refusal and broadcast responses. */
module Transfers {
  import opened Text
  import opened Amounts
  import opened Ids
  import opened Records
  import opened Signers

  /** normalizeSettlementRequest, with the role the caller signs under. */
  function Normalize(raw: RawRequest, role: string): Option<Request> {
    var id, to := Trim(raw.id), Trim(raw.to);
    var amount := NormalizeAmount(raw.amountUWolo, raw.amountWolo);
    if !RequestIdPattern(id) || !IsWoloAddress(to) || amount.None? then None
    else Some(Request(id, to, amount.value, Cut(Trim(raw.memo), 180), role))
  }

  function FailedResponse(code: string, retryable: bool, id: string, role: string): Response {
    Response(false, Failed, code, retryable, false, id, role, "", "", "", "")
  }

  function InvalidRequest(raw: RawRequest, role: string): Response {
    FailedResponse("INVALID_REQUEST", false, Trim(raw.id), role)
  }

  /** The answer when the lock file already exists. */
  function InProgress(req: Request): Response {
    FailedResponse("REQUEST_IN_PROGRESS", true, req.id, req.role)
  }

  function Conflict(req: Request, stored: Record): Response {
    FailedResponse("IDEMPOTENCY_CONFLICT", false, req.id, req.role).(
      signer := stored.response.signer, to := req.to, amount := req.amount)
  }

  /** What a call under the lock does with the record it read: answer, or go on to preflight. */
  function Decide(stored: Option<Record>, req: Request): Option<Response> {
    if stored.None? then None
    else if !SameRequest(stored.value.request, req) then Some(Conflict(req, stored.value))
    else if Final(stored.value.response) then Some(stored.value.response.(replay := true))
    else None
  }

  /** The response recorded when preflight stops a transfer. */
  function Refusal(req: Request, p: Preflight): Response
    requires p.Stopped?
  {
    Response(false, Failed, p.code, p.retryable, false, req.id, req.role, p.signer, req.to, req.amount, "")
  }

  /** broadcastPayout and broadcastEscrowTransfer, after the verdict is known. */
  function BroadcastResponse(req: Request, signer: string, v: Verdict): Response {
    match v
    case NoHash(code, retryable) =>
      Response(false, Failed, code, retryable, false, req.id, req.role, signer, req.to, req.amount, "")
    case RejectedTx(hash, code) =>
      Response(false, Failed, code, false, false, req.id, req.role, signer, req.to, req.amount, hash)
    case AcceptedTx(hash) =>
      Response(true, Accepted, "", false, false, req.id, req.role, signer, req.to, req.amount, hash)
    case ConfirmedTx(hash) =>
      Response(true, Confirmed, "", false, false, req.id, req.role, signer, req.to, req.amount, hash)
  }

  /** deriveSettlementOutcome. */
  function OutcomeOf(r: Response): Outcome {
    if r.replay then Replayed
    else if r.status == Confirmed && r.ok then ConfirmedLine
    else if r.status == Accepted && r.ok then AcceptedLine
    else if r.status == Failed && Trim(r.txHash) == "" then Refused
    else if r.status == Failed then Rejected
    else Unclear
  }

  function NewRecord(req: Request, signer: string, response: Response): Record {
    Record(req, Fingerprint(req, signer), response)
  }

  /** Normalizing an already normalized transfer changes nothing. */
  lemma NormalizeFixed(raw: RawRequest, role: string, role': string)
    requires Normalize(raw, role).Some?
    ensures var n := Normalize(raw, role).value;
            var again := Normalize(RawRequest(n.id, n.to, n.amount, 0, n.memo), role');
            Trim(n.id) == n.id && Trim(n.to) == n.to && Trim(n.amount) == n.amount && n.amount != "" &&
            |n.memo| <= 180 &&
            RequestIdPattern(n.id) && IsWoloAddress(n.to) &&
            (ParseUint(n.amount).Some? && n.amount != "0" ==>
               again == Some(Request(n.id, n.to, n.amount, Trim(n.memo), role'))) &&
            (ParseUint(n.amount).None? || n.amount == "0" ==> again.None?)
  {
    TrimShape(raw.id);
    TrimShape(raw.to);
    TrimShape(raw.memo);
    NormalizedAmountTrimmed(raw.amountUWolo, raw.amountWolo);
    var n := Normalize(raw, role).value;
    TrimShape(n.memo);
    assert Cut(Trim(n.memo), 180) == Trim(n.memo);
  }

  /**
   * Whole tokens are millions of uwolo. Without a text a positive number of tokens is the same payment as the text of a
   * million times as many uwolo, as long as that fits a signed 64-bit number.
   */
  lemma WholeTokens(raw: RawRequest, role: string)
    requires Trim(raw.amountUWolo) == "" && 0 < raw.amountWolo * 1_000_000 < TWO63
    ensures var uwolo := raw.amountWolo * 1_000_000;
            Normalize(raw, role) ==
            Normalize(raw.(amountUWolo := FormatUint(uwolo), amountWolo := 0), role) &&
            (Normalize(raw, role).Some? ==> ParseUint(Normalize(raw, role).value.amount) == Some(uwolo))
  {
    hide Trim, RequestIdPattern, IsWoloAddress;
    var uwolo := raw.amountWolo * 1_000_000;
    ParseFormat(uwolo);
    NonZeroText(uwolo);
    SignedSmall(uwolo);
  }

  lemma NonZeroText(n: nat)
    requires n > 0
    ensures FormatUint(n) != "0"
  {
    DigitsOfFormat(n);
    assert DigitsValue("0") == 0;
  }

  lemma SignedSmall(x: int)
    requires 0 <= x < TWO63
    ensures WrapSigned(x) == x
  {
  }

  /**
   * What any number of whole tokens pays. None is no payment; otherwise the amount is a number exactly when a
   * million times as many, modulo 2^64, is below 2^63, and then it is that remainder: the number asked for if and
   * only if it fits.
   */
  lemma WholeTokensExactly(raw: RawRequest, role: string)
    requires Trim(raw.amountUWolo) == ""
    ensures raw.amountWolo <= 0 ==> Normalize(raw, role).None?
    ensures Normalize(raw, role).Some? ==>
              var uwolo, paid := raw.amountWolo * 1_000_000, ParseUint(Normalize(raw, role).value.amount);
              (paid.Some? <==> Wrap(uwolo) < TWO63) && (paid.Some? ==> paid.value == Wrap(uwolo)) &&
              (paid == Some(uwolo) <==> uwolo < TWO63)
  {
    hide Trim, RequestIdPattern, IsWoloAddress;
    if Normalize(raw, role).Some? {
      SignedText(raw.amountWolo * 1_000_000);
    }
  }

  lemma SignedText(x: int)
    requires x > 0
    ensures var paid := ParseUint(FormatInt(WrapSigned(x)));
            (paid.Some? <==> Wrap(x) < TWO63) && (paid.Some? ==> paid.value == Wrap(x)) &&
            (paid == Some(x) <==> x < TWO63)
  {
    var n := WrapSigned(x);
    SignedMeans(x);
    if n >= 0 {
      ParseFormat(n);
    } else {
      assert !IsDigit(FormatInt(n)[0]);
    }
  }

  lemma SignedMeans(x: int)
    requires x > 0
    ensures WrapSigned(x) == (if Wrap(x) < TWO63 then Wrap(x) else Wrap(x) - TWO64)
    ensures Wrap(x) < TWO63 && Wrap(x) == x <==> x < TWO63
  {
  }

  /** A text is paid as it stands: it must be a number other than the text 0, and no whole tokens may come with it. */
  lemma TextsAsked(raw: RawRequest, role: string)
    requires Trim(raw.amountUWolo) != ""
    ensures Normalize(raw, role).Some? ==>
              var text := Trim(raw.amountUWolo);
              Normalize(raw, role).value.amount == text && ParseUint(text).Some? && text != "0" && raw.amountWolo <= 0
  {
    hide Trim, RequestIdPattern, IsWoloAddress, ParseUint;
  }
}

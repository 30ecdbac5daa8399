/** Signer health, balances and the capacity checks made before a transfer or a run. */
module Signers {
  import opened Text
  import opened Amounts
  import opened Ids
  import opened Records

  /** How the keyring answered for a signer. */
  datatype KeyAnswer = Resolved(address: string) | Unresolved | WrongAddress

  /** One observation of the network: a fault, or the signers and their balances. Nothing about it is assumed. */
  datatype View = View(
    fault: Option<string>,
    payoutKey: KeyAnswer, payoutBalance: Option<U64>,
    escrowKey: KeyAnswer, escrowBalance: Option<U64>)

  datatype Limits = Limits(prefix: string, headroom: U64, floor: U64)

  function LimitsOf(cfg: Config, role: string): Limits {
    if role == ESCROW then Limits("ESCROW", cfg.escrowHeadroom, cfg.escrowFloor)
    else Limits("PAYOUT", cfg.payoutHeadroom, cfg.payoutFloor)
  }

  /** checkReserveHealth and checkEscrowReserveHealth. */
  function ReserveFault(lim: Limits, balance: U64): Option<string> {
    if lim.headroom > 0 && balance < lim.headroom then Some(lim.prefix + "_FEE_HEADROOM_TOO_LOW")
    else if lim.floor > 0 && balance < lim.floor then Some(lim.prefix + "_RESERVE_FLOOR_HIT")
    else None
  }

  /** checkPayoutCapacity and checkEscrowCapacity. */
  function CapacityFault(lim: Limits, balance: U64, amount: U64): Option<string> {
    if balance < amount then Some(lim.prefix + "_BALANCE_TOO_LOW")
    else ReserveFault(lim, balance - amount)
  }

  /** The reserve a signer must keep: the larger of floor and headroom. */
  function Reserve(lim: Limits): U64 {
    if lim.floor > lim.headroom then lim.floor else lim.headroom
  }

  datatype Health = Health(ok: bool, code: string, address: string, balance: Option<U64>)

  /** buildHealthReport, reduced to what callers branch on. */
  function HealthReport(cfg: Config, v: View): Health {
    if v.fault.Some? then Health(false, v.fault.value, "", None)
    else if cfg.payoutKeyName != "" && v.payoutKey.WrongAddress? then Health(false, "PAYOUT_ADDRESS_MISMATCH", "", None)
    else
      var address := if cfg.payoutKeyName != "" && v.payoutKey.Resolved? then v.payoutKey.address else "";
      if address != "" && v.payoutBalance.None? then Health(false, "PAYOUT_BALANCE_LOOKUP_FAILED", address, None)
      else
        var balance := if address != "" then v.payoutBalance else None;
        var low := if balance.Some? then ReserveFault(LimitsOf(cfg, PAYOUT), balance.value) else None;
        if low.Some? then Health(false, low.value, address, balance)
        else if cfg.escrowAddress != "" && !IsWoloAddress(cfg.escrowAddress) then
          Health(false, "INVALID_ESCROW_ADDRESS", address, balance)
        else Health(true, "", address, balance)
  }

  datatype Preflight =
    | Cleared(signer: string, balance: U64)
    | Stopped(signer: string, code: string, retryable: bool)

  /** preflightExecution. */
  function PayoutPreflight(cfg: Config, v: View, amount: string): Preflight {
    var h := HealthReport(cfg, v);
    if !h.ok then Stopped(h.address, h.code, h.code == "RPC_UNREACHABLE")
    else if cfg.payoutKeyName == "" then Stopped("", "PAYOUT_SIGNER_UNCONFIGURED", false)
    else if h.address == "" then Stopped("", "PAYOUT_SIGNER_UNAVAILABLE", false)
    else if ParseUint(Trim(amount)).None? then Stopped(h.address, "INVALID_REQUEST", false)
    else if h.balance.None? then Stopped(h.address, "PAYOUT_BALANCE_LOOKUP_FAILED", true)
    else
      var fault := CapacityFault(LimitsOf(cfg, PAYOUT), h.balance.value, ParseUint(Trim(amount)).value);
      if fault.Some? then Stopped(h.address, fault.value, true) else Cleared(h.address, h.balance.value)
  }

  /** preflightEscrowSigner. */
  function EscrowPreflight(cfg: Config, v: View, amount: string): Preflight {
    if v.fault.Some? then Stopped("", v.fault.value, v.fault.value == "RPC_UNREACHABLE")
    else if cfg.escrowKeyName == "" then Stopped("", "ESCROW_SIGNER_UNCONFIGURED", false)
    else if v.escrowKey.Unresolved? then Stopped("", "ESCROW_SIGNER_UNAVAILABLE", false)
    else if v.escrowKey.WrongAddress? then Stopped("", "ESCROW_ADDRESS_MISMATCH", false)
    else
      var signer := v.escrowKey.address;
      if ParseUint(Trim(amount)).None? then Stopped(signer, "INVALID_REQUEST", false)
      else if v.escrowBalance.None? then Stopped(signer, "ESCROW_BALANCE_LOOKUP_FAILED", true)
      else
        var fault := CapacityFault(LimitsOf(cfg, ESCROW), v.escrowBalance.value, ParseUint(Trim(amount)).value);
        if fault.Some? then Stopped(signer, fault.value, true) else Cleared(signer, v.escrowBalance.value)
  }

  function PreflightFor(cfg: Config, role: string, v: View, amount: string): Preflight {
    if role == ESCROW then EscrowPreflight(cfg, v, amount) else PayoutPreflight(cfg, v, amount)
  }

  /** A network without faults on which both configured signers resolve and answer for their balance. */
  predicate Serviceable(cfg: Config, v: View, role: string) {
    v.fault.None? &&
    if role == ESCROW then cfg.escrowKeyName != "" && v.escrowKey.Resolved? && v.escrowBalance.Some?
    else
      cfg.payoutKeyName != "" && v.payoutKey.Resolved? && v.payoutKey.address != "" && v.payoutBalance.Some? &&
      (cfg.escrowAddress == "" || IsWoloAddress(cfg.escrowAddress))
  }

  function BalanceOf(v: View, role: string): U64 {
    var b := if role == ESCROW then v.escrowBalance else v.payoutBalance;
    if b.Some? then b.value else 0
  }

  /** The capacity check is a single comparison against amount plus reserve. */
  lemma CapacityIsOneComparison(lim: Limits, balance: U64, amount: U64)
    ensures CapacityFault(lim, balance, amount).None? <==> balance >= amount + Reserve(lim)
  {
  }

  /** Whether a signer covers an amount and its reserve. */
  predicate Covers(cfg: Config, role: string, v: View, amount: string) {
    ParseUint(Trim(amount)).Some? && BalanceOf(v, role) >= ParseUint(Trim(amount)).value + ReserveFor(cfg, role)
  }

  /** What each signer has to keep: the larger of its own floor and its own headroom. */
  function ReserveFor(cfg: Config, role: string): U64 {
    if role == ESCROW then if cfg.escrowFloor >= cfg.escrowHeadroom then cfg.escrowFloor else cfg.escrowHeadroom
    else if cfg.payoutFloor >= cfg.payoutHeadroom then cfg.payoutFloor else cfg.payoutHeadroom
  }

  /** The address a configured signer resolved to. */
  function SignerOf(v: View, role: string): KeyAnswer {
    if role == ESCROW then v.escrowKey else v.payoutKey
  }

  /**
   * A preflight clears exactly on a serviceable network on which the balance covers the amount and the reserve, for the
   * address of the role's own key.
   */
  lemma PreflightClearsExactly(cfg: Config, role: string, v: View, amount: string)
    ensures PreflightFor(cfg, role, v, amount).Cleared? <==> Serviceable(cfg, v, role) && Covers(cfg, role, v, amount)
    ensures Reserve(LimitsOf(cfg, role)) == ReserveFor(cfg, role)
    ensures PreflightFor(cfg, role, v, amount).Cleared? ==>
              SignerOf(v, role) == Resolved(PreflightFor(cfg, role, v, amount).signer) &&
              PreflightFor(cfg, role, v, amount).balance == BalanceOf(v, role)
  {
    hide Trim, ParseUint, IsWoloAddress;
    if ParseUint(Trim(amount)).Some? {
      CapacityIsOneComparison(LimitsOf(cfg, role), BalanceOf(v, role), ParseUint(Trim(amount)).value);
      CapacityIsOneComparison(LimitsOf(cfg, role), BalanceOf(v, role), 0);
    }
  }

  /**
   * Which refusals may be tried again: an unreachable node, and a balance too low for the amount. A payout whose signer
   * is already below its reserve is refused for good, an escrow transfer is not.
   */
  lemma RefusalsToRetry(cfg: Config, role: string, v: View, amount: string)
    requires !PreflightFor(cfg, role, v, amount).Cleared?
    ensures PreflightFor(cfg, role, v, amount).retryable <==>
            v.fault == Some("RPC_UNREACHABLE") ||
            (ParseUint(Trim(amount)).Some? &&
             if role == ESCROW then v.fault.None? && cfg.escrowKeyName != "" && v.escrowKey.Resolved?
             else Serviceable(cfg, v, PAYOUT) && BalanceOf(v, PAYOUT) >= Reserve(LimitsOf(cfg, PAYOUT)))
  {
    hide Trim, ParseUint, IsWoloAddress;
    CodesDiffer();
    if ParseUint(Trim(amount)).Some? {
      CapacityIsOneComparison(LimitsOf(cfg, role), BalanceOf(v, role), ParseUint(Trim(amount)).value);
    }
    NoHealthCodeIsUnreachable(cfg, v);
  }

  lemma CodesDiffer()
    ensures "PAYOUT" + "_FEE_HEADROOM_TOO_LOW" != "RPC_UNREACHABLE"
    ensures "PAYOUT" + "_RESERVE_FLOOR_HIT" != "RPC_UNREACHABLE"
  {
    assert ("PAYOUT" + "_FEE_HEADROOM_TOO_LOW")[0] == 'P' && ("PAYOUT" + "_RESERVE_FLOOR_HIT")[0] == 'P';
  }

  lemma NoHealthCodeIsUnreachable(cfg: Config, v: View)
    ensures var h := HealthReport(cfg, v);
            (!h.ok && h.code == "RPC_UNREACHABLE" <==> v.fault == Some("RPC_UNREACHABLE")) &&
            (h.ok ==> v.fault.None?)
  {
    hide IsWoloAddress;
    CodesDiffer();
  }
}

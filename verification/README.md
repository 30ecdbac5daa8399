# WoloChain settlement rail, verified

A Dafny model of the settlement rail of WoloChain and of the protobuf codec of its one message, with proofs.

The rail pays out money in three nested, idempotent layers. A *single transfer* locks a request id, reads its record, replays
or refuses, checks capacity, broadcasts a bank send and writes the record. A *run* plans a list of payouts against one signer
and pays them line by line over the single-transfer rail. A *challenge* proves escrow deposits from transaction memos, checks
that every participant's wager and guarantee is spent exactly once, tops up the payout signer if it is short, executes a run
and merges the results. An *audit* re-derives all of this from stored records and the chain.

## How the project is laid out

| files | what they hold |
|---|---|
| `Text`, `Amounts`, `Ids`, `Records`, `Signers`, `Chain` | text and 64-bit arithmetic, derived ids, records, capacity checks, transaction lookup |
| `Transfers`, `Runs`, `RunLaws` | one transfer; preparing, planning and tallying a run; status, totals, plan against execution |
| `Memo`, `Funding`, `Challenges`, `ChallengeLaws`, `ChallengeRuns`, `TopUps`, `Reuse` | funding memos, deposits, plans, merging; conservation, totals, top-up; when a deposit can be used again |
| `Audit`, `AuditLaws`, `AuditDetects`, `Reverify`, `AuditComplete` | the audit in its imperative form; soundness and what it detects; completeness as an if-and-only-if |
| `Machine`, `Once` | all executions as one concurrent state machine; at most once, from the request layer alone |
| `Invariants`, `Stability`, `CallLaws`, `RunSteps`, `ChallengeSteps`, `ChallengeSound`, `Safety`, `Theorems`, `Money`, `Payments`, `Retries` | the invariant of the machine and the theorems about every behaviour |
| `Planner`, `Rail` | planning, merging and finalizing as loops; the service as a class that changes records and lock files in place, each change a step of the machine |
| `Wire`, `WireParse`, `WireGrammar`, `WireLaws` | varints, the buffer filled from the back, parsing; the format as a grammar, and that the parser accepts exactly that |
| `Reports` | reasons, counts and fields that responses report |
| `Progress` | every accepted challenge on an idle rail can be executed to confirmed |
| `Counterexamples`, `Example` | inputs on which a promise fails, where the exact conditions say it must; one challenge in many variants from deposit to audit |

`dafny verify dfyconfig.toml` checks everything.

## How the model reads the source

- A record store is a map from id to record, a lock file a key that belongs to a process, a fingerprint the normalized request
  itself (with the signer, for a single transfer). The chain is a map from hash to transaction. The network also remembers which
  send a handed-out hash belongs to, so that a transaction that appears later under the hash made that send or failed.
- A broadcast returns no hash, a rejected, an accepted or a confirmed hash; a confirmed one is on the chain and succeeded,
  nothing is assumed of the others. Signers, balances and faults are arbitrary observations, except that a resolved key is a
  trimmed address of the configured account.
- A process is a stack of at most three frames: a challenge, its run, the call of one line. Any number of them interleave step
  by step. Plans are made before any lock is taken, as in the source. Locks are never taken over, and nothing is lost between a
  broadcast and its write. Request records from before roles existed may be present at the start.
- Amounts of lines stay text, because the source compares them as text; totals are 64-bit and wrap.

## Where the code does not do what one would expect

Each with its exact condition and an input, most of them as states the machine reaches.

- Totals wrap at 2^64. A plan can admit a run whose exact total does not fit (`RunLaws.AdmittedRunClearsExactly`,
  `Counterexamples.WrappedRunIsAdmitted`), and the need of a run can wrap so that no top-up is planned (`TopUps.TopUpExact`,
  `Counterexamples.WrappedNeedPlansNoTopUp`).
- Bucket amounts of a funding memo are checked against the transferred amount modulo 2^64 (`Memo.ParsedBucketsAddUp`,
  `ChallengeLaws.Conservation`, `Example.WrappedBucketsAreAccepted`).
- The success flag of a funding transaction is not looked at (`Funding.SuccessIsNotChecked`, `Example.FailedDepositIsPaid`).
- The denomination of the transfer that proves a deposit is not looked at; one uwolo beside it is enough to make the
  transaction a deposit (`Funding.DenomIsNotMatched`, `Example.JunkDepositIsPaid`). What the rail itself pays is uwolo
  (`Payments.ConfirmedPaysEach`, `Payments.AuditedLinesAreCarried`).
- A deposit is tied to the source app, challenge id and event id of its memo, as far as a request gives them, and not to the
  settlement id, so the same request can be paid again under another one (`Reuse.DepositReusedExactly`,
  `Reuse.PaidAgainExactly`, `Reuse.SameRequestPaysAgain`, `Example.OneDepositPaysTwice`). A payment is made again exactly when
  it has another request id (`Payments.PaymentsMeetExactly`); for one settlement id the payouts stay within the funding
  (`Money.PaidWithinFunding`).
- The audit compares amounts as text: a line of `03` is accepted, paid and confirmed, and never audits, because the chain prints
  `3` (`AuditComplete.AuditCompleteness`, `Example.LeadingZeroNeverAudits`).
- A treasury line may differ from the treasury address in case, or exist without a configured treasury, and is paid; the audit
  requires the exact address (`AuditComplete.AuditCompleteness`, `Example.LooseTreasuryNeverAudits`).
- A whole-token amount is multiplied in 64-bit signed arithmetic, so a very large one becomes a negative or a zero text. A
  challenge accepts such a line as nothing, the run it hands over refuses it, and the challenge is never confirmed
  (`AuditComplete.ConfirmedIsReadable`, `Example.OverflowLineIsAccepted`).
- A payout refused because its signer is already below its reserve is final and is replayed ever after, while one whose amount
  does not fit above the reserve can be tried again (`Signers.RefusalsToRetry`, `Counterexamples.LowReserveIsFinal`).
- The end of a group need not carry the number of its start (`WireLaws.SkipExactlyOneField`, `WireLaws.GroupEndIsNotMatched`).
- A run whose shortfall consists only of replayed failures or invalid lines ends with a blank status, and can be retried
  (`RunLaws.RunStatusAndTotals`, `Example.BlankRunIsReachable`).

## Model

| member | source | states |
|---|---|---|
| Theorems.AtMostOneHash | cmd/wolochaind/cmd/settlement.go:1827-1889 | Over every interleaving of single, escrow, run and challenge executions, once a broadcast of a request id returned a hash, no later step broadcasts that id again; an instance of the next row. |
| Once.AtMostOneHashLoosely | cmd/wolochaind/cmd/settlement.go:3275-3310 | The same in every behaviour of a looser machine, over any initial store and lock files, in which runs and challenges see and leave arbitrary run and challenge locks: those locks are not needed. |
| Once.LooseStepKeeps | cmd/wolochaind/cmd/settlement_challenge.go:1875-1937 | Every step of the looser machine keeps the invariant of the request layer: a call between lock and unlock owns its lock, one past reading stands over a record it may replace, every logged hash is in its record or carried by the lock's owner. |
| Once.NoEarlierHash | cmd/wolochaind/cmd/settlement.go:3275-3310 | Whoever stands before a broadcast owns the lock of the id over a record without a hash, so no earlier broadcast of that id returned a hash. |
| Theorems.AbsorbingRequests | cmd/wolochaind/cmd/settlement.go:1829-1851 | From any reachable state to any later one, a stored payload never changes (an empty role meaning payout); a final record never changes, no process is about to preflight, broadcast or write it, and every call replays it or reports a conflict. |
| Theorems.AbsorbingRuns | cmd/wolochaind/cmd/settlement.go:1933-1958 | The fingerprint of a stored run never changes; a final run record never changes, no process is about to pay or write it again, and every run that reads it replays it or reports a conflict. |
| Theorems.AbsorbingChallenges | cmd/wolochaind/cmd/settlement_challenge.go:663-688 | The fingerprint of a stored challenge never changes; a final challenge record never changes, no process is about to top up, pay or write it again, and every challenge that reads it replays it or reports a conflict. |
| Theorems.LayersAgree | cmd/wolochaind/cmd/settlement.go:1897-1904 | In every reachable store each hash in a run line, a challenge line, the run or the top-up of a challenge is the hash of the request record of its id, with the same recipient and amount; every fingerprint is that of its own request and response signer. |
| Theorems.SignerIsolation | cmd/wolochaind/cmd/settlement.go:2101-2134 | Every broadcast is signed by the account of its role; inside a run it is one of the run's payouts under the run's role, never in a bet-market run under the payout role; successful replays too belong to the run's role; the only escrow debit of a challenge is its own top-up id, with at most one hash. |
| Safety.StepKeeps | cmd/wolochaind/cmd/settlement_challenge.go:646-778 | Every step of every process keeps the invariant of store, processes and broadcast log, and changes no final record and no stored payload. |
| CallLaws.CallStepKeeps | cmd/wolochaind/cmd/settlement_challenge.go:1859-1938 | Each step of a single transfer (lock, contend, read, preflight, broadcast, write, unlock) keeps all records in order, touches nothing another process has locked, and leaves its own frame in order. |
| RunSteps.RunStepKeeps | cmd/wolochaind/cmd/settlement.go:1917-2099 | Each step of a run keeps all records in order, including the agreement of every collected line with the request record it came from. |
| ChallengeSteps.ChallengeStepKeeps | cmd/wolochaind/cmd/settlement_challenge.go:690-770 | Each step of a challenge, top-up and run included, keeps all records in order, including the account of how a confirmed response came about. |
| Rail.Service.Settle | cmd/wolochaind/cmd/settlement.go:1828-1889 | What happens under a request lock (conflict, replay, refusal, broadcast, write) is a path of the machine, and the process ends about to unlock with exactly the returned response. |
| Rail.Service.Transfer | cmd/wolochaind/cmd/settlement.go:3275-3310 | Around the settlement the lock file is taken and removed, or its presence is reported as in progress; locks are as before afterwards. |
| Rail.Service.ExecuteTransfer | cmd/wolochaind/cmd/settlement.go:1810-1895 | An invalid request changes nothing; any other runs one process of the machine for the normalized request to the returned response and broadcasts at most once, for that request, whose amount is a million uwolo for each whole token asked for. |
| Rail.Service.PayLines | cmd/wolochaind/cmd/settlement.go:2037-2056 | The loop over the payouts collects one line for each payout, in order, every one through the single-transfer rail. |
| Rail.Service.SettleRun | cmd/wolochaind/cmd/settlement.go:1931-2090 | What happens under a run lock (conflict, replay, refused plan, execution, write) is a path of the machine that ends with exactly the returned response. |
| Rail.Service.ExecuteRun | cmd/wolochaind/cmd/settlement.go:1917-2099 | A run with an id is planned from one observation, and one new process of the machine runs exactly that plan to the returned response; without an id nothing changes and the plan is returned. All lock tables are as they were. |
| Rail.Service.PayTopUp | cmd/wolochaind/cmd/settlement_challenge.go:1369-1412 | The top-up goes through the escrow rail; the challenge fails on it or goes on to pay, as its settled result says. |
| Rail.Service.Conclude | cmd/wolochaind/cmd/settlement_challenge.go:661-771 | What happens under a challenge lock (conflict, replay, refusal, top-up, run, merge, write) is a path of the machine that ends with exactly the returned response. |
| Rail.Service.ExecuteChallenge | cmd/wolochaind/cmd/settlement_challenge.go:646-778 | A challenge with an id is planned from one observation and the current chain, and one new process of the machine settles exactly that plan to the returned response; without an id nothing changes and the plan's response is returned. All lock tables are as they were. |
| Rail.PathSafe | cmd/wolochaind/cmd/settlement.go:1917-2099 | Whatever sequence of executions a service went through, its world satisfies the invariant and no final record or payload changed on the way. |
| Rail.ServiceSafe | cmd/wolochaind/cmd/settlement.go:1810-1904 | A service in a valid state has never broadcast an id after a hash, and all its records are in order. |
| Progress.AcceptedChallengeCanConfirm | cmd/wolochaind/cmd/settlement_challenge.go:646-778 | From every reachable state, an accepted challenge with readable amounts and untouched ids, whose lines and whose top-up, if one is due, clear their preflights, has a behaviour that ends with it stored as confirmed and touches nothing but its own ids. |
| Progress.TopUpConfirms | cmd/wolochaind/cmd/settlement_challenge.go:1369-1412 | A payable top-up can be confirmed over the escrow rail, and the challenge goes on to pay. |
| Progress.CallConfirms | cmd/wolochaind/cmd/settlement.go:1828-1889 | From its lock to its answer, a cleared transfer of an untouched id can confirm, adds only its own record and leaves all locks as they were. |
| AuditComplete.AuditCompleteness | cmd/wolochaind/cmd/settlement_challenge_audit.go:181-251 | In every reachable state, on an honest chain that answers, the audit of a challenge stored as confirmed passes if and only if all transfer amounts are printed without leading zeros, treasury lines name the treasury address exactly, and a required top-up is on the chain and succeeded. |
| AuditComplete.AuditVerdictLasts | cmd/wolochaind/cmd/settlement_challenge_audit.go:141-252 | From any reachable state to any later one, a challenge stored as confirmed does not change, its audit passes if it passed before, and it never passes if an amount is not canonical or a treasury line not exact. |
| AuditComplete.ConfirmedIsReadable | cmd/wolochaind/cmd/settlement_challenge.go:2321-2338 | In every reachable state a confirmed challenge has only transfers whose amounts its run could read. |
| AuditComplete.MoveAudits | cmd/wolochaind/cmd/settlement_challenge_audit.go:539-642 | The audit of a paid line passes exactly when its amount is canonical text. |
| AuditComplete.TopUpAudits | cmd/wolochaind/cmd/settlement_challenge_audit.go:674-753 | The top-up part passes exactly when a required top-up landed and succeeded. |
| Reverify.VerifiesAgain | cmd/wolochaind/cmd/settlement_challenge_audit.go:334-361 | On an honest chain a deposit that verified verifies again with the same result under the expectation completed by its stored sender, run id and amounts. |
| AuditDetects.FailedDidNotPay | cmd/wolochaind/cmd/settlement_challenge_audit.go:648-672 | For any stored state and any chain: if the audit passes, the hash of every line stored as failed, and of a required top-up stored as failed, is that of a transaction on the chain that did not succeed. |
| AuditDetects.LandedFailureIsDetected | cmd/wolochaind/cmd/settlement_challenge_audit.go:663-666 | From any reachable state in which a transaction stands on the chain as a success, in every later one, no challenge with a line stored as failed under its hash passes the audit. |
| AuditDetects.ResponseIsPinned | cmd/wolochaind/cmd/settlement_challenge_audit.go:181-251 | A passing audit pins the response: its names, counts and totals are those of the request, and each stored deposit and the funded total are, field by field, what its own transaction proves again. |
| AuditDetects.RecordsArePinned | cmd/wolochaind/cmd/settlement_challenge_audit.go:493-753 | A passing audit pins the records behind the response: the run's, every line's and the top-up's are unaltered since fingerprinted and agree in id, recipient, amount, memo, status and hash, and a required top-up has its own transaction, with its transfer and memo. |
| AuditLaws.AuditSoundness | cmd/wolochaind/cmd/settlement_challenge_audit.go:327-482 | For any stored state and any chain: if every check passes, all deposits were re-proven from pairwise different transactions, each participant's transfers spend exactly the re-proven buckets, and every confirmed or accepted line is backed by a found, successful transaction with the expected sender, recipient and amount, in whatever denomination. |
| Payments.AuditedLinesAreCarried | cmd/wolochaind/cmd/settlement_challenge_audit.go:539-642 | The audit compares neither denominations nor the transactions of different lines; in every reachable state each confirmed or accepted line of a challenge that passes was carried in uwolo by its own request's transaction, and lines with different ids by different ones. |
| AuditLaws.AuditedKeysDistinct | cmd/wolochaind/cmd/settlement_challenge_audit.go:440-482 | The audit never compares participants, yet a passing allocation implies that no two deposits share a transaction or an identity key. |
| Audit.AuditChallenge | cmd/wolochaind/cmd/settlement_challenge_audit.go:141-252 | The audit returns OK exactly when the record exists and every check holds; a missing record is reported as not found. |
| Audit.AuditFunding | cmd/wolochaind/cmd/settlement_challenge_audit.go:327-404 | The loop returns the deposits that verify again and their wrapped total; its checks all pass exactly when every deposit verifies, agrees with what was stored, and the verified count matches. |
| Audit.AuditAllocation | cmd/wolochaind/cmd/settlement_challenge_audit.go:440-482 | The loop returns the wrapped totals by bucket; its checks all pass exactly when every amount is readable, treasury lines are routed exactly, every transfer has one deposit, and every bucket is allocated exactly. |
| Audit.AuditRunState | cmd/wolochaind/cmd/settlement_challenge_audit.go:493-537 | The run checks all pass exactly when no run is expected, or the stored run has its own fingerprint, the same id, status and totals, and every transfer's payout. |
| Audit.AuditMove | cmd/wolochaind/cmd/settlement_challenge_audit.go:559-638 | The checks of one response line all pass exactly when it matches its request line, its run line, its request record and the chain. |
| Audit.AuditTransfers | cmd/wolochaind/cmd/settlement_challenge_audit.go:539-642 | The loop over the response lines passes exactly when every line does. |
| Audit.AuditTopUp | cmd/wolochaind/cmd/settlement_challenge_audit.go:674-753 | The top-up checks all pass exactly when no top-up was required, or its response, record and transaction agree. |
| Audit.AuditChecks.Add | cmd/wolochaind/cmd/settlement_challenge_audit.go:258-271 | Appends one check and keeps the others; all pass exactly when they did and this one does. |
| Audit.AuditChecks.FirstFailureCode | cmd/wolochaind/cmd/settlement_challenge_audit.go:292-299 | The code of the first failed check that has one, or the general audit failure. |
| ChallengeLaws.Conservation | cmd/wolochaind/cmd/settlement_challenge.go:954-1032 | When the lines of a challenge are accepted, each participant's wager and guarantee transfers sum to the proven wager and guarantee modulo 2^64, exactly if and only if that sum is below 2^64; requested total and funded total are equal, and are the exact sums modulo 2^64. |
| Money.PaidWithinFunding | cmd/wolochaind/cmd/settlement_challenge.go:744-770 | In every reachable state the exact sum of all payouts sent for a challenge id that returned a hash is at most the exact total of the one accepted payload for which all of them were made, and so at most what its deposits prove unless a total wraps. |
| Money.OneClaim | cmd/wolochaind/cmd/settlement_challenge.go:661-688 | Over every behaviour, any two broadcasts made for the same challenge id, payouts or top-ups, were made for the same normalized request. |
| ChallengeLaws.AcceptedTreasury | cmd/wolochaind/cmd/settlement_challenge.go:974-980 | In every accepted plan a line with reason treasury goes, ignoring case, to the treasury, if there is one, which is a valid address: the request's, or else the configured one. |
| ChallengeLaws.MisroutedExactly | cmd/wolochaind/cmd/settlement_challenge.go:974-1008 | A line otherwise in order is refused for its route, spending nothing, exactly when it is a treasury line that goes elsewhere; one without a recipient goes to the treasury. |
| Money.TreasuryIsPaid | cmd/wolochaind/cmd/settlement_challenge.go:744-770 | In every reachable state each payout logged for a challenge is one of its transfers, to that transfer's recipient, and treasury lines, logged or of confirmed challenges, go to the treasury. |
| Reuse.LinesAsAsked | cmd/wolochaind/cmd/settlement_challenge.go:1088-1186 | Every line of an accepted request is in the form the service asks for and is the one asked for: side, participant, bucket, reason, recipient, amount, memo and id, with the request's defaults. |
| Reuse.FundedAsCited | cmd/wolochaind/cmd/settlement_challenge.go:868-925 | Every deposit of an accepted request is proven by the transaction the request cites and has each sender, id, side, total and bucket the request gives, ignoring case. |
| Reuse.ExpectedExactly | cmd/wolochaind/cmd/settlement_challenge.go:1694-1721 | A deposit that verifies under one expectation verifies under another of the same transfer if and only if that is well formed and each of its names and buckets is blank or, ignoring case, the memo's; and then as the same deposit. |
| Reuse.DepositReusedExactly | cmd/wolochaind/cmd/settlement_challenge.go:868-925 | Beside a request whose lines were accepted, a request on the same terms (same deposits and lines; settlement id, names and transfer ids may differ) is accepted at any later time, with the same deposits, if and only if the lookup answers, its ids and names are well formed, its transfer ids, explicit or derived, differ from each other, and source app, challenge id and source event id are each blank or, ignoring case, the memo's. |
| Reuse.PaidAgainExactly | cmd/wolochaind/cmd/settlement_challenge.go:1694-1721 | The same for the whole verdict of the plan under one observation, run and top-up included: the second request passes if and only if it may use the deposits and is not a bet market's; its lines differ from the first one's in their ids alone. |
| Reuse.SameRequestPaysAgain | cmd/wolochaind/cmd/settlement_challenge.go:2640-2642 | A request without transfer ids of its own that passed passes again under another settlement id if and only if that id is valid and not a bet market's, with the same deposits, and shares no request id with the first, so that nothing is replayed. |
| Reuse.SharedDepositNames | cmd/wolochaind/cmd/settlement_challenge.go:1694-1721 | Two accepted requests that cite one transaction, whenever made, name the same source app, and the same challenge and event as far as both name one, and count the deposit for the same participant and buckets. |
| Payments.ConfirmedPaysEach | cmd/wolochaind/cmd/settlement_challenge.go:744-770 | In every reachable state each transfer of a challenge stored as confirmed has its own successful transaction, different from all others of the challenge, in which the payout signer sent the recipient that amount of uwolo. |
| Payments.PaymentsMeetExactly | cmd/wolochaind/cmd/settlement.go:1829-1851 | In every reachable state two lines of challenges stored as confirmed are paid by one transaction if and only if they have the same request id. |
| Payments.OneHashPerId | cmd/wolochaind/cmd/settlement.go:1853-1889 | In every reachable state two request records with the same hash are the same record. |
| ChallengeLaws.BucketsPartition | cmd/wolochaind/cmd/settlement_challenge.go:1216-1259 | Every accepted transfer spends one bucket of one deposit, so the buckets of all participants sum exactly to the transfers. |
| ChallengeLaws.PlanTransfersGood | cmd/wolochaind/cmd/settlement_challenge.go:966-1012 | While no line is refused, the loop's allocation of each bucket is the exact sum of its transfers modulo 2^64, ids are distinct, and payouts mirror transfers. |
| Challenges.PlanTransfersLoop | cmd/wolochaind/cmd/settlement_challenge.go:963-1012 | The loop computes the accumulated transfers, results, allocation, seen ids, total and payouts of the specification function. |
| ChallengeRuns.RunOfChallenge | cmd/wolochaind/cmd/settlement_challenge.go:944-1012 | The run a challenge hands over has a valid header exactly up to 250 transfers, pays every readable transfer with the same id, recipient, amount and trimmed memo, and totals them. |
| ChallengeRuns.MergedLine | cmd/wolochaind/cmd/settlement_challenge.go:2168-2213 | Merging by request id finds for each transfer the line of its own payout, and nothing for a transfer the run could not read. |
| ChallengeRuns.ChallengeTotalsRefineRun | cmd/wolochaind/cmd/settlement_challenge.go:2168-2319 | For every response a run may hand over, executed or not: executed, confirmed and accepted counts and totals are the run's, each total is the sum of the two buckets; each transfer reports its own payout's result, or no hash and nothing executed when the run executed nothing. |
| Money.EveryMergeRefines | cmd/wolochaind/cmd/settlement_challenge.go:744-757 | In every reachable state, the response a challenge makes of the run it was handed refines that run in this sense, whatever the run answered. |
| ChallengeRuns.BucketsHoldTally | cmd/wolochaind/cmd/settlement_challenge.go:2215-2319 | Executed, confirmed, accepted, refused and rejected totals are the sums of the wager and guarantee bucket totals. |
| Challenges.BucketsLoop | cmd/wolochaind/cmd/settlement_challenge.go:2237-2290 | The loop over the transfers computes the bucket totals of the specification function. |
| Challenges.MergeLoop | cmd/wolochaind/cmd/settlement_challenge.go:2168-2213 | The two loops give each transfer the last run line of its id. |
| TopUps.TopUpExact | cmd/wolochaind/cmd/settlement_challenge.go:1270-1292 | The planned amount brings the payout balance to requested total, larger reserve and estimated fees if and only if that need is below 2^64, and then it is the least amount that does. |
| TopUps.SettledTopUpAdmitsRun | cmd/wolochaind/cmd/settlement_challenge.go:1388-1411 | An accepted top-up lets the challenge pay exactly when the balance already covers the need of its run, and then the run planned again on that balance is admitted; otherwise it stays retryable and keeps its hash. A confirmed one admits the run as soon as the credit shows. |
| TopUps.TopUpAdmitsRun | cmd/wolochaind/cmd/settlement.go:2162-2278 | After crediting a required top-up the rebuilt run plan is admitted if and only if the exact need is below 2^64, and the remainder above the reserve is exactly the estimated fees. |
| TopUps.ToppedUpRunClears | cmd/wolochaind/cmd/settlement.go:2038-2056 | A topped-up run whose exact total fits and whose fees stay within the estimate passes every per-line preflight. |
| TopUps.EstimateIsSum | cmd/wolochaind/cmd/settlement.go:4666-4683 | The estimate of a plan that got as far as a signer is the sum of one configured fee for each payout, modulo 2^64; any other plan has none. |
| TopUps.ToppedUpRunPaysEachFee | cmd/wolochaind/cmd/settlement.go:4666-4683 | A topped-up run whose need, total and fees fit in 64 bits passes every per-line preflight when each line costs the configured fee. |
| TopUps.PlanAdmittedExactly | cmd/wolochaind/cmd/settlement.go:2114-2325 | A run of either role is admitted if and only if it has payouts, is no bet market's under the payout role, and its own signer is serviceable and covers the wrapped total and its reserve; it is then planned for that signer. |
| RunLaws.PreparedItems | cmd/wolochaind/cmd/settlement.go:3651-3730 | What a run pays is what its items ask for, in order, under their own ids or derived ones; every other item is a refused line that cannot be paid or repeats the id of an earlier payout. |
| RunLaws.AdmittedRunClears | cmd/wolochaind/cmd/settlement.go:2214-2278 | If a run is admitted, its exact total is below 2^64, only its own sends and fees debit the signer, and fees fit above the reserve, then every per-line preflight clears, for either signer. |
| RunLaws.AdmittedRunClearsExactly | cmd/wolochaind/cmd/settlement.go:3132-3264 | When a line debits the signer exactly if its preflight clears, and fees fit above the reserve, all preflights of an admitted run clear if and only if its amounts are readable and its exact total is below 2^64, because the planned total wraps. |
| RunLaws.RunStatusAndTotals | cmd/wolochaind/cmd/settlement.go:3797-3889 | Executed lines number confirmed, accepted, refused, rejected and replayed failures; executed total is confirmed plus accepted; the status is confirmed exactly when every requested line confirmed, and blank exactly when nothing was refused or rejected and lines are missing. |
| RunLaws.RunStatusExactly | cmd/wolochaind/cmd/settlement.go:3871-3889 | Each status is told from the lines alone: accepted when every requested line was sent but not all confirmed, partial when some were sent and some turned away, failed when none was sent and some were turned away. |
| RunLaws.ConfirmedPaysRequested | cmd/wolochaind/cmd/settlement.go:2058-2082 | A run that ends confirmed reports a confirmed and executed total equal to its requested total. |
| RunLaws.PlanFacts | cmd/wolochaind/cmd/settlement.go:2114-2325 | A plan reports no hash and counts nothing as executed, and is admitted only with an allowed, serviceable signer whose balance covers the wrapped total and the reserve. |
| Runs.PrepareLinesLoop | cmd/wolochaind/cmd/settlement.go:3651-3730 | The loop computes payouts, lines, seen ids, the invalid flag and the total of the specification function. |
| RunLaws.PrepareLinesPrepared | cmd/wolochaind/cmd/settlement.go:3581-3753 | Prepared payouts are normalized, have distinct ids and are totalled modulo 2^64; lines are invalid exactly when payouts are missing. |
| Runs.TallyLoop | cmd/wolochaind/cmd/settlement.go:3820-3850 | The counting loop computes the counters and wrapped totals of the specification function, from whatever counters it starts with. |
| Signers.CapacityIsOneComparison | cmd/wolochaind/cmd/settlement.go:3132-3264 | A capacity check passes exactly when the balance covers the amount plus the larger of floor and headroom. |
| Signers.PreflightClearsExactly | cmd/wolochaind/cmd/settlement.go:2488-2567 | On a serviceable network a preflight clears exactly when the balance covers amount and reserve. |
| Signers.RefusalsToRetry | cmd/wolochaind/cmd/settlement.go:2488-2566 | A stopped transfer may be tried again exactly when the node was unreachable or the balance does not cover the amount; a payout whose signer is already below its reserve is refused for good, an escrow transfer is not. |
| Transfers.WholeTokens | cmd/wolochaind/cmd/settlement.go:3518-3545 | A positive number of whole tokens is the same payment as the text of a million times as many uwolo, as long as that fits a signed 64-bit number. |
| Transfers.WholeTokensExactly | cmd/wolochaind/cmd/settlement.go:3518-3545 | For any number of whole tokens: none is no payment; otherwise the amount is a number exactly when a million times as many is below 2^63 modulo 2^64, then that remainder, and the number asked for if and only if it fits. |
| Transfers.TextsAsked | cmd/wolochaind/cmd/settlement.go:3518-3538 | An amount given as text is paid as it stands; it is a number other than the text 0, and no whole tokens come with it. |
| Retries.RequestRetriedExactly | cmd/wolochaind/cmd/settlement.go:1829-1851 | In every reachable state a stored transfer is tried again if and only if the same payment under the same role is asked for and its answer is retryable; otherwise it is replayed, or refused as a conflict without a hash. |
| Retries.RunRetriedExactly | cmd/wolochaind/cmd/settlement.go:1933-1958 | In every reachable state a stored run is executed again if and only if the same run is asked for and one of its lines is retryable or it has no status; otherwise it is replayed or refused. |
| Retries.ChallengeRetriedExactly | cmd/wolochaind/cmd/settlement_challenge.go:663-688 | In every reachable state a stored challenge is settled again if and only if the same challenge is asked for and it is retryable or has no status; otherwise it is replayed or refused. |
| Retries.AnswersToRetry | cmd/wolochaind/cmd/settlement.go:1829-1889 | A transfer that was refused or sent is tried again exactly when its refusal, or the node without a hash, says it may be; one with a hash is replayed as the network reported it. |
| Retries.BusyAnswersRetry | cmd/wolochaind/cmd/settlement.go:3275-3310 | An answer that a transfer, a run or a challenge is in progress reports nothing done and may be tried again. |
| Retries.VerdictsAreRecorded | cmd/wolochaind/cmd/settlement.go:1877-1889 | In every reachable state the hash a broadcast returned stands in the record of its id as confirmed, accepted or failed, just as the network had it, or is carried there by the process that holds it. |
| Retries.ExecutedRunSays | cmd/wolochaind/cmd/settlement.go:3771-3889 | An executed run says what its transfers were answered: each line has its answer's status, hash, signer and reason; it is confirmed exactly when all were, and final exactly when none can be tried again and it has a status. |
| Retries.RefusedRunRetries | cmd/wolochaind/cmd/settlement.go:2162-2278 | A payout run refused before it starts may be tried again, and its record is not final, exactly when it is no bet market's and the node was unreachable or a serviceable signer has its reserve but not the total. |
| Retries.RefusedPlanRetries | cmd/wolochaind/cmd/settlement_challenge.go:1270-1367 | A challenge plan refused for its top-up may be tried again exactly when top-ups are switched off, or all is configured and the escrow balance is unknown or too low; otherwise exactly when its run may. |
| Retries.FailedTopUpEndsExactly | cmd/wolochaind/cmd/settlement_challenge.go:703-741 | A challenge whose top-up failed ends failed and may be tried again exactly when the top-up or the run may; no line stays ready. |
| Retries.ExecutedEndsExactly | cmd/wolochaind/cmd/settlement_challenge.go:744-770 | A challenge that executed its run may be settled again exactly when the run, or one of its lines, may be. |
| Reports.RunSaysWhy | cmd/wolochaind/cmd/settlement.go:3871-3917 | An executed run that did not go out in full gives the first reason its lines give, or a default; any other gives none. |
| Reports.ChallengeSaysWhy | cmd/wolochaind/cmd/settlement_challenge.go:2321-2347 | A challenge that executed its run and did not go out in full gives the first reason its merged lines give, or a default; any other gives none. |
| Reports.RefusedPlanSaysWhy | cmd/wolochaind/cmd/settlement_challenge.go:1270-1367 | A plan with good lines that is refused names what its top-up lacks, in the order of the checks, or what its run was refused for. |
| Reports.StoppedSaysWhy | cmd/wolochaind/cmd/settlement.go:2488-2566 | A serviceable signer that stops a transfer names which of amount, headroom and floor its balance misses first. |
| Reports.EscrowSaysWhy | cmd/wolochaind/cmd/settlement_challenge.go:1945-2055 | An escrow signer that is not serviceable stops every transfer and names the fault, the missing configuration, key or balance. |
| Reports.PayoutSaysWhy | cmd/wolochaind/cmd/settlement.go:2488-2566 | A payout signer that is not serviceable stops every transfer and names the fault, the missing configuration, key or balance. |
| Reports.PlannedTopUpSays | cmd/wolochaind/cmd/settlement_challenge.go:1270-1367 | A planned top-up reports what it is for, whence and where to, and is needed, allowed and possible exactly as balances and configuration say. |
| Reports.PlannedLinesSay | cmd/wolochaind/cmd/settlement.go:3976-3987 | Every ready line of an admitted plan names the run's own role and signer. |
| Reports.UnreportedSays | cmd/wolochaind/cmd/settlement_challenge.go:2168-2213 | A transfer the run does not report failed untried, without a hash. |
| Reports.RunAsAsked | cmd/wolochaind/cmd/settlement.go:3581-3649 | The fingerprint of a run keeps its id, source, event, note, memo and role as asked, trimmed, and exactly the payouts its items ask for. |
| Reports.LineSaysWhy | cmd/wolochaind/cmd/settlement_challenge.go:966-1012 | A refused challenge line says why; one that repeats an id still spends its bucket and is not paid, any other leaves totals, allocation and payouts as they were. |
| Reports.RefusedDepositSaysWhy | cmd/wolochaind/cmd/settlement_challenge.go:1414-1509 | A deposit that is not verified names the first of the conditions it fails. |
| Reports.MergedSays | cmd/wolochaind/cmd/settlement_challenge.go:2168-2213 | A transfer the run reports gets that very line, with its own index, recipient, amount and memo. |
| Reports.PlannedMovesSay | cmd/wolochaind/cmd/settlement_challenge.go:966-1012 | A planned line names the participant as its one matching deposit does, and is ready to be paid as asked. |
| Transfers.NormalizeFixed | cmd/wolochaind/cmd/settlement.go:3491-3544 | Normalizing an already normalized transfer keeps id, recipient and amount and trims the memo, and fails exactly on an amount that cannot be read again or is zero. |
| Funding.DepositsDistinct | cmd/wolochaind/cmd/settlement_challenge.go:1188-1239 | With distinct participants, proven deposits cite pairwise different transactions and have pairwise different identity keys. |
| Funding.ResolutionUnique | cmd/wolochaind/cmd/settlement_challenge.go:1216-1239 | Among distinct participants no reference is ambiguous: it resolves to the one deposit it names, or to none exactly when none is named. |
| Funding.SuccessIsNotChecked | cmd/wolochaind/cmd/settlement_challenge.go:1450-1509 | The success flag of a transaction makes no difference to the deposit it proves. |
| Funding.VerifiedAsAsked | cmd/wolochaind/cmd/settlement_challenge.go:1694-1721 | A verified deposit is the one that was asked for: every expected name, sender and amount that is not blank is, ignoring case, what its transaction and memo give. |
| Funding.DepositKindExactly | cmd/wolochaind/cmd/settlement.go:3001-3020 | A transaction counts as an escrow deposit exactly when one of its transfers moves uwolo into escrow and no payout of uwolo comes before it. |
| Funding.VerifiedMovedUwolo | cmd/wolochaind/cmd/settlement.go:3001-3020 | The transaction of a verified deposit did move uwolo into escrow. |
| Funding.DenomIsNotMatched | cmd/wolochaind/cmd/settlement.go:4365-4389 | The denomination of the matched transfer is not looked at: a verified deposit is the one its transaction's uwolo transfers alone would prove if and only if the first matching uwolo transfer has the sender and amount of the first matching transfer, in particular when the latter is in uwolo. |
| Funding.ParticipantErrors | cmd/wolochaind/cmd/settlement_challenge.go:1188-1214 | The loop reports no error exactly when no two deposits share a side or a participant, ignoring case. |
| Funding.ResolveLoop | cmd/wolochaind/cmd/settlement_challenge.go:1216-1239 | The loop finds the single deposit a reference names, or reports it missing or ambiguous. |
| Funding.VerifiedIsProven | cmd/wolochaind/cmd/settlement_challenge.go:1414-1509 | A verified deposit is proven by a transfer into escrow and the memo of its own transaction, and meets the expectation. |
| Planner.BuildRunPlan | cmd/wolochaind/cmd/settlement.go:2114-2160 | Built with the preparing and counting loops, the plan is the one of the specification function. |
| Planner.BuildChallengePlan | cmd/wolochaind/cmd/settlement_challenge.go:780-1086 | Built with the loops over deposits, participants, transfers, buckets and lines, the plan is the one of the specification function. |
| Planner.VerifyDeposits | cmd/wolochaind/cmd/settlement_challenge.go:868-927 | The loop looks up every deposit, counts those that verify and sums what they carry. |
| Planner.BucketErrors | cmd/wolochaind/cmd/settlement_challenge.go:1241-1259 | The loop reports no error exactly when every participant's wager and guarantee are allocated exactly. |
| Planner.MergeRun | cmd/wolochaind/cmd/settlement_challenge.go:749-757 | Built with the merging, counting and bucket loops, the response is the one of the specification function. |
| ChallengeSound.AcceptedIsSound | cmd/wolochaind/cmd/settlement_challenge.go:780-1086 | An accepted plan rests on verified deposits, conserved buckets, a matching run and a top-up under its own id. |
| ChallengeSound.PlanSoundGrows | cmd/wolochaind/cmd/settlement_challenge.go:1414-1509 | Everything an accepted plan rests on stays true as the chain grows. |
| Memo.MemoExactly | cmd/wolochaind/cmd/settlement_challenge.go:1559-1692 | A memo of valid fields, each under any of its aliases and with its value percent-encoded in any way, parses to those fields for an amount that is the wrapped sum of its buckets, unless it declares another total: then it does not parse. |
| Memo.MemoRoundTrip | cmd/wolochaind/cmd/settlement_challenge.go:1559-1692 | A memo written without any encoding, under any of the aliases, parses back to its fields. |
| Memo.SemicolonRefused | cmd/wolochaind/cmd/settlement_challenge.go:1565-1568 | A semicolon anywhere makes the whole memo invalid. |
| Memo.ParsedBucketsAddUp | cmd/wolochaind/cmd/settlement_challenge.go:1640-1692 | A memo parses only if both buckets are positive and add up to the transferred amount modulo 2^64, exactly if and only if their sum is below 2^64. |
| Ids.DerivedIdsInjective | cmd/wolochaind/cmd/settlement.go:4029-4031 | Item, challenge and top-up ids are injective in run id and index. |
| Ids.DerivedIdsDisjoint | cmd/wolochaind/cmd/settlement_challenge.go:2640-2646 | The three families of derived ids are pairwise disjoint. |
| Ids.DerivedIdsValid | cmd/wolochaind/cmd/settlement.go:4003-4031 | Ids derived from a valid run id satisfy the request id pattern for every index. |
| WireLaws.RoundTrip | x/wolochain/types/tx.pb.go:247-350 | Every message is encoded in exactly Size() bytes, and unmarshalling them into a fresh message gives it back. |
| WireLaws.MergeRoundTrip | x/wolochain/types/tx.pb.go:351-465 | Unmarshalling an encoded message into any message sets its fields; an empty authority is not written and leaves the old one. |
| Wire.VarintRoundTrip | x/wolochain/types/tx.pb.go:310-347 | Every 64-bit number is written in exactly sovTx bytes that read back as it, whatever follows. |
| Wire.EncodeVarint | x/wolochain/types/tx.pb.go:310-320 | Fills exactly the sovTx(v) bytes before the offset with the varint and touches no other byte. |
| Wire.MarshalToSizedBuffer | x/wolochain/types/tx.pb.go:262-284 | Writes the encoding into the last Size() bytes of the buffer and leaves the rest alone. |
| Wire.Marshal | x/wolochain/types/tx.pb.go:247-256 | Returns a buffer that holds exactly the encoding. |
| Wire.SkipField | x/wolochain/types/tx.pb.go:516-593 | The loop computes the specification of skipping, on every input. |
| WireParse.Unmarshal | x/wolochain/types/tx.pb.go:351-465 | The loop computes the specification of parsing, on every input, with the errors of the source. |
| WireGrammar.VarintExactly | x/wolochain/types/tx.pb.go:354-370 | Reading a varint succeeds exactly on bytes that begin with at most ten bytes of which only the last has no continuation bit, and gives the number their groups of seven bits stand for, modulo 2^64. |
| WireGrammar.EncodedFields | x/wolochain/types/tx.pb.go:516-593 | For every field number the tag of each wire type with a payload of that type, varint, eight bytes, a length and that many bytes, four bytes, is a field of the grammar. |
| WireLaws.SkipExactlyOneField | x/wolochain/types/tx.pb.go:516-593 | On every input skipTx ends; within the buffer it succeeds exactly on inputs that begin with one field of a grammar given without the parser, a scalar of its wire type or a balanced group, and consumes exactly that. |
| WireLaws.UnmarshalExactly | x/wolochain/types/tx.pb.go:351-465 | Unmarshal accepts exactly the sequences of fields of the grammar in which field 1 is a byte string, field 2 a message of any fields and every other number is positive, and gives the last authority, or the one before. |
| WireLaws.UnknownFieldIgnored | x/wolochain/types/tx.pb.go:445-458 | Inserting any complete field with an unused number at a field boundary leaves the outcome unchanged: the same message, or a refusal on both sides. |
| WireLaws.RefusedFieldSaysWhy | x/wolochain/types/tx.pb.go:371-383 | A message is refused at a field whose tag ends a group, has no positive number, or gives a known field another wire type, with the error of that case. |
| WireLaws.RefusedSkipSaysWhy | x/wolochain/types/tx.pb.go:573-584 | Skipping fails on a group end without a start and on a wire type that does not exist, with the error of that case. |
| WireLaws.FieldLocal | x/wolochain/types/tx.pb.go:351-465 | A field that parses depends only on its own bytes, not on where they stand or what follows. |
| Counterexamples.LowReserveIsFinal | cmd/wolochaind/cmd/settlement.go:2488-2566 | With a balance of three and a floor of five a payout of one is refused for good; without a floor the refusal of four can be tried again. |
| WireLaws.GroupEndIsNotMatched | x/wolochain/types/tx.pb.go:573-579 | The start of group 3 closed by the end of group 4 is skipped as one field. |
| Counterexamples.WrappedRunIsAdmitted | cmd/wolochaind/cmd/settlement.go:3717-3732 | A run of two payouts of 2^63 is admitted on an empty account, and no line of it ever clears, as the exact condition says. |
| Example.LeadingZeroNeverAudits | cmd/wolochaind/cmd/settlement_challenge_audit.go:539-642 | A reachable state holds a confirmed challenge without treasury lines, one amount of which reads 03; in every state that follows its audit fails. |
| Example.LooseTreasuryNeverAudits | cmd/wolochaind/cmd/settlement_challenge_audit.go:456-460 | Reachable states hold confirmed challenges whose treasury line differs from the treasury address in case, or has no treasury configured; in every state that follows their audits fail. |
| Example.FailedDepositIsPaid | cmd/wolochaind/cmd/settlement_challenge.go:1441-1509 | A reachable state holds a confirmed challenge funded by a transaction that failed; in every state that follows its audit passes. |
| Example.OneDepositPaysTwice | cmd/wolochaind/cmd/settlement_challenge.go:868-925 | A reachable state holds two confirmed challenges on the same terms under two settlement ids that cite one deposit of seven; four different successful transactions have sent three, four, three and four uwolo, and in every state that follows both audits pass. |
| Example.OtherDuelIsRefused | cmd/wolochaind/cmd/settlement_challenge.go:1702-1702 | The deposit that funds a request does not fund the same request under another challenge id. |
| Example.JunkDepositIsPaid | cmd/wolochaind/cmd/settlement.go:3001-3020 | A reachable state holds a confirmed challenge funded by a transaction that moved seven of another denomination and one uwolo to escrow; it verifies as a deposit of seven, its uwolo alone does not, and in every state that follows the audit passes. |
| Example.WrappedBucketsAreAccepted | cmd/wolochaind/cmd/settlement_challenge.go:1640-1660 | A deposit of 7 proves buckets of 2^63 and 2^63 + 7, and a challenge that pays them out is accepted. |
| Example.AnySplitIsAccepted | cmd/wolochaind/cmd/settlement_challenge.go:1640-1660 | A deposit of seven supports any two buckets that add up to seven modulo 2^64; the exact total asked for is seven exactly when it does not wrap. |
| Example.OverflowLineIsAccepted | cmd/wolochaind/cmd/settlement.go:3520-3544 | A challenge with a line of 2^58 whole tokens is accepted, and the run planned for it leaves that line out. |
| Example.BlankRunIsReachable | cmd/wolochaind/cmd/settlement.go:3871-3889 | A reachable state holds a run with one invalid and one confirmed line and no status, not OK and not final. |
| Example.ExampleConfirms | cmd/wolochaind/cmd/settlement_challenge.go:646-778 | From every reachable rail that is free for it, each variant of a concrete challenge has a behaviour that stores it as confirmed; in every state that follows its audit passes if and only if its amount is written 3 and any treasury line names the treasury exactly. |
| Example.ExampleIsAccepted | cmd/wolochaind/cmd/settlement_challenge.go:780-1086 | A deposit of seven, spent exactly by lines whose wrapped total is seven, is accepted without a top-up. |
| Counterexamples.WrappedNeedPlansNoTopUp | cmd/wolochaind/cmd/settlement_challenge.go:1279-1292 | The plan of a run of 2^64 - 1 on an empty account with a floor of one is refused, its need of exactly 2^64 wraps to zero, and no top-up is planned. |

## Left out

- Taking over a lock past its TTL, crashes, failed writes and unreadable state files: the machine has no such steps.
- Loss between broadcast and write, and a send that lands although no hash was reported for it.
- Time of observation: a plan or a preflight sees one observation of the network, where the source makes several calls in a row.
- Process execution, REST and RPC calls, key lookup, timeouts, confirmation polling: replaced by observations and verdicts.
- JSON, SHA-256, file paths and rename-into-place writes: maps and the requests themselves stand for them.
- Detail, warning and name texts, lookup URLs, display amounts, inspect and recent summaries.
- The auto-top-up branch of executeSettlementRun: unreachable, because its guard always returns false.
- Parsing of fee strings: the fee for one payout is a configuration value.
- Text beyond ASCII: trimming, case folding and URL decoding are modelled on ASCII, and the address prefix is the canonical one.
- A payout address derived only for classifying a looked-up transaction: it never turns a transaction into an escrow deposit.
- Cobra commands, HTTP handlers, authentication, environment loading, genesis, module wiring and the other generated codecs.
- Audit.AuditChallenge: bucket totals of a stored response are looked up by exact bucket name, where the source ignores case.
- Rail.Service.ExecuteChallenge: the chain a plan is made from is the current one; the machine itself allows any earlier one.
- WireLaws.UnknownFieldIgnored: which error a malformed rest reports may depend on its position, so only the refusal is equal.

# Escrow, token, multisig and their helpers: a Dafny model

A verification project for a NEAR escrow system. Agents post paid jobs, workers claim them and put
up a stake, a verifier judges the result through a yield/resume callback, and the escrow contract
settles by launching token transfers whose outcome arrives later in a callback.

Every part of the model follows the code. The hard part is asynchrony: settlement only launches
transfers, and other calls, including a second settlement of the same job, may run before the
callback does.

- `EscrowState.dfy`, `EscrowSpec.dfy`: the contract's storage and what each call does to it, as a
  function of the state before; `None` is a panic, after which the runtime restores the state.
- `EscrowContract.dfy`: the contract as a class with the source's fields and loops. Each method is
  proved to have exactly the effect `EscrowSpec` gives, on every field.
- `EscrowRuns.dfy`, `EscrowTheorems.dfy`: runs, that is, any calls by anyone in any order at any
  time, with callbacks that may come late, repeatedly, out of order and with any outcome; the job
  invariant; exactly-once payout, stakes, status safety, recovery.
- `EscrowIndex.dfy`, `EscrowStats.dfy`, `EscrowWallet.dfy`: the data-id index against a scan, the
  cached counters against a recount, signed messages against replay.
- `EscrowBooks.dfy`, `EscrowStakes.dfy`: the stake ledgers of the theorems against the NEAR that comes
  in, stays, is sent out and reaches wallets.
- `EscrowPayees.dfy`, `EscrowParties.dfy`: who gets what: every promise of every call, told from the job
  and from what its parties are promised; verdicts, stakes, winners. `Payroll.dfy`: the tokens that the
  parties really received, over runs of both contracts.
- `EscrowRules.dfy`, `EscrowBalances.dfy`: who may move a job and when, what holds for whoever waits for
  it, and that no wallet is debited without its owner's signature.
- `Consensus.dfy`: the verifiers, the two ways to resume a yield, and the runtime that calls back; what
  a Claimed job rests on.
- `Token.dfy`: the token contract (NEP-141). `EscrowTraffic.dfy`, `World.dfy`, `Solvency.dfy`: escrow
  and token together, one step per asynchronous hop, and the solvency theorem. `Funding.dfy`: accepted
  deposits against openings. `EscrowInside.dfy`: which settling calls pay at once.
- `Overdraft.dfy`, `Surplus.dfy`, `Reaiming.dfy`, `Conservation.dfy`: the same without the theorem's two
  assumptions on batches; what every step adds to or takes from the escrow's surplus, and so exactly
  when it stays solvent; the ways to lose money one by one; and the exact balance when the assumptions
  hold.
- `Msig.dfy`: the agent's multisig with its nonces, spending window and key rotation.
- `Base58.dfy`, `Relayer.dfy`, `DirectoryHash.dfy`, `Scorer.dfy`: the in-place base-58 division, the
  retry queue and rate limiter, the directory digest, the median decision.
- `Hex.dfy`, `Messages.dfy`, `Signatures.dfy`, `Basics.dfy`: shared pieces.

## How the model reads the code

- The release profile sets no overflow checks, so plain `+` wraps: the `u8` retry counter (modulo
  256), token balances and supply (modulo 2^128), the multisig nonce (modulo 2^64), the `u8`
  signature count. Saturating operations saturate. The score is cut to a `u8` (modulo 256) before it
  is compared. Elsewhere amounts and times are natural numbers; `TotalNeverBelowCreated` and
  `CountersAgree` say where they need fewer than 2^64 calls.
- `u8::from_str_radix` takes a leading plus sign; the hex decoder does too. The source slices bytes, so
  text with characters beyond ASCII can panic at a character boundary in `hex_decode_safe`, although it
  is meant not to panic; the model works on characters and returns None there.
- Signature checking, SHA-256 and JSON parsing are parameters. A verdict payload is timed out,
  malformed, or parsed with optional fields. Clock, block height, signer and attached deposit come
  with each call; a yield id is one that was never issued before.
- Owner setters and pause switches appear in runs as `Configure` and `PauseWorkers` with any values.
- `Finalize` is the success branch that `settle_callback` and `_settle_callback_internal` share; the
  latter is reached only with an internal worker and no transfer to make.
- Solvency is about one honest token at a time, for every token other than `near`. The transfers of a
  batch are steps of their own, in any order, with any other traffic in between. What a batch has paid
  and not yet reported counts against what is due on its job. It assumes that nobody makes a settling
  call (verification callback, retry, cancel, forced cancel, refund of an expired job) for a job id
  whose batch is in flight; that a batch does not fail after a part of it went through; and that no
  more than 2^128 - 1 of the token is minted. Claims, submissions, clean-ups and all other calls are
  free. `Overdraft.dfy` drops the first two: any call at any time, batches that fail half-way, and
  second batches of a job with their transfers, failures and callbacks. `SolventExactly` is the exact
  condition for all these runs; `OverdraftIsReachable` shows that it may fail. The honest token and the
  limit on minting stay assumed. For a verdict, retry or expiry that re-aims a job in flight see
  `Reaiming.dfy`.
- In `Consensus.dfy` the runtime may call back for a yield late, more than once, or without its payload;
  the first resumption of a yield counts. What the callback reads from a text is a parameter.

## Where code and stated intent differ

- On a timeout or a malformed verdict the code means to return the worker's stake. An internal
  worker's deferred credit is overwritten by the settlement that follows, so that stake is kept
  (`StakeWithoutVerdict`). `refund_expired` does the same to a verification that expired
  (`StakeOfExpiredVerification`). `StakeIsKept` lists every call that keeps a stake.
- `resume_verification` is described for a single registered verifier, but can be called with any set
  and takes one signature whatever the threshold (`OneSignerIsEnough`).
- `designate_winner` does not set the worker key, so an internal winner of a competition is paid to
  the relaying account by transfer, not into its wallet.
- Legacy standard `submit_result` and `cleanup_completed` do not move the counters, and a retry that
  gives up always counts from SettlementFailed (`ExactUnlessDeviating` is exact about all three).
- A refund in flight leaves the status unchanged, so a job can be claimed under a running refund
  (`RefundOvertakesWork`), cancelled or refunded a second time (`CancelTwicePaysTwice`), or paid out on a
  verdict that comes after the refund (`LateVerdictNeedsSurplus`).
- A relayed submission that raises is not recorded, so the limiter does not slow its retries
  (`RaisingUsesUp`).
- The token's `storage_deposit` keeps all that is attached for an account already registered.
- A withdrawal has no callback: when its transfer fails the worker's balance is not restored, and the
  tokens stay with the escrow (step `FailPayout`).
- Contents with NUL bytes make directory digests ambiguous (`NulCollides`).

## Model

| member | source | states |
|---|---|---|
| `EscrowTheorems.ExactlyOncePayout` | src/lib.rs:1662-1981 | In every reachable state, after any interleaving of calls, retries and late or repeated callbacks: an internal worker was credited exactly the amount less the fee if the job is Claimed, and nothing otherwise; the deferred payout is pending exactly while the target is Claim |
| `Payroll.ExactlyOncePayroll` | src/lib.rs:1662-1919 | In every run of escrow and token together, for every job of the token, in tokens that reached accounts by the transfers of the job's batches, retries included: if the job ended Claimed the worker with a NEAR account got exactly the amount less the fee and the owner the fee; if it was refunded on a verdict the agent and the owner did; without one the agent got all of it; nobody else got anything, and nothing was paid while no settlement was under way |
| `EscrowParties.VerdictDecides` | src/lib.rs:1536-1652 | From every reachable state, whatever comes back: the job is paid out if and only if the payload passes at the threshold, refunded less the fee if and only if it is a verdict that does not pass, and refunded whole if and only if it is no verdict; the verdict is stored as read; and exactly the transfers due for that are launched, after the stake of an external worker without a verdict |
| `EscrowParties.BatchesPayParties` | src/lib.rs:1716-1779 | Over every call from every reachable state: each new batch comes from a settling call, is for its own job and token, and pays as the target says: the worker with a NEAR account the amount less the fee and then the owner the fee; the owner the fee alone for an internal worker; the agent the amount less the fee and then the owner the fee; or the agent the amount |
| `EscrowPayees.CallSends` | src/lib.rs:1157-2346 | Every successful call on a job launches exactly what its parties are due, in this order: batches, stakes, deposits, excess deposits, yields |
| `EscrowParties.RunLaunches` | src/lib.rs:695-2346 | All that a run ever launched is what its calls owed the parties, call by call |
| `EscrowParties.StakesGoTo` | src/lib.rs:1588-2318 | Over every call: a stake is sent to the agent if a claimed job expired undelivered, to its own submitter when another submission is named the winner, and to the job's worker otherwise |
| `EscrowParties.ForfeitedToAgent` | src/lib.rs:2271-2290 | The refund of an expired job in progress launches the worker's stake to the agent, if one is held, and then the whole amount to the agent |
| `EscrowParties.WinnerIsBound` | src/lib.rs:2037-2088 | Naming a winner binds worker, result and stake of that very submission, and returns each other submission's stake to its own submitter, in order |
| `EscrowParties.WinnerStays` | src/lib.rs:2037-2042 | In every run the bound worker, result and stake are those of the winning submission |
| `EscrowParties.WinnerIsPaid` | src/lib.rs:1753-1760 | So the batch of a competition that is paid out pays the winning submission's worker the amount less the fee |
| `EscrowRules.ChangesHaveCauses` | src/lib.rs:637-2346 | Over every call from every reachable state: a job changes its status, the aim of its settlement or its submissions only by one of the listed causes, each with who may do it and when, and goes away only once it is finished |
| `EscrowRules.GoesAhead` | src/lib.rs:767-2346 | And conversely: a call on an existing job goes ahead if and only if its caller, its signature, its time and the job's status allow it; no settlement gets stuck on a panic |
| `EscrowRules.WorkerHasItsTime` | src/lib.rs:1157-2346 | A worker who claimed a job has it until it expires: in every run before that, whatever anyone calls, only the worker's own submission moves it |
| `EscrowRules.ResultHasItsDay` | src/lib.rs:2180-2306 | A delivered result waits for its verdict: for a day nothing but the yield's callback changes the job in any way |
| `EscrowRules.CompetitionsAreFair` | src/lib.rs:1228-1275 | In every run no account and no key has two submissions to one competition, and there are never more than allowed |
| `EscrowRules.DepositIsTaken` | src/lib.rs:1102-1144 | A deposit is taken if and only if it is the agent's, of the job's token and amount, for a job that waits for it; otherwise all of it is handed back and nothing changes |
| `EscrowRules.TermsAreSound` | src/lib.rs:982-1089 | In every run every job has a fee below its amount, a threshold up to 100, at most a year, and texts within their limits |
| `EscrowRules.CreatedAsAsked` | src/lib.rs:1000-1075 | A job is created with the terms asked for, the signer as agent, and the stated defaults |
| `EscrowRules.CreationGoesAhead` | src/lib.rs:996-1043 | And it is created if and only if nothing speaks against it |
| `EscrowBalances.OnlySignedDebits` | src/lib.rs:312-350 | Over every call from every reachable state: a worker's balance falls only by what an action takes that its own key signed, for this contract and with the nonce that was due; a repeated submission costs nothing |
| `EscrowBalances.SilentWorkerKeepsAll` | src/lib.rs:695-972 | Over every run a worker for whose key no signature verifies loses nothing |
| `EscrowBalances.WorkerIsCredited` | src/lib.rs:1830-1841 | When the job of an internal worker ends, its wallet gets the net amount if it is paid out and the stake that waits for it, short of the largest balance; no other wallet moves |
| `EscrowBalances.DepositArrives` | src/lib.rs:670-690 | A deposit is all the worker's and nobody else's |
| `EscrowBalances.WithdrawTakes` | src/lib.rs:695-735 | A withdrawal takes exactly its amount of its token from its worker alone, and launches exactly that payment |
| `EscrowBalances.WithdrawGoesAhead` | src/lib.rs:695-722 | And it goes ahead if and only if the key is known and not paused, signed for exactly this token, amount and receiver with the nonce that is due, and has that much |
| `EscrowBalances.LinkGoesAhead` | src/lib.rs:739-758 | A worker's account is linked if and only if its key signed for that account |
| `EscrowBalances.RegistrationGoesAhead` | src/lib.rs:637-665 | A key is registered by the owner, once, and not while paused |
| `EscrowBalances.SubmissionRegisters` | src/lib.rs:837-844 | The first submission of an internal worker registers it, without a linked account |
| `EscrowWallet.CreditReachesWallet` | src/lib.rs:1830-1841 | Whenever a call books a credit for a job, its worker holds exactly that much more of the job's token in the contract, short of the largest balance; for a job paid in NEAR exactly that and the stake booked as returned |
| `Solvency.EscrowIsSolvent` | src/lib.rs:1662-1919 | In every run of escrow and token together, each transfer a step of its own: the escrow holds at least what it owes for funded unsettled jobs less what their batches have paid, for batches of removed jobs, worker wallets, withdrawals under way, and deposits not yet taken or still to be given back |
| `Conservation.EscrowBalanceIsExact` | src/lib.rs:695-2346 | In every such run the balance is exactly what is owed, what it began with, and what came on top: gifts, failed withdrawals, transfers to the escrow itself, dues forgotten by clean-ups |
| `Surplus.SolventExactly` | src/lib.rs:695-2346 | Over every run, also with settling calls on jobs in flight, second batches and partial failures: the escrow is solvent if and only if what it began with and the changes of all steps, each read off before its step, are not negative together |
| `Surplus.StepMoves` | src/lib.rs:695-2346 | Each of these steps changes what the escrow has beyond its liabilities by exactly that amount |
| `Conservation.StepGains` | src/lib.rs:695-2346 | Under the two assumptions no step has a negative amount |
| `Reaiming.SolventAfter` | src/lib.rs:695-2346 | From every state such a run reaches, a step leaves the escrow solvent if and only if the surplus covers what it costs |
| `Reaiming.PayingInsideNeedsSurplus` | src/lib.rs:1688-1697 | A settling call that pays inside while a batch is in flight: if and only if the surplus covers what the batch has paid, up to the amount, short of a full wallet |
| `Reaiming.ReaimedCallbackNeedsSurplus` | src/lib.rs:1848-1919 | The callback of a batch whose job was re-aimed: if and only if the surplus covers what batch and deferred payout pay beyond the amount |
| `Reaiming.LeftoverNeedsSurplus` | src/lib.rs:1751-1793 | A remaining transfer of a job that is owed nothing any more: if and only if the surplus covers it |
| `Reaiming.LateVerdictNeedsSurplus` | src/lib.rs:1522-1652 | Refund of an expired verification, refund paid, then a passing verdict after all: solvent in the end if and only if the amount was to spare |
| `EscrowInside.SettlingOutcome` | src/lib.rs:1662-1793 | Every settling call credits an internal worker with the whole amount at once exactly when there is no fee and the settlement aims at it; otherwise it moves no money and owes what it owed |
| `Solvency.BatchIsNeverShort` | src/lib.rs:1662-1793 | Whatever ran in between, each transfer of a settlement batch goes through if and only if the token is not paused and its receiver is registered: it never fails for want of money |
| `Solvency.PayoutIsNeverShort` | src/lib.rs:695-735 | The same for a withdrawal under way |
| `Solvency.FundingIsExact` | tests/integration/ft-mock/src/lib.rs:129-236 | Over all interleavings of transfer-call attempts: an accepted attempt costs its sender exactly the amount, a rejected one exactly nothing, and no job is opened twice |
| `Funding.AcceptedAreOpenings` | tests/integration/ft-mock/src/lib.rs:129-236 | In every run, for every job id: as many attempts were accepted as the token opened jobs by that id |
| `EscrowTheorems.StakesLeaveAtMostOnce` | src/lib.rs:1588-1629 | In every reachable state each stake taken in is paid out, kept or still held, so per job id and in total no more leaves than came in; a deferred stake is the stake on record |
| `EscrowStakes.StakesSentAtMostOnce` | src/lib.rs:1588-2318 | In every run, in NEAR that moved: stakes of a job id sent out and stakes returned to wallets, with what was kept for one of five reasons and what its job still holds, never exceed the deposits and wallet debits that came in as stakes |
| `EscrowBooks.BooksAreReal` | src/lib.rs:767-2318 | For every call and job: the stake booked as taken in is the deposit attached to a claim or new submission, or what the internal worker's wallet loses; the stake booked as kept is that of the five reasons, to the last unit |
| `EscrowBooks.StakeIsKept` | src/lib.rs:1243-2346 | A call leaves stakes of a job in the contract for good if and only if it is: no verdict with an internal worker; a verification refunded by expiry with one; a finished job whose internal worker claimed during a refund; a competitive deposit above the stake; a clean-up of a job still holding stakes |
| `EscrowBooks.RunBooks` | src/lib.rs:767-2346 | Summed over every run: stakes taken in and kept are the sums over its calls |
| `EscrowBooks.SettleBooks` | src/lib.rs:1662-1793 | A settlement neither takes a stake nor keeps one |
| `EscrowStakes.CallIsBooked` | src/lib.rs:801-2318 | Whatever a call sends out as stakes of its job, or credits to internal wallets, is on that job's books, and no other job's stakes move |
| `EscrowStakes.RefundsSent` | src/lib.rs:2046-2054 | The refunds to all but the winner add up to all stakes but the winner's |
| `EscrowTheorems.StakeWithoutVerdict` | src/lib.rs:1579-1633 | Without a verdict an external worker is sent the stake; for an internal worker nothing is sent, no wallet is credited and nothing is on hold: the settlement overwrites the deferred credit, against the stated intent |
| `EscrowTheorems.StakeOfExpiredVerification` | src/lib.rs:2292-2330 | The same when a verification that expired is refunded |
| `EscrowTheorems.JobsOnlyMoveForward` | src/lib.rs:1157-2346 | Over every run a job that is not cleaned up keeps its terms, its worker and its winner once named, never falls in rank, and does not change at all once it is final |
| `EscrowTheorems.ClaimedMeansPassed` | src/lib.rs:1522-1652 | A job ends Claimed only with a stored verdict that passed at or above its threshold |
| `EscrowTheorems.RefundExpiredEnabled` | src/lib.rs:2248-2346 | From every reachable state `refund_expired` on a live job succeeds if and only if the contract is unpaused, the job has expired, and a verification has outlasted the safety time |
| `EscrowTheorems.RecoveryCompletes` | src/lib.rs:2248-2346 | After that a batch that goes through leaves the job Claimed or Refunded |
| `EscrowTheorems.RunKeepsJobs` | src/lib.rs:982-2346 | The job invariant (bindings, target, deferred credits, ledgers) holds through every run |
| `EscrowTheorems.SettleLeavesTarget` | src/lib.rs:1662-1793 | A settlement either keeps its target for the callback or has ended Claimed |
| `EscrowTheorems.RefundLeavesTarget` | src/lib.rs:2248-2346 | So does every refund of an expired funded job |
| `EscrowWallet.NoMessageTwice` | src/lib.rs:707-860 | In every run, over all four kinds of signed action, one text is accepted twice for one key only if both times its nonce was the largest 64-bit value |
| `EscrowWallet.LargestNonceReplays` | src/lib.rs:713-716 | At the saturated nonce an accepted message is accepted again |
| `EscrowWallet.StepKeepsNonces` | src/lib.rs:695-860 | Every call keeps the nonce of each key above all nonces it was accepted with |
| `EscrowWallet.SignedCallAccepts` | src/lib.rs:695-972 | A signed call that succeeds accepts exactly one message, of its kind and current nonce, and moves that one nonce |
| `EscrowWallet.UnsignedCallIsSilent` | src/lib.rs:982-2346 | Every other call accepts no message and moves no nonce |
| `Messages.NonceReadable` | src/lib.rs:707-789 | The nonce can be read back from any signed text, whatever the action |
| `Messages.Unambiguous` | src/lib.rs:707-852 | The four printed formats are jointly one-to-one, even with colons in job ids |
| `Messages.LinkIsApart` | src/lib.rs:745-746 | The one format without the contract's name cannot be confused with the others |
| `EscrowIndex.LookupIsScan` | src/lib.rs:1304-1308 | Without clean-ups the data-id index and a scan over the escrows agree in every run |
| `EscrowIndex.ScanIsFound` | src/lib.rs:953-962 | With clean-ups every job that holds an id is still found, and is the only one with that id |
| `EscrowIndex.CleanupDangles` | src/lib.rs:2097-2126 | A clean-up breaks the agreement if and only if it removes a job that still holds an id |
| `EscrowIndex.RefundOvertakesWork` | src/lib.rs:2135-2165 | Such jobs are reachable: a refund in flight leaves the job Open, so it can be claimed and submitted before the refund lands |
| `EscrowIndex.StepKeepsIndex` | src/lib.rs:1643-2324 | Every call keeps the index covering the scan, and agreeing with it unless it is a clean-up |
| `EscrowStats.CountersAgree` | src/lib.rs:418-441 | In every run without legacy standard submissions, clean-ups and max-retry cancels from another status, each counter equals a recount |
| `EscrowStats.ExactUnlessDeviating` | src/lib.rs:1304-2126 | From exact counters one call leaves them exact if and only if it is none of these three |
| `EscrowStats.TotalNeverBelowCreated` | src/lib.rs:369-379 | Barring 64-bit saturation the total is the number created plus one for each decrement at 0; equality exactly while there was none |
| `EscrowRuns.StepKeepsJobs` | src/lib.rs:637-2346 | Every call and callback keeps the invariant of every job and moves jobs only forward |
| `EscrowRuns.FinishJob` | src/lib.rs:1797-1911 | Finishing credits exactly what was deferred, empties target and stake, and is final |
| `EscrowRuns.SettleKeepsJob` | src/lib.rs:1662-1793 | A settlement of a job that is ready never panics, and keeps its invariant |
| `EscrowRuns.CallbackKeepsJob` | src/lib.rs:1848-1919 | The callback keeps the invariant whatever the results |
| `EscrowRuns.VerificationKeepsJob` | src/lib.rs:1522-1652 | So does the verification callback, whatever the payload |
| `EscrowRuns.RetryKeepsJob` | src/lib.rs:1930-1981 | So does a retry, including the one that gives up |
| `EscrowRuns.CancelKeepsJob` | src/lib.rs:2135-2165 | So does a cancellation |
| `EscrowRuns.ForceCancelKeepsJob` | src/lib.rs:2173-2242 | So does a forced one |
| `EscrowRuns.RefundExpiredKeepsJob` | src/lib.rs:2248-2346 | So does the refund of an expired job, from each status |
| `EscrowRuns.FundingKeepsJob` | src/lib.rs:1102-1144 | Funding opens a job at most once |
| `EscrowRuns.ClaimForKeepsJob` | src/lib.rs:767-817 | A claim by an internal worker books the stake it takes |
| `EscrowRuns.SubmitForKeepsJob` | src/lib.rs:822-972 | A submission books the stake it takes and binds no one |
| `EscrowRuns.DesignateKeepsJob` | src/lib.rs:1991-2088 | Naming a winner refunds all other stakes and keeps the winner's |
| `EscrowRuns.CleanupKeepsJobs` | src/lib.rs:2097-2126 | A clean-up books what removed jobs still held as kept |
| `Solvency.StepStaysSolvent` | src/lib.rs:695-2346 | Every step of the two contracts keeps the solvency invariant |
| `Solvency.PlanPaysOut` | src/lib.rs:1676-1779 | Every settlement plan hands out, with the deferred payout, exactly the job's amount |
| `Solvency.SentGoesThrough` | tests/integration/ft-mock/src/lib.rs:100-125 | With enough money a transfer goes through if and only if the token is not paused and the receiver is registered |
| `Solvency.RefundIsPaid` | tests/integration/ft-mock/src/lib.rs:221-233 | The escrow can always afford the refund of a rejected deposit, and the sender gets all of it |
| `Solvency.SupplyIsBacked` | tests/integration/ft-mock/src/lib.rs:52-236 | Through every run of both contracts the supply stays the sum of all balances |
| `Overdraft.CancelTwicePaysTwice` | src/lib.rs:2151-2161 | A job whose refund is in flight can be cancelled again: two batches over the whole amount |
| `Overdraft.TwoRefundsNeedSurplus` | src/lib.rs:2135-2165 | From every reachable world, after both cancellations and both refunds the escrow is solvent if and only if it had the job's amount to spare |
| `Overdraft.OverdraftIsReachable` | src/lib.rs:2135-2165 | A world is reachable from which this leaves the escrow owing more than it has |
| `Overdraft.ExtraNeedsSurplus` | src/lib.rs:1662-1793 | A transfer of a job's second batch keeps the escrow solvent if and only if its surplus over all liabilities covers it |
| `Overdraft.PartialFailureNeedsSurplus` | src/lib.rs:1848-1919 | A batch that fails after a part was paid keeps it solvent if and only if the surplus covers that part |
| `Overdraft.RetrySendsEverything` | src/lib.rs:1716-1761 | After any failed result a retry sends the whole plan again |
| `EscrowTraffic.SettleTraffic` | src/lib.rs:1662-1793 | A settlement launches one batch, its plan, and touches no wallet, or transfers nothing and pays inside |
| `EscrowTraffic.SettlingOwes` | src/lib.rs:1662-1793 | Either way the debt in a token does not grow |
| `EscrowTraffic.HarmlessKeepsAim` | src/lib.rs:767-2088 | Claims, submissions, funding and naming a winner leave target, terms and deferred payout of a job alone, so a batch in flight stands for the same |
| `EscrowTraffic.FinishedTraffic` | src/lib.rs:1797-1841 | Finishing launches no token transfer; the wallets get the deferred credits and the ledger the same |
| `EscrowTraffic.FundingTraffic` | src/lib.rs:1102-1144 | Accepted money becomes debt, rejected money is handed back whole |
| `EscrowTraffic.WithdrawTraffic` | src/lib.rs:695-735 | A withdrawal launches exactly what it takes from the wallet |
| `EscrowTraffic.WalletWrite` | src/lib.rs:308-350 | A write to one worker's balance changes the sum over all workers in that token alone |
| `EscrowTraffic.RefundExpiredTraffic` | src/lib.rs:2248-2346 | The refund of an expired job launches at most its own plan |
| `EscrowTraffic.StepKeepsKeys` | src/lib.rs:312-325 | Only keys of 64 characters ever get into wallets and jobs |
| `EscrowContract.Contract.SettleEscrow` | src/lib.rs:1662-1793 | `_settle_escrow`: the whole new state, or no change if it panics |
| `EscrowContract.Contract.Finalize` | src/lib.rs:1797-1911 | The success branch of both callbacks: credits, status, counters, deposits, all fields |
| `EscrowContract.Contract.SettleCallback` | src/lib.rs:1848-1919 | `settle_callback`: final with all results good, SettlementFailed otherwise, whole new state |
| `EscrowContract.Contract.ApplyPendingCredits` | src/lib.rs:1830-1841 | `_apply_pending_credits`: both deferred credits, and none left |
| `EscrowContract.Contract.RetrySettlement` | src/lib.rs:1930-1981 | `retry_settlement`: who, when, how often; the new state of both branches |
| `EscrowContract.Contract.VerificationCallback` | src/lib.rs:1522-1652 | `verification_callback`: verdict, target, stake, index and settlement, whole new state |
| `EscrowContract.Contract.JudgeEscrow` | src/lib.rs:1536-1648 | Its reading of the payload, before settlement |
| `EscrowContract.Contract.ResumeVerificationMulti` | src/lib.rs:1326-1388 | Resumes if and only if the text is a verdict, the id spells 32 bytes of a job not yet judged, and the number of distinct active signers of this id and verdict, modulo 256, reaches the threshold; then that many signed |
| `EscrowContract.Contract.ResumeVerification` | src/lib.rs:1399-1458 | Resumes if and only if one active verifier signed, whatever the threshold |
| `EscrowContract.Contract.AddVerifier` | src/lib.rs:494-510 | `add_verifier`: owner, key length, no repeated account |
| `EscrowContract.Contract.DeactivateVerifier` | src/lib.rs:513-521 | `deactivate_verifier`: the entry stays in place |
| `EscrowContract.Contract.SetConsensusThreshold` | src/lib.rs:524-533 | `set_consensus_threshold`: between 1 and the active verifiers |
| `Consensus.ClaimedMeansSigned` | src/lib.rs:1326-1652 | In every run of contract, verifiers and runtime: a Claimed job rests on a resumption of a yield issued for it whose text reads as passing and which distinct active verifiers of that moment signed for that id and text, threshold-many if and only if it came through the consensus entry or the threshold was 1 |
| `Consensus.OneSignerIsEnough` | src/lib.rs:1399-1458 | From every reachable state one active verifier's signature makes a verifying job payable, whatever the threshold |
| `Consensus.CallKeepsVerdicts` | src/lib.rs:637-2346 | No call but the yield callback changes a verdict |
| `Consensus.StepKeepsGround` | src/lib.rs:494-1652 | Every step keeps each verdict backed by such a resumption |
| `EscrowContract.Contract.CancelEscrow` | src/lib.rs:2135-2165 | `cancel`, whole new state |
| `EscrowContract.Contract.ForceCancelVerifying` | src/lib.rs:2173-2242 | `force_cancel_verifying`, whole new state |
| `EscrowContract.Contract.RefundExpired` | src/lib.rs:2248-2346 | `refund_expired`, whole new state for each status |
| `EscrowContract.Contract.ClaimJob` | src/lib.rs:1157-1186 | `claim`, whole new state |
| `EscrowContract.Contract.ClaimJobFor` | src/lib.rs:767-817 | `claim_for`, whole new state, or all of it reverted |
| `EscrowContract.Contract.SubmitResult` | src/lib.rs:1199-1317 | `submit_result` in both modes, whole new state |
| `EscrowContract.Contract.SubmitResultFor` | src/lib.rs:822-972 | `submit_result_for` in both modes, whole new state, or all of it reverted |
| `EscrowContract.Contract.DesignateWinner` | src/lib.rs:1991-2088 | `designate_winner`, whole new state |
| `EscrowContract.Contract.RefundLosers` | src/lib.rs:2046-2054 | The loop pays every submission but the winner's its stake |
| `EscrowContract.Contract.CreateEscrow` | src/lib.rs:982-1089 | `create_escrow`, all checks and the new escrow |
| `EscrowContract.Contract.FtOnTransfer` | src/lib.rs:1102-1144 | `ft_on_transfer`: the amount handed back and the new state |
| `EscrowContract.Contract.Withdraw` | src/lib.rs:695-735 | `withdraw`, whole new state, or all of it reverted |
| `EscrowContract.Contract.LinkNearAccount` | src/lib.rs:739-758 | `link_near_account`, whole new state |
| `EscrowContract.Contract.Authorize` | src/lib.rs:312-325 | Signature check over the printed action, then the nonce moves on |
| `EscrowContract.Contract.RegisterWorker` | src/lib.rs:637-665 | `register_worker`, whole new state |
| `EscrowContract.Contract.DepositToWorker` | src/lib.rs:670-690 | `deposit_to_worker`, whole new state |
| `EscrowContract.Contract.CleanupCompleted` | src/lib.rs:2097-2126 | `cleanup_completed` removes finished escrows only, as many as it says, and all of them if it stopped early |
| `EscrowContract.Contract.TransitionStats` | src/lib.rs:418-441 | `transition_stats`: one counter down, one up, both saturating |
| `EscrowContract.Contract.CreditBalance` | src/lib.rs:328-337 | `credit_balance`: saturating |
| `EscrowContract.Contract.DebitBalance` | src/lib.rs:340-350 | `debit_balance`: refused, or exact |
| `Hex.DecodeSafe` | src/lib.rs:291-303 | The decoding loop computes the decoder, None on the first bad pair or odd length |
| `Hex.DecodeEncode` | src/lib.rs:278-303 | Decoding an encoding gives the bytes back |
| `Hex.EncodeInjective` | src/lib.rs:278-280 | Different bytes have different texts |
| `Hex.EncodeDecode` | src/lib.rs:282-303 | A decodable text is the encoding of what it decodes to if and only if it is written in lower-case digits |
| `Signatures.CountValidSignatures` | src/lib.rs:1462-1510 | The loop returns, modulo 256, the number of active verifiers whose first listed signature verifies |
| `Signatures.ThresholdMeansDistinctSigners` | src/lib.rs:1344-1353 | With at most 255 verifiers, reaching the threshold is having that many distinct active signers |
| `Signatures.UnanimousCountsAsNone` | src/lib.rs:1462-1510 | With 256 verifiers a unanimous vote counts as none |
| `Signatures.ScopedInjective` | src/lib.rs:1326-1388 | A scoped message determines data id and verdict |
| `Token.SupplyIsSumOfBalances` | tests/integration/ft-mock/src/lib.rs:52-236 | In every run the supply is the sum of balances modulo 2^128, equal to it if and only if the sum fits, and to what was minted as long as that fits |
| `Token.MovedKeepsSum` | tests/integration/ft-mock/src/lib.rs:109-122 | A transfer keeps the sum of all balances, also onto itself |
| `Token.CallsGoByTheBook` | tests/integration/ft-mock/src/lib.rs:52-236 | Every call is refused exactly when it should be, and otherwise moves the balances of its own two accounts by its amount, and of nobody else |
| `Token.FtMock.Mint` | tests/integration/ft-mock/src/lib.rs:52-62 | `mint`, whole new state |
| `Token.FtMock.StorageDeposit` | tests/integration/ft-mock/src/lib.rs:66-84 | `storage_deposit` registers an account once; the excess goes back to the signer, but nothing does if the account was registered |
| `Token.FtMock.Transfer` | tests/integration/ft-mock/src/lib.rs:100-159 | The debit and credit of `ft_transfer` and `ft_transfer_call`, or none of it |
| `Token.FtMock.ResolveTransfer` | tests/integration/ft-mock/src/lib.rs:200-236 | `ft_resolve_transfer`: what is unused, capped, and paid back only if the receiver has it |
| `Msig.SpendingBound` | agent-msig/src/lib.rs:196-525 | Under a constant limit below the largest value, the money in the promises launched within any 7200 consecutive blocks is at most twice the limit, in the current window at most the limit |
| `Msig.LimitDecides` | agent-msig/src/lib.rs:483-525 | A signed action that names an amount is accepted if and only if the amount is within the cap and fits into what is left of the window; then exactly that amount is launched and counted |
| `Msig.CapHolds` | agent-msig/src/lib.rs:498-505 | Under a constant cap no accepted action ever sends more than the cap |
| `Msig.SentAsSigned` | agent-msig/src/lib.rs:196-334 | In every run all that the account launches is what accepted messages ask for, one by one, receiver and amount included, each signed with the key then in force |
| `Msig.KeyMoves` | agent-msig/src/lib.rs:449-459 | The key changes only by a rotation signed with the old one or made by the owner, and then to the one key its text spells |
| `Msig.OnlyOwnerConfigures` | agent-msig/src/lib.rs:463-475 | Limits and whitelist are the owner's alone to set; the owner and the escrow contract never change |
| `Msig.BoundIsAttained` | agent-msig/src/lib.rs:497-525 | Twice the limit is reached, in two blocks |
| `Msig.LargestLimitIsNone` | agent-msig/src/lib.rs:515-523 | At the largest limit the sum saturates: any number of largest payments passes in one block |
| `Msig.NoncesAreConsecutive` | agent-msig/src/lib.rs:218-228 | Accepted nonces follow each other one by one, modulo 2^64 |
| `Msig.NoReplay` | agent-msig/src/lib.rs:196-228 | A message is accepted again only after a full circle of the nonce |
| `Msig.RotationNeedsQuiet` | agent-msig/src/lib.rs:449-459 | The owner replaces the key only after 7200 blocks without any accepted action |
| `Msig.ExecuteSpends` | agent-msig/src/lib.rs:226-233 | What an accepted action launches is what it adds to the window |
| `Msig.AgentMsig.Execute` | agent-msig/src/lib.rs:196-334 | `execute`, whole new state, or all of it reverted |
| `Msig.AgentMsig.EnforceSpendingLimit` | agent-msig/src/lib.rs:497-525 | `_enforce_spending_limit`: accepted or not, and the new window |
| `Msig.AgentMsig.ForceRotate` | agent-msig/src/lib.rs:449-459 | `force_rotate`, whole new state |
| `Msig.AgentMsig.SetSpendingLimits` | agent-msig/src/lib.rs:471-475 | `set_spending_limits`, whole new state |
| `Msig.AgentMsig.SetAllowedTokens` | agent-msig/src/lib.rs:463-466 | `set_allowed_tokens`, whole new state |
| `Base58.Bs58Encode` | verifier-service/src/submitter.rs:209-240 | The in-place algorithm ends and computes the encoding |
| `Base58.DivideInPlace` | verifier-service/src/submitter.rs:224-229 | One round divides the number in the buffer by 58 in place and leaves the remainder; every quotient fits a byte |
| `Base58.PushDigits` | verifier-service/src/submitter.rs:222-231 | The rounds find all base-58 digits, last one first |
| `Base58.DecodeEncode` | verifier-service/src/submitter.rs:209-240 | A standard decoder gives the input back |
| `Base58.EncodeDecode` | verifier-service/src/submitter.rs:209-240 | Every text in the alphabet is the encoding of what it decodes to |
| `Base58.LeadingOnes` | verifier-service/src/submitter.rs:215-236 | Leading 1s stand for leading zero bytes one for one, with no further leading 1 |
| `Relayer.NostrRelayer.RetryPass` | nostr/relayer.py:371-420 | Every item of the old queue gained an outcome of this pass or was set aside; every item left was refused by the limiter at a time of the pass; the limiter's history grows by exactly the submissions that came back with a result; when every call raises, requests whose account is allowed at the start use up all their attempts; finished requests are left alone and nothing is lost or doubled |
| `Relayer.PassMakesProgress` | nostr/relayer.py:381-420 | The walk over the growing list keeps all that, turn by turn, to its end |
| `Relayer.RaisingUsesUp` | nostr/relayer.py:389-418 | When every call raises nothing is recorded, and a request whose account the limiter allows at the start uses up all its attempts in one pass |
| `Relayer.NostrRelayer.RetryOne` | nostr/relayer.py:381-418 | One turn: a refused item is set aside, any other submitted, recorded unless the call raised, and appended if it may be tried again; the books are kept and the attempts left fall |
| `Relayer.NothingIsLost` | nostr/relayer.py:348-420 | In every valid state of a relayer each request ever queued is queued exactly once or has exactly one fate, and was submitted from the queue at most max_retries times, the last time only with a result that ends it |
| `Relayer.NostrRelayer.EnqueueRetry` | nostr/relayer.py:348-369 | `_enqueue_retry` appends, unless attempts are used up |
| `Relayer.NostrRelayer.SubmitOrQueue` | nostr/relayer.py:500-536 | A new action is submitted or queued, once |
| `Relayer.NostrRelayer.CheckRateLimit` | nostr/relayer.py:187-214 | The check on the pruned list decides as the full history would |
| `Relayer.NostrRelayer.RecordRateLimit` | nostr/relayer.py:216-220 | Recording extends the history by this submission |
| `Relayer.AnyHourIsBounded` | nostr/relayer.py:187-220 | Submissions of one account are at least the gap apart, and no half-open hour holds more than the maximum |
| `Relayer.AllowedExactly` | nostr/relayer.py:187-214 | The limiter says yes if and only if the gap has passed and fewer than the maximum of submissions are less than an hour old |
| `Relayer.PacedAppend` | nostr/relayer.py:187-220 | One more submission after a check that said yes keeps both |
| `DirectoryHash.HashDirectory` | verifier-service/src/radicle.rs:181-199 | The digest is that of the one canonical listing, whatever order the walk took |
| `DirectoryHash.CollectFiles` | verifier-service/src/radicle.rs:202-220 | The recursive walk pushes every file below exactly once |
| `DirectoryHash.Feed` | verifier-service/src/radicle.rs:187-195 | The loop feeds the serialized listing |
| `DirectoryHash.ListingIsCanonical` | verifier-service/src/radicle.rs:178-195 | Trees with the same files give the same byte stream |
| `DirectoryHash.ParseSerialize` | verifier-service/src/radicle.rs:187-195 | Splitting the stream at NUL bytes recovers the listing if and only if nothing in it has one |
| `DirectoryHash.EqualStreamsEqualTrees` | verifier-service/src/radicle.rs:187-195 | So equal streams mean equal trees when no file holds a NUL byte |
| `DirectoryHash.NulCollides` | verifier-service/src/radicle.rs:189-194 | Any two files can be passed off as one with NUL bytes in it: two valid directories with different files and the same stream |
| `DirectoryHash.BeforeIsFirstDifference` | verifier-service/src/radicle.rs:184 | Paths are ordered by the first byte that differs, a prefix before what extends it |
| `DirectoryHash.JoinedInjective` | verifier-service/src/radicle.rs:211-216 | A relative path names one file |
| `Scorer.Score` | verifier/scorer.py:50-85 | Passed if and only if at least n - n/2 passes reach the threshold, failed passes counting 0; the score is a real pass's, within 0 to 100, the reasoning the first such pass's; no passes is an error |
| `Scorer.MedianIsMajority` | verifier/scorer.py:61-66 | The median reaches a bound exactly when a majority does |
| `Scorer.BestPass` | verifier/scorer.py:69-72 | The first pass nearest to the median |
| `Scorer.Clamp` | verifier/scorer.py:101-102 | Scores are clamped to 0 to 100 |

## Left out

- Ed25519, SHA-256 and JSON parsing themselves: parameters of the model.
- Gas, receipts and storage staking of the runtime; a panic reverts the call, and nothing else of them matters here.
- Conservation of the 1 NEAR storage deposit: the refund uses the current setting and is issued on several paths.
- Bounds on retries after Cancelled: the counter wraps, and `refund_expired` does not look at it.
- Ownership transfer, views, debug methods, events and migration.
- The promise results of the multisig's own calls: its callback only logs.
- `ft_transfer_call` to receivers other than the escrow, except for the refunds that may follow.
- Hex.DecodeSafe: does not model the panic on text beyond ASCII, because the model's text is characters where the source slices bytes.
- Signatures.CountValidSignatures: skips a stored key with characters beyond ASCII, where the source can panic, for the same reason.
- Time limits of yields in the runtime: a yield may call back at any time, so a yield of a removed job may judge a new one by its id.
- Signed text is characters, file names are bytes, non-empty and without slash or NUL as file systems have them; names that are not valid UTF-8, which the digest prints lossily, and symbolic links are not modelled.
- Read errors while hashing a directory: the tree does not change under the walk.
- Rounding of the relayer's floating-point clock: times are real numbers that never go back.
- The relayer's network, event and process code, and the single `await` that publishes a funded event.
- Scoring prompts and the model call; a pass is a number or an exception.
- Fields of the multisig's create action that are only passed on to the escrow.
- The attached deposits of the multisig's calls (1 NEAR for a new job or a registration), which its limits do not count.
- The older multisig copy in `minimal-test`.

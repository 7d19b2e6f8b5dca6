/** What each call does to the storage, as a function of the state before it. `None` is a panic:
    the runtime discards the call and the state stays as it was. */
module EscrowSpec {
  import opened Basics
  import opened EscrowState
  import Hex
  import Messages

  // ---- wallet ----

  function BalanceKey(pk: Pubkey, token: string): string {
    pk + ":" + token
  }

  function BalanceOf(balances: map<string, nat>, pk: Pubkey, token: string): nat {
    var key := BalanceKey(pk, token);
    if key in balances then balances[key] else 0
  }

  function Credit(balances: map<string, nat>, pk: Pubkey, token: string, amount: nat): map<string, nat> {
    balances[BalanceKey(pk, token) := SatAdd(BalanceOf(balances, pk, token), amount, U128_MAX)]
  }

  function Debit(balances: map<string, nat>, pk: Pubkey, token: string, amount: nat): Option<map<string, nat>> {
    var current := BalanceOf(balances, pk, token);
    if current < amount then None else Some(balances[BalanceKey(pk, token) := current - amount])
  }

  function SignatureOk(env: Env, pk: Pubkey, message: string, sig: seq<Byte>): bool {
    var key := Hex.Decode(pk);
    key.Some? && |key.value| == 32 && |sig| == 64 && env.ed25519(key.value, message, sig)
  }

  /** A registered worker's signed action: the nonce moves on and the message is on record. */
  function Authorized(s: State, env: Env, pk: Pubkey, a: Messages.Action, sig: seq<Byte>): Option<State> {
    if pk !in s.workers then None
    else
      var w := s.workers[pk];
      var message := Messages.Message(s.cfg.self, a, w.nonce);
      if !SignatureOk(env, pk, message, sig) then None
      else
        var w' := w.(nonce := SatAdd(w.nonce, 1, U64_MAX));
        Some(s.(workers := s.workers[pk := w'], accepted := s.accepted + [Accepted(pk, message, w.nonce)]))
  }

  function AfterRegisterWorker(s: State, env: Env, pk: Pubkey): Option<State> {
    if env.predecessor != s.cfg.owner || |pk| != 64 || pk in s.workers || pk in s.pausedWorkers then None
    else Some(s.(workers := s.workers[pk := Worker(None, 0)]))
  }

  function AfterDepositToWorker(s: State, env: Env, pk: Pubkey): Option<State> {
    if env.deposit == 0 || pk !in s.workers || pk in s.pausedWorkers then None
    else Some(s.(balances := Credit(s.balances, pk, NEAR_TOKEN_ID, env.deposit)))
  }

  /** The debit of a withdrawal and the transfer it launches. */
  function Paid(s: State, pk: Pubkey, token: string, amount: nat, to: AccountId): Option<State> {
    var left := Debit(s.balances, pk, token, amount);
    if left.None? || !Messages.ValidAccountId(token) then None
    else Some(s.(balances := left.value)
               .Send(if token == NEAR_TOKEN_ID then Near(to, amount, Wallet) else Ft(token, Transfer(to, amount))))
  }

  function AfterWithdraw(s: State, env: Env, pk: Pubkey, token: string, amount: nat, to: AccountId,
      sig: seq<Byte>): Option<State>
  {
    if pk in s.pausedWorkers then None
    else
      var signed := Authorized(s, env, pk, Messages.Withdrawal(token, amount, to), sig);
      if signed.None? then None else Paid(signed.value, pk, token, amount, to)
  }

  function AfterLinkNearAccount(s: State, env: Env, pk: Pubkey, account: AccountId, sig: seq<Byte>): Option<State> {
    var signed := Authorized(s, env, pk, Messages.Link(account), sig);
    if signed.None? then None
    else Some(signed.value.(workers := signed.value.workers[pk := signed.value.workers[pk].(account := Some(account))]))
  }

  // ---- creation and funding ----

  datatype CreateArgs = CreateArgs(
    job: JobId, amount: nat, token: AccountId, timeoutHours: nat, taskDescription: string, criteria: string,
    fee: Option<nat>, scoreThreshold: Option<nat>, maxSubmissions: Option<nat>, deadlineBlock: Option<nat>)

  function TokenAllowed(cfg: Config, token: AccountId): bool {
    cfg.allowedTokens == [] || token in cfg.allowedTokens
  }

  predicate Creatable(s: State, env: Env, a: CreateArgs) {
    && !s.cfg.paused
    && 0 < |a.job| <= MAX_JOB_ID_LEN
    && TokenAllowed(s.cfg, a.token)
    && a.amount > 0
    && a.timeoutHours <= 8760
    && a.job !in s.escrows
    && GetOr(a.fee, 0) < a.amount
    && GetOr(a.scoreThreshold, 0) <= 100
    && |a.taskDescription| <= MAX_TASK_DESCRIPTION_LEN
    && 0 < |a.criteria| <= MAX_CRITERIA_LEN
    && env.deposit >= s.cfg.storageDeposit
  }

  function NewEscrow(env: Env, a: CreateArgs): Escrow {
    Escrow(
      Terms(env.signer, a.amount, a.token, env.nowMs, a.timeoutHours * 3_600_000, a.taskDescription, a.criteria,
            GetOr(a.fee, 0), GetOr(a.scoreThreshold, 80),
            if a.maxSubmissions.Some? then Competitive else Standard, a.maxSubmissions, a.deadlineBlock),
      PendingFunding, None, None, None, None, None, None, false, None, None, None, None, 0, [], None)
  }

  function AfterCreate(s: State, env: Env, a: CreateArgs): Option<State> {
    if !Creatable(s, env, a) then None
    else
      var st := s.stats.(totalCreated := s.stats.totalCreated + 1, pendingFunding := s.stats.pendingFunding + 1);
      Some(s.Put(a.job, NewEscrow(env, a)).(stats := st))
  }

  predicate Fundable(s: State, token: AccountId, sender: AccountId, amount: nat, j: JobId) {
    && TokenAllowed(s.cfg, token)
    && j in s.escrows
    && var e := s.escrows[j];
      sender == e.terms.agent && token == e.terms.token && amount == e.terms.amount && e.status == PendingFunding
  }

  /** Never panics; the second result is the amount handed back to the token contract. */
  function AfterFtOnTransfer(s: State, env: Env, sender: AccountId, amount: nat, j: JobId): (State, nat) {
    if !Fundable(s, env.predecessor, sender, amount, j) then (s, amount)
    else
      var l := s.LedgerOf(j);
      (s.Put(j, s.escrows[j].(status := Open)).Moved(PendingFunding, Open).Book(j, l.(openings := l.openings + 1)), 0)
  }

  // ---- claiming and submitting ----

  /** A worker is bound to the job, with a stake. */
  function Bound(s: State, j: JobId, worker: AccountId, pk: Option<Pubkey>, stake: nat): State
    requires j in s.escrows
  {
    var e, l := s.escrows[j], s.LedgerOf(j);
    s.Put(j, e.(workerPubkey := pk, worker := Some(worker), workerStake := Some(stake), status := InProgress))
     .Moved(Open, InProgress).Book(j, l.(stakeIn := l.stakeIn + stake))
  }

  function AfterClaim(s: State, env: Env, j: JobId): Option<State> {
    if s.cfg.paused || j !in s.escrows then None
    else
      var e := s.escrows[j];
      if e.status != Open || e.worker.Some? || env.signer == e.terms.agent || env.deposit < s.cfg.workerStake then None
      else Some(Bound(s, j, env.signer, e.workerPubkey, env.deposit))
  }

  /** An internal worker takes the job; the stake comes out of its wallet. */
  function ClaimedFor(t: State, env: Env, j: JobId, pk: Pubkey): Option<State>
    requires j in t.escrows
  {
    var e := t.escrows[j];
    var left := Debit(t.balances, pk, NEAR_TOKEN_ID, t.cfg.workerStake);
    if e.status != Open || e.worker.Some? || e.workerPubkey.Some? || pk == e.terms.agent || left.None? then None
    else Some(Bound(t.(balances := left.value), j, env.signer, Some(pk), t.cfg.workerStake))
  }

  function AfterClaimFor(s: State, env: Env, j: JobId, pk: Pubkey, sig: seq<Byte>): Option<State> {
    if s.cfg.paused || pk in s.pausedWorkers || j !in s.escrows then None
    else
      var signed := Authorized(s, env, pk, Messages.ClaimJob(j), sig);
      if signed.None? then None else ClaimedFor(signed.value, env, j, pk)
  }

  /** A new yield: the runtime only hands out ids it never used. */
  function Yielded(s: State, env: Env, j: JobId): State {
    s.Send(Yield(env.yieldId, j)).(issued := s.issued + {env.yieldId}, index := s.index[Hex.Encode(env.yieldId) := j])
  }

  function Submitted(e: Escrow, env: Env, result: string): Escrow {
    e.(result := Some(result), dataId := Some(env.yieldId), status := Verifying, verifyingSince := Some(env.nowMs))
  }

  predicate SubmissionOpen(e: Escrow, env: Env, result: string) {
    && e.status == Open
    && |result| <= MAX_COMPETITIVE_RESULT_LEN
    && (e.terms.deadlineBlock.Some? ==> env.height <= e.terms.deadlineBlock.value)
  }

  /** One more competitive submission, with `paid` taken in and `stake` on record. */
  function WithSubmission(s: State, j: JobId, sub: Submission, paid: nat): State
    requires j in s.escrows
  {
    var e := s.escrows[j];
    var l := s.LedgerOf(j);
    s.Put(j, e.(submissions := e.submissions + [sub]))
     .Book(j, l.(stakeIn := l.stakeIn + paid, retained := l.retained + SatSub(paid, sub.stake)))
  }

  predicate SubmittedBy(subs: seq<Submission>, worker: AccountId) {
    exists k :: 0 <= k < |subs| && subs[k].worker == worker
  }

  predicate SubmittedWith(subs: seq<Submission>, pk: Pubkey) {
    exists k :: 0 <= k < |subs| && subs[k].pubkey == Some(pk)
  }

  /** A submission by a NEAR account to a competition; the attached deposit is its stake. */
  function CompetitiveResult(s: State, env: Env, j: JobId, result: string): Option<State>
    requires j in s.escrows
  {
    var e := s.escrows[j];
    if !SubmissionOpen(e, env, result) || env.deposit < s.cfg.workerStake then None
    else if SubmittedBy(e.submissions, env.signer) then
      Some(if env.deposit > 0 then s.Send(Near(env.signer, env.deposit, Excess)) else s)
    else if |e.submissions| >= GetOr(e.terms.maxSubmissions, U32_MAX) then None
    else Some(WithSubmission(s, j, Submission(env.signer, result, s.cfg.workerStake, None), env.deposit))
  }

  /** The claimed worker's result; the counters are not moved here. */
  function StandardResult(s: State, env: Env, j: JobId, result: string): Option<State>
    requires j in s.escrows
  {
    var e := s.escrows[j];
    if e.status == Verifying && e.worker == Some(env.signer) && e.dataId.Some? then Some(s)
    else if e.status != InProgress || e.worker != Some(env.signer) || env.yieldId in s.issued then None
    else Some(Yielded(s.Put(j, Submitted(e, env, result)), env, j))
  }

  function AfterSubmitResult(s: State, env: Env, j: JobId, result: string): Option<State> {
    if s.cfg.paused || j !in s.escrows || !(0 < |result| <= MAX_RESULT_LEN) then None
    else if s.escrows[j].terms.mode == Competitive then CompetitiveResult(s, env, j, result)
    else StandardResult(s, env, j, result)
  }

  /** A worker's first submission registers it. */
  function Known(s: State, pk: Pubkey): State {
    if pk in s.workers then s else s.(workers := s.workers[pk := Worker(None, 0)])
  }

  /** A submission by an internal worker to a competition; its stake comes from its wallet. */
  function CompetitiveResultFor(t: State, env: Env, j: JobId, result: string, pk: Pubkey): Option<State>
    requires j in t.escrows
  {
    var e := t.escrows[j];
    var left := Debit(t.balances, pk, NEAR_TOKEN_ID, t.cfg.workerStake);
    if !SubmissionOpen(e, env, result) || left.None? then None
    else if SubmittedWith(e.submissions, pk) then
      Some(t.(balances := Credit(left.value, pk, NEAR_TOKEN_ID, t.cfg.workerStake)))
    else if |e.submissions| >= GetOr(e.terms.maxSubmissions, U32_MAX) then None
    else
      var sub := Submission(env.signer, result, t.cfg.workerStake, Some(pk));
      Some(WithSubmission(t.(balances := left.value), j, sub, t.cfg.workerStake))
  }

  function StandardResultFor(t: State, env: Env, j: JobId, result: string, pk: Pubkey): Option<State>
    requires j in t.escrows
  {
    var e := t.escrows[j];
    if e.status == Verifying && e.workerPubkey == Some(pk) && e.dataId.Some? then Some(t)
    else if e.status != InProgress || e.workerPubkey != Some(pk) || env.yieldId in t.issued then None
    else Some(Yielded(t.Put(j, Submitted(e, env, result)).Moved(InProgress, Verifying), env, j))
  }

  function ResultFor(t: State, env: Env, j: JobId, result: string, pk: Pubkey): Option<State>
    requires j in t.escrows
  {
    if t.escrows[j].terms.mode == Competitive then CompetitiveResultFor(t, env, j, result, pk)
    else StandardResultFor(t, env, j, result, pk)
  }

  function AfterSubmitResultFor(s: State, env: Env, j: JobId, result: string, pk: Pubkey, sig: seq<Byte>): Option<State>
  {
    if s.cfg.paused || !(0 < |result| <= MAX_RESULT_LEN) || pk in s.pausedWorkers || j !in s.escrows then None
    else
      var signed := Authorized(Known(s, pk), env, pk, Messages.SubmitJob(j), sig);
      if signed.None? then None else ResultFor(signed.value, env, j, result, pk)
  }

  /** Every submission but the winner's gets its stake back. */
  function Refunds(j: JobId, subs: seq<Submission>, winner: nat): seq<Promise> {
    if subs == [] then []
    else
      var i := |subs| - 1;
      Refunds(j, subs[..i], winner) + if i == winner then [] else [Near(subs[i].worker, subs[i].stake, StakeOf(j))]
  }

  function Designated(e: Escrow, env: Env, idx: nat): Escrow
    requires idx < |e.submissions|
  {
    var sub := e.submissions[idx];
    Submitted(e, env, sub.result).(worker := Some(sub.worker), winner := Some(idx), workerStake := Some(sub.stake))
  }

  function WinnerBound(s: State, env: Env, j: JobId, idx: nat): State
    requires j in s.escrows && idx < |s.escrows[j].submissions|
  {
    var e, l := s.escrows[j], s.LedgerOf(j);
    s.Put(j, Designated(e, env, idx)).Moved(Open, Verifying)
     .Book(j, l.(stakeOut := l.stakeOut + SatSub(StakeSum(e.submissions), e.submissions[idx].stake)))
  }

  function WinnerNamed(s: State, env: Env, j: JobId, idx: nat): State
    requires j in s.escrows && idx < |s.escrows[j].submissions|
  {
    WinnerBound(s.(outbox := s.outbox + Refunds(j, s.escrows[j].submissions, idx)), env, j, idx)
  }

  function AfterDesignateWinner(s: State, env: Env, j: JobId, idx: nat): Option<State> {
    if j !in s.escrows || s.escrows[j].terms.mode != Competitive then None
    else
      var e := s.escrows[j];
      if e.status == Verifying && e.winner == Some(idx) && e.dataId.Some? then Some(s)
      else if e.status != Open || (env.predecessor != e.terms.agent && env.predecessor != s.cfg.owner) then None
      else if env.nowMs > e.terms.createdAt + e.terms.timeoutMs then None
      else if e.terms.deadlineBlock.Some? && env.height > e.terms.deadlineBlock.value then None
      else if idx >= |e.submissions| || env.yieldId in s.issued then None
      else Some(Yielded(WinnerNamed(s, env, j, idx), env, j))
  }

  // ---- settlement ----

  /** The token transfers a settlement launches: together with the internal payout they hand out
      the escrow's amount. `None` when the code would panic. */
  function Plan(e: Escrow, owner: AccountId): Option<seq<Transfer>> {
    if e.target.None? then None
    else
      var net := SatSub(e.terms.amount, e.terms.fee);
      var feePart := if e.terms.fee > 0 then [Transfer(owner, e.terms.fee)] else [];
      match e.target.value
      case Claim =>
        if net == 0 then None
        else if e.workerPubkey.Some? then Some(feePart)
        else if e.worker.None? then None
        else Some([Transfer(e.worker.value, net)] + feePart)
      case Refund => if net == 0 then None else Some([Transfer(e.terms.agent, net)] + feePart)
      case FullRefund => if e.terms.amount == 0 then None else Some([Transfer(e.terms.agent, e.terms.amount)])
  }

  /** Credits owed to an internal wallet wait in the escrow until the transfers are through. */
  function Deferred(e: Escrow): Escrow {
    if e.workerPubkey.None? then e
    else e.(pendingPayout := if e.target == Some(Claim) then Some(SatSub(e.terms.amount, e.terms.fee)) else None,
            pendingStake := e.workerStake)
  }

  function AfterSettle(s: State, j: JobId): Option<State> {
    if j !in s.escrows then None
    else
      var plan := Plan(s.escrows[j], s.cfg.owner);
      if plan.None? then None
      else
        var t := s.Put(j, Deferred(s.escrows[j]));
        Some(if plan.value == [] then Finished(t, j)
             else t.Send(Batch(j, s.escrows[j].terms.token, plan.value)))
  }

  function WithPendingCredits(balances: map<string, nat>, e: Escrow): map<string, nat> {
    if e.workerPubkey.None? then balances
    else
      var pk := e.workerPubkey.value;
      var paid := if e.pendingPayout.Some? then Credit(balances, pk, e.terms.token, e.pendingPayout.value)
          else balances;
      if e.pendingStake.Some? then Credit(paid, pk, NEAR_TOKEN_ID, e.pendingStake.value) else paid
  }

  /** All transfers went through: the credits are applied and the escrow is done. */
  function FinishedJob(e: Escrow): Escrow {
    var internal := e.workerPubkey.Some?;
    e.(status := if e.target == Some(Claim) then Claimed else Refunded, target := None, workerStake := None,
       pendingPayout := if internal then None else e.pendingPayout,
       pendingStake := if internal then None else e.pendingStake)
  }

  function FinishedLedger(e: Escrow, l: Ledger): Ledger {
    var internal := e.workerPubkey.Some?;
    var stake := GetOr(e.workerStake, 0);
    var payout := if internal then GetOr(e.pendingPayout, 0) else 0;
    var back := if internal then GetOr(e.pendingStake, 0) else if e.worker.Some? then stake else 0;
    l.(credited := l.credited + payout, stakeOut := l.stakeOut + back, retained := l.retained + SatSub(stake, back))
  }

  /** The agent gets the storage deposit; an external worker gets the stake. */
  function FinishedOutbox(outbox: seq<Promise>, storage: nat, j: JobId, e: Escrow): seq<Promise> {
    var deposit := outbox + [Near(e.terms.agent, storage, StorageRefund)];
    if e.workerPubkey.None? && e.workerStake.Some? && e.worker.Some?
    then deposit + [Near(e.worker.value, e.workerStake.value, StakeOf(j))]
    else deposit
  }

  function Finished(s: State, j: JobId): State
    requires j in s.escrows
  {
    var e := s.escrows[j];
    var e' := FinishedJob(e);
    s.(balances := WithPendingCredits(s.balances, e), escrows := s.escrows[j := e'],
       ledgers := s.ledgers[j := FinishedLedger(e, s.LedgerOf(j))],
       stats := s.stats.Move(e.status, e'.status), underflows := s.underflows + s.stats.Underflow(e.status),
       outbox := FinishedOutbox(s.outbox, s.cfg.storageDeposit, j, e))
  }

  function AllOk(results: seq<bool>): bool {
    forall i :: 0 <= i < |results| ==> results[i]
  }

  function AfterSettleCallback(s: State, j: JobId, results: seq<bool>): Option<State> {
    if results == [] || j !in s.escrows || s.escrows[j].target.None? then None
    else if AllOk(results) then Some(Finished(s, j))
    else
      var e := s.escrows[j];
      Some(s.Put(j, e.(status := SettlementFailed)).Moved(e.status, SettlementFailed))
  }

  /** The worker's stake leaves the escrow: to `to`, or to nobody. */
  function Released(s: State, j: JobId, to: Option<AccountId>): State
    requires j in s.escrows
  {
    var e := s.escrows[j];
    var l := s.LedgerOf(j);
    if e.workerStake.None? then s
    else if to.None? then
      s.Put(j, e.(workerStake := None)).Book(j, l.(retained := l.retained + e.workerStake.value))
    else
      s.Put(j, e.(workerStake := None)).Send(Near(to.value, e.workerStake.value, StakeOf(j)))
       .Book(j, l.(stakeOut := l.stakeOut + e.workerStake.value))
  }

  function Unindexed(s: State, dataId: Option<DataId>): State {
    if dataId.None? then s else s.(index := s.index - {Hex.Encode(dataId.value)})
  }

  function VerdictOf(payload: Payload, threshold: nat): Option<Verdict> {
    if !payload.Parsed? then None
    else
      var score := GetOr(payload.score, 0) % 256;
      var passed := payload.passed == Some(true) && score >= threshold;
      Some(Verdict(score, passed, if payload.detail.Some? then payload.detail.value else "no detail"))
  }

  function TargetOf(verdict: Option<Verdict>): Target {
    if verdict.None? then FullRefund else if verdict.value.passed then Claim else Refund
  }

  /** The account a stake goes to when verification gave no verdict. An internal wallet is meant to
      be credited later, but the settlement that follows overwrites that credit. */
  function LegacyWorker(e: Escrow): Option<AccountId> {
    if e.workerPubkey.Some? then None else e.worker
  }

  /** The escrow after a payload was read, before it is settled. */
  function Judged(e: Escrow, payload: Payload): Escrow {
    var verdict := VerdictOf(payload, e.terms.scoreThreshold);
    (if verdict.None? then e.(workerStake := None) else e)
    .(yieldConsumed := true, verdict := verdict, target := Some(TargetOf(verdict)), dataId := None)
  }

  function JudgedState(s: State, j: JobId, payload: Payload): State
    requires j in s.escrows
  {
    var e := s.escrows[j];
    var t := if payload.Parsed? then s else Released(s, j, LegacyWorker(e));
    Unindexed(t, e.dataId).Put(j, Judged(e, payload))
  }

  function AfterVerification(s: State, j: JobId, payload: Payload): Option<State> {
    if j !in s.escrows then None
    else if s.escrows[j].status != Verifying then Some(s)
    else AfterSettle(JudgedState(s, j, payload), j)
  }

  predicate Settling(st: Status) {
    st == SettlementFailed || st == Verifying || st == Cancelled
  }

  predicate Retryable(e: Escrow) {
    e.target.Some? && Settling(e.status)
  }

  /** One retry too many: Cancelled, with the target kept. */
  function GivenUp(s: State, j: JobId, e: Escrow): State {
    s.Put(j, e.(status := Cancelled)).Moved(SettlementFailed, Cancelled)
     .Send(Near(e.terms.agent, s.cfg.storageDeposit, StorageRefund))
  }

  function AfterRetry(s: State, env: Env, j: JobId): Option<State> {
    if j !in s.escrows || !Retryable(s.escrows[j]) then None
    else
      var e := s.escrows[j].(retryCount := (s.escrows[j].retryCount + 1) % 256); // a `u8` without overflow checks
      if e.retryCount > MAX_SETTLEMENT_RETRIES then Some(GivenUp(s, j, e))
      else if env.predecessor != s.cfg.owner && env.nowMs <= e.terms.createdAt + e.terms.timeoutMs then None
      else AfterSettle(s.Put(j, e), j)
  }

  // ---- cancelling, refunding, cleaning up ----

  /** Cancelled, and the agent gets the storage deposit back. */
  function MarkedCancelled(s: State, j: JobId, from: Status): State
    requires j in s.escrows
  {
    var e := s.escrows[j];
    s.Put(j, e.(status := Cancelled)).Moved(from, Cancelled)
     .Send(Near(e.terms.agent, s.cfg.storageDeposit, StorageRefund))
  }

  function CancelledUnfunded(s: State, j: JobId): State
    requires j in s.escrows
  {
    MarkedCancelled(s, j, PendingFunding)
  }

  function FullyRefunding(s: State, j: JobId): Option<State>
    requires j in s.escrows
  {
    AfterSettle(s.Put(j, s.escrows[j].(target := Some(FullRefund))), j)
  }

  function AfterCancel(s: State, env: Env, j: JobId): Option<State> {
    if j !in s.escrows || env.signer != s.escrows[j].terms.agent then None
    else if s.escrows[j].status == PendingFunding then Some(CancelledUnfunded(s, j))
    else if s.escrows[j].status == Open then FullyRefunding(s, j)
    else None
  }

  function SafetyDeadline(e: Escrow): nat {
    GetOr(e.verifyingSince, e.terms.createdAt) + VERIFICATION_SAFETY_TIMEOUT_MS
  }

  /** The verification is given up: no stake, no index entry, no data id. */
  function Abandoned(s: State, j: JobId, to: Option<AccountId>): State
    requires j in s.escrows
  {
    var t := Released(s, j, to);
    Unindexed(t, s.escrows[j].dataId).Put(j, t.escrows[j].(dataId := None, yieldConsumed := false))
  }

  /** Verification called off by the owner: abandoned, Cancelled, storage deposit returned. */
  function CalledOff(s: State, j: JobId): State
    requires j in s.escrows
  {
    MarkedCancelled(Abandoned(s, j, s.escrows[j].worker), j, Verifying)
  }

  function AfterForceCancel(s: State, env: Env, j: JobId): Option<State> {
    if env.predecessor != s.cfg.owner || j !in s.escrows || s.escrows[j].status != Verifying then None
    else if env.nowMs < SafetyDeadline(s.escrows[j]) then None
    else FullyRefunding(CalledOff(s, j), j)
  }

  function AfterRefundExpired(s: State, env: Env, j: JobId): Option<State> {
    if s.cfg.paused || j !in s.escrows then None
    else
      var e := s.escrows[j];
      if env.nowMs <= e.terms.createdAt + e.terms.timeoutMs then None
      else
        match e.status
        case PendingFunding => Some(CancelledUnfunded(s, j))
        case Open => FullyRefunding(s, j)
        case InProgress => FullyRefunding(Released(s, j, Some(e.terms.agent)), j)
        case Verifying =>
          if env.nowMs < SafetyDeadline(e) then None
          else FullyRefunding(Abandoned(s, j, LegacyWorker(e)), j)
        case SettlementFailed => AfterSettle(s, j)
        case _ => None
  }

  predicate Terminal(e: Escrow) {
    e.status == Claimed || e.status == Refunded || e.status == Cancelled
  }

  /** What a job still holds in stakes: the bound worker's, and the submissions' until a winner is named. */
  function Held(e: Escrow): nat {
    GetOr(e.workerStake, 0) + if e.winner.None? then StakeSum(e.submissions) else 0
  }

  function Removed(s: State, gone: set<JobId>): State {
    var forgotten := map j | j in gone :: var l := s.LedgerOf(j);
      l.(credited := 0, openings := 0,
         retained := l.retained + if j in s.escrows then Held(s.escrows[j]) else 0);
    s.(escrows := s.escrows - gone, ledgers := s.ledgers + forgotten)
  }
}

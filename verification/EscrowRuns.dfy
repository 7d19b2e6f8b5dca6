/** Runs of the escrow contract: any calls and callbacks, by anyone, in any order, at any time. */
module EscrowRuns {
  import opened Basics
  import opened EscrowState
  import opened EscrowSpec

  /** Everything that can reach the contract. Callbacks are not tied to a launched promise: they may
      arrive late, twice or out of order, with any outcome. Owner setters are `Configure` and
      `PauseWorkers`, with any new values. */
  datatype Op =
    | Configure(cfg: Config)
    | PauseWorkers(paused: set<Pubkey>)
    | RegisterWorker(pk: Pubkey)
    | DepositToWorker(pk: Pubkey)
    | Withdraw(pk: Pubkey, token: string, amount: nat, to: AccountId, sig: seq<Byte>)
    | LinkNearAccount(pk: Pubkey, account: AccountId, sig: seq<Byte>)
    | CreateEscrow(args: CreateArgs)
    | FtOnTransfer(sender: AccountId, amount: nat, job: JobId)
    | TakeJob(job: JobId)
    | TakeJobFor(job: JobId, pk: Pubkey, sig: seq<Byte>)
    | SubmitResult(job: JobId, result: string)
    | SubmitResultFor(job: JobId, result: string, pk: Pubkey, sig: seq<Byte>)
    | DesignateWinner(job: JobId, idx: nat)
    | VerificationCallback(job: JobId, payload: Payload)
    | SettleCallback(job: JobId, results: seq<bool>)
    | RetrySettlement(job: JobId)
    | Cancel(job: JobId)
    | ForceCancelVerifying(job: JobId)
    | RefundExpired(job: JobId)
    | CleanupCompleted(gone: set<JobId>)

  datatype Call = Call(env: Env, op: Op)

  function Attempt(s: State, env: Env, op: Op): Option<State> {
    match op
    case Configure(cfg) => if cfg.self == s.cfg.self then Some(s.(cfg := cfg)) else None
    case PauseWorkers(paused) => Some(s.(pausedWorkers := paused))
    case RegisterWorker(pk) => AfterRegisterWorker(s, env, pk)
    case DepositToWorker(pk) => AfterDepositToWorker(s, env, pk)
    case Withdraw(pk, token, amount, to, sig) => AfterWithdraw(s, env, pk, token, amount, to, sig)
    case LinkNearAccount(pk, account, sig) => AfterLinkNearAccount(s, env, pk, account, sig)
    case CreateEscrow(args) => AfterCreate(s, env, args)
    case FtOnTransfer(sender, amount, j) => Some(AfterFtOnTransfer(s, env, sender, amount, j).0)
    case TakeJob(j) => AfterClaim(s, env, j)
    case TakeJobFor(j, pk, sig) => AfterClaimFor(s, env, j, pk, sig)
    case SubmitResult(j, result) => AfterSubmitResult(s, env, j, result)
    case SubmitResultFor(j, result, pk, sig) => AfterSubmitResultFor(s, env, j, result, pk, sig)
    case DesignateWinner(j, idx) => AfterDesignateWinner(s, env, j, idx)
    case VerificationCallback(j, payload) => AfterVerification(s, j, payload)
    case SettleCallback(j, results) => AfterSettleCallback(s, j, results)
    case RetrySettlement(j) => AfterRetry(s, env, j)
    case Cancel(j) => AfterCancel(s, env, j)
    case ForceCancelVerifying(j) => AfterForceCancel(s, env, j)
    case RefundExpired(j) => AfterRefundExpired(s, env, j)
    case CleanupCompleted(gone) =>
      if forall j :: j in gone ==> j in s.escrows && Terminal(s.escrows[j]) then Some(Removed(s, gone)) else None
  }

  /** A panic reverts the call. */
  function Apply(s: State, call: Call): State {
    var r := Attempt(s, call.env, call.op);
    if r.Some? then r.value else s
  }

  function Run(s: State, calls: seq<Call>): State {
    if calls == [] then s else Apply(Run(s, calls[..|calls| - 1]), calls[|calls| - 1])
  }

  // ---- the invariant of one job ----

  predicate Passed(e: Escrow) {
    e.verdict.Some? && e.verdict.value.passed && e.verdict.value.score >= e.terms.scoreThreshold
  }

  /** Once a winner is named, the job is that submission's: its worker, result and stake. */
  predicate Crowned(e: Escrow) {
    e.winner.Some? ==>
      && e.winner.value < |e.submissions| && e.workerPubkey.None?
      && var sub := e.submissions[e.winner.value];
        && e.worker == Some(sub.worker) && e.result == Some(sub.result)
        && (e.workerStake.Some? ==> e.workerStake == Some(sub.stake))
  }

  /** Who is bound to the job, and when. */
  predicate Bindings(e: Escrow) {
    && Crowned(e)
    && e.terms.fee < e.terms.amount
    && (e.workerPubkey.Some? || e.workerStake.Some? ==> e.worker.Some?)
    && (e.status == InProgress || e.status == Verifying ==> e.worker.Some?)
    && (e.status == PendingFunding || e.status == Open || e.status == InProgress ==> e.dataId.None? && e.winner.None?)
    && (e.status == PendingFunding || e.status == Open ==> e.worker.None?)
    && (e.status == PendingFunding ==> e.submissions == [])
  }

  /** A payload that passes at this threshold. */
  predicate Passing(payload: Payload, threshold: nat) {
    payload.Parsed? && payload.passed == Some(true) && GetOr(payload.score, 0) % 256 >= threshold
  }

  /** What the settlement target says about the job. */
  predicate Targeted(e: Escrow) {
    && (e.status == PendingFunding ==> e.target.None?)
    && (e.status == SettlementFailed ==> e.target.Some?)
    && (e.status == Claimed || e.status == Refunded ==> e.target.None? && e.workerStake.None?)
    && (e.target == Some(Claim) ==> Passed(e) && e.worker.Some? && Settling(e.status))
    && (e.status == Claimed ==> Passed(e) && e.worker.Some?)
  }

  /** Deferred credits: the payout waits exactly while the target is Claim, and a deferred stake
      is the stake the job still holds. */
  predicate Pending(e: Escrow) {
    && (e.pendingPayout.Some? <==> e.workerPubkey.Some? && e.target == Some(Claim))
    && (e.pendingPayout.Some? ==> e.pendingPayout.value == e.terms.amount - e.terms.fee)
    && (e.pendingStake.Some? ==> e.workerPubkey.Some? && e.pendingStake == e.workerStake)
  }

  predicate Accounts(e: Escrow, l: Ledger) {
    && l.credited == (if e.status == Claimed && e.workerPubkey.Some? then e.terms.amount - e.terms.fee else 0)
    && l.openings <= 1 && (e.status == PendingFunding ==> l.openings == 0)
    && l.stakeIn == l.stakeOut + l.retained + Held(e)
  }

  predicate JobInv(e: Escrow, l: Ledger) {
    Bindings(e) && Targeted(e) && Pending(e) && Accounts(e, l)
  }

  /** The invariant of a job id: of its escrow, or of the books it left behind. */
  predicate JobOk(s: State, j: JobId) {
    var l := s.LedgerOf(j);
    if j in s.escrows then JobInv(s.escrows[j], l)
    else l.credited == 0 && l.openings == 0 && l.stakeIn == l.stakeOut + l.retained
  }

  ghost predicate JobsInv(s: State) {
    forall j :: JobOk(s, j)
  }

  // ---- how one job moves ----

  function Rank(st: Status): nat {
    match st
    case PendingFunding => 0
    case Open => 1
    case InProgress => 2
    case Verifying => 3
    case SettlementFailed => 4
    case Cancelled => 4
    case Claimed => 5
    case Refunded => 5
  }

  predicate Final(e: Escrow) {
    e.status == Claimed || e.status == Refunded || (e.status == Cancelled && e.target.None?)
  }

  /** Terms never change, a worker or winner once named stays, the rank never drops, final is final. */
  predicate Evolves(e: Escrow, e': Escrow) {
    && e'.terms == e.terms
    && (e.worker.Some? ==> e'.worker == e.worker)
    && (e.worker.Some? || e.workerPubkey.Some? ==> e'.workerPubkey == e.workerPubkey)
    && (e.winner.Some? ==> e'.winner == e.winner && e'.submissions == e.submissions && e'.result == e.result)
    && Rank(e.status) <= Rank(e'.status)
    && (Final(e) ==> e' == e)
  }

  /** Only job `j` may differ between the two states. */
  ghost predicate OthersSame(s: State, t: State, j: JobId) {
    && t.escrows.Keys == s.escrows.Keys + {j}
    && (forall k :: k in s.escrows && k != j ==> t.escrows[k] == s.escrows[k])
    && (forall k :: k != j ==> t.LedgerOf(k) == s.LedgerOf(k))
  }

  /** Only job `j` may differ, its invariant holds, and it moved as a job may. */
  ghost predicate Touches(s: State, t: State, j: JobId) {
    && OthersSame(s, t, j)
    && JobInv(t.escrows[j], t.LedgerOf(j))
    && (j in s.escrows ==> Evolves(s.escrows[j], t.escrows[j]))
  }

  ghost predicate SameJobs(s: State, t: State) {
    t.escrows == s.escrows && t.ledgers == s.ledgers
  }

  /** A write of one escrow and its ledger, seen from the whole state. */
  lemma Wire(s: State, t: State, j: JobId, e: Escrow, l: Ledger)
    requires t.escrows == s.escrows[j := e]
    requires t.ledgers == s.ledgers[j := l] || (t.ledgers == s.ledgers && l == s.LedgerOf(j))
    requires JobInv(e, l) && (j in s.escrows ==> Evolves(s.escrows[j], e))
    ensures Touches(s, t, j)
  {
  }

  lemma WireTwice(s: State, t: State, u: State, j: JobId, e: Escrow, l: Ledger)
    requires j in s.escrows && j in t.escrows && t.escrows == s.escrows[j := t.escrows[j]]
    requires t.ledgers == s.ledgers[j := t.LedgerOf(j)] || t.ledgers == s.ledgers
    requires u.escrows == t.escrows[j := e]
    requires u.ledgers == t.ledgers[j := l] || (u.ledgers == t.ledgers && l == t.LedgerOf(j))
    requires JobInv(e, l) && Evolves(s.escrows[j], e)
    ensures Touches(s, u, j)
  {
  }

  // ---- settlement ----

  /** Enough for a settlement to leave the job well: any stale deferred credit is replaced. */
  predicate ReadyToSettle(e: Escrow, l: Ledger) {
    && Bindings(e) && Targeted(e) && Accounts(e, l) && e.target.Some?
    && (e.workerPubkey.None? ==> e.pendingPayout.None? && e.pendingStake.None?)
  }

  lemma PlanExists(e: Escrow, l: Ledger, owner: AccountId)
    requires ReadyToSettle(e, l)
    ensures Plan(e, owner).Some?
    ensures Plan(e, owner).value == [] ==> e.target == Some(Claim) && e.workerPubkey.Some?
  {
  }

  lemma DeferredJob(e: Escrow, l: Ledger)
    requires ReadyToSettle(e, l)
    ensures JobInv(Deferred(e), l) && Evolves(e, Deferred(e))
  {
  }

  /** Paying out a settled job: the credited sum becomes the job's net amount exactly when it ends Claimed. */
  lemma FinishJob(e: Escrow, l: Ledger)
    requires JobInv(e, l) && e.target.Some?
    ensures JobInv(FinishedJob(e), FinishedLedger(e, l)) && Evolves(e, FinishedJob(e)) && Final(FinishedJob(e))
  {
  }

  lemma FinishKeepsJob(s: State, j: JobId)
    requires j in s.escrows && s.escrows[j].target.Some? && JobInv(s.escrows[j], s.LedgerOf(j))
    ensures Touches(s, Finished(s, j), j)
  {
    FinishJob(s.escrows[j], s.LedgerOf(j));
    Wire(s, Finished(s, j), j, FinishedJob(s.escrows[j]), FinishedLedger(s.escrows[j], s.LedgerOf(j)));
  }

  /** The two ways a settlement starts: nothing to transfer and done at once, or a batch on its way. */
  function SettledJob(e: Escrow, owner: AccountId): Escrow {
    if Plan(e, owner) == Some([]) then FinishedJob(Deferred(e)) else Deferred(e)
  }

  function SettledLedger(e: Escrow, l: Ledger, owner: AccountId): Ledger {
    if Plan(e, owner) == Some([]) then FinishedLedger(Deferred(e), l) else l
  }

  lemma SettleShape(t: State, j: JobId)
    requires j in t.escrows && Plan(t.escrows[j], t.cfg.owner).Some?
    ensures AfterSettle(t, j).Some?
    ensures var e, u := t.escrows[j], AfterSettle(t, j).value;
      && u.escrows == t.escrows[j := SettledJob(e, t.cfg.owner)]
      && (u.ledgers == t.ledgers[j := SettledLedger(e, t.LedgerOf(j), t.cfg.owner)]
          || (u.ledgers == t.ledgers && SettledLedger(e, t.LedgerOf(j), t.cfg.owner) == t.LedgerOf(j)))
  {
    var v := t.Put(j, Deferred(t.escrows[j]));
    assert v.LedgerOf(j) == t.LedgerOf(j);
  }

  /** With transfers to make, a settlement only launches them. */
  lemma SettleLaunches(t: State, j: JobId, plan: seq<Transfer>)
    requires j in t.escrows && Plan(t.escrows[j], t.cfg.owner) == Some(plan) && plan != []
    ensures AfterSettle(t, j) == Some(t.Put(j, Deferred(t.escrows[j])).Send(Batch(j, t.escrows[j].terms.token, plan)))
  {
  }

  lemma SettleJob(e0: Escrow, e: Escrow, l: Ledger, owner: AccountId)
    requires ReadyToSettle(e, l) && Evolves(e0, e)
    ensures Plan(e, owner).Some?
    ensures JobInv(SettledJob(e, owner), SettledLedger(e, l, owner)) && Evolves(e0, SettledJob(e, owner))
  {
    PlanExists(e, l, owner);
    DeferredJob(e, l);
    FinishJob(Deferred(e), l);
  }

  /** Settlement never panics on a job that is ready, whatever the escrow stood at before `e`. */
  lemma SettleKeepsJob(s: State, t: State, j: JobId, e: Escrow, l: Ledger)
    requires j in s.escrows && t.escrows == s.escrows[j := e]
    requires t.ledgers == s.ledgers[j := l] || (t.ledgers == s.ledgers && l == s.LedgerOf(j))
    requires ReadyToSettle(e, l) && Evolves(s.escrows[j], e)
    ensures AfterSettle(t, j).Some? && Touches(s, AfterSettle(t, j).value, j)
  {
    assert t.LedgerOf(j) == l;
    SettleJob(s.escrows[j], e, l, t.cfg.owner);
    SettleShape(t, j);
    WireTwice(s, t, AfterSettle(t, j).value, j, SettledJob(e, t.cfg.owner), SettledLedger(e, l, t.cfg.owner));
  }

  lemma CallbackKeepsJob(s: State, j: JobId, results: seq<bool>)
    requires j in s.escrows && JobInv(s.escrows[j], s.LedgerOf(j)) && AfterSettleCallback(s, j, results).Some?
    ensures Touches(s, AfterSettleCallback(s, j, results).value, j)
  {
    var e := s.escrows[j];
    if AllOk(results) {
      FinishKeepsJob(s, j);
    } else {
      Wire(s, AfterSettleCallback(s, j, results).value, j, e.(status := SettlementFailed), s.LedgerOf(j));
    }
  }

  /** A stake that leaves the escrow is booked as paid out or kept. */
  function ReleasedLedger(e: Escrow, l: Ledger, to: Option<AccountId>): Ledger {
    var stake := GetOr(e.workerStake, 0);
    if to.None? then l.(retained := l.retained + stake) else l.(stakeOut := l.stakeOut + stake)
  }

  lemma ReleaseBooks(s: State, j: JobId, to: Option<AccountId>)
    requires j in s.escrows
    ensures var t, e := Released(s, j, to), s.escrows[j];
      && t.escrows == s.escrows[j := e.(workerStake := None)]
      && (t.ledgers == s.ledgers[j := ReleasedLedger(e, s.LedgerOf(j), to)]
          || (t.ledgers == s.ledgers && ReleasedLedger(e, s.LedgerOf(j), to) == s.LedgerOf(j)))
  {
  }

  function JudgedLedger(e: Escrow, l: Ledger, payload: Payload): Ledger {
    if payload.Parsed? then l else ReleasedLedger(e, l, LegacyWorker(e))
  }

  lemma JudgedIsReady(e: Escrow, l: Ledger, payload: Payload)
    requires JobInv(e, l) && e.status == Verifying
    ensures ReadyToSettle(Judged(e, payload), JudgedLedger(e, l, payload)) && Evolves(e, Judged(e, payload))
  {
  }

  lemma JudgedShape(s: State, j: JobId, payload: Payload)
    requires j in s.escrows
    ensures var e, t := s.escrows[j], JudgedState(s, j, payload);
      && t.escrows == s.escrows[j := Judged(e, payload)]
      && (t.ledgers == s.ledgers[j := JudgedLedger(e, s.LedgerOf(j), payload)]
          || (t.ledgers == s.ledgers && JudgedLedger(e, s.LedgerOf(j), payload) == s.LedgerOf(j)))
  {
    var e := s.escrows[j];
    if payload.Parsed? {
      UnindexedShape(s, e.dataId);
    } else {
      ReleaseBooks(s, j, LegacyWorker(e));
      UnindexedShape(Released(s, j, LegacyWorker(e)), e.dataId);
    }
  }

  lemma UnindexedShape(t: State, dataId: Option<DataId>)
    ensures Unindexed(t, dataId) == t.(index := Unindexed(t, dataId).index)
  {
  }

  lemma VerificationKeepsJob(s: State, j: JobId, payload: Payload)
    requires j in s.escrows && JobInv(s.escrows[j], s.LedgerOf(j)) && AfterVerification(s, j, payload).Some?
    ensures Touches(s, AfterVerification(s, j, payload).value, j)
  {
    var e, l := s.escrows[j], s.LedgerOf(j);
    if e.status == Verifying {
      JudgedIsReady(e, l, payload);
      JudgedShape(s, j, payload);
      SettleKeepsJob(s, JudgedState(s, j, payload), j, Judged(e, payload), JudgedLedger(e, l, payload));
    }
  }

  lemma RetriedJob(e: Escrow, l: Ledger, count: Byte)
    requires JobInv(e, l) && Retryable(e)
    ensures ReadyToSettle(e.(retryCount := count), l) && Evolves(e, e.(retryCount := count))
    ensures JobInv(e.(retryCount := count, status := Cancelled), l)
    ensures Evolves(e, e.(retryCount := count, status := Cancelled))
  {
  }

  /** What a retry does: the job is given up, or settled once more. */
  lemma RetryIs(s: State, env: Env, j: JobId)
    requires AfterRetry(s, env, j).Some?
    ensures j in s.escrows && Retryable(s.escrows[j])
    ensures var e := s.escrows[j].(retryCount := (s.escrows[j].retryCount + 1) % 256);
      AfterRetry(s, env, j)
        == if e.retryCount > MAX_SETTLEMENT_RETRIES then Some(GivenUp(s, j, e)) else AfterSettle(s.Put(j, e), j)
  {
  }

  lemma RetryKeepsJob(s: State, env: Env, j: JobId)
    requires j in s.escrows && JobInv(s.escrows[j], s.LedgerOf(j)) && AfterRetry(s, env, j).Some?
    ensures Touches(s, AfterRetry(s, env, j).value, j)
  {
    var e, l := s.escrows[j], s.LedgerOf(j);
    var count: Byte := (e.retryCount + 1) % 256;
    RetriedJob(e, l, count);
    if count > MAX_SETTLEMENT_RETRIES {
      var t := AfterRetry(s, env, j).value;
      assert t.escrows == s.escrows[j := e.(retryCount := count, status := Cancelled)] && t.ledgers == s.ledgers;
      Wire(s, t, j, e.(retryCount := count, status := Cancelled), l);
    } else {
      SettleKeepsJob(s, s.Put(j, e.(retryCount := count)), j, e.(retryCount := count), l);
      assert AfterRetry(s, env, j) == AfterSettle(s.Put(j, e.(retryCount := count)), j);
    }
  }

  /** Turning a live job into a full refund is always possible, with or without its stake. */
  lemma FullRefundIsReady(e: Escrow, l: Ledger, to: Option<AccountId>, st: Status)
    requires JobInv(e, l) && e.status != PendingFunding && !Final(e)
        && (st == e.status || (st == Cancelled && e.status == Verifying))
    ensures ReadyToSettle(e.(target := Some(FullRefund)), l) && Evolves(e, e.(target := Some(FullRefund)))
    ensures var e' := e.(workerStake := None, target := Some(FullRefund));
      ReadyToSettle(e', ReleasedLedger(e, l, to)) && Evolves(e, e')
    ensures var e' := e.(workerStake := None, dataId := None, yieldConsumed := false, status := st,
        target := Some(FullRefund));
      ReadyToSettle(e', ReleasedLedger(e, l, to)) && Evolves(e, e')
  {
  }

  lemma UnfundedKeepsJob(s: State, j: JobId)
    requires j in s.escrows && JobInv(s.escrows[j], s.LedgerOf(j)) && s.escrows[j].status == PendingFunding
    ensures Touches(s, CancelledUnfunded(s, j), j)
  {
    Wire(s, CancelledUnfunded(s, j), j, s.escrows[j].(status := Cancelled), s.LedgerOf(j));
  }

  lemma FullRefundKeepsJob(s: State, j: JobId)
    requires j in s.escrows && JobInv(s.escrows[j], s.LedgerOf(j))
    requires s.escrows[j].status != PendingFunding && !Final(s.escrows[j])
    ensures FullyRefunding(s, j).Some? && Touches(s, FullyRefunding(s, j).value, j)
  {
    var e, l := s.escrows[j], s.LedgerOf(j);
    FullRefundIsReady(e, l, None, e.status);
    SettleKeepsJob(s, s.Put(j, e.(target := Some(FullRefund))), j, e.(target := Some(FullRefund)), l);
  }

  lemma ForfeitKeepsJob(s: State, j: JobId, to: Option<AccountId>)
    requires j in s.escrows && JobInv(s.escrows[j], s.LedgerOf(j))
    requires s.escrows[j].status != PendingFunding && !Final(s.escrows[j])
    ensures FullyRefunding(Released(s, j, to), j).Some? && Touches(s, FullyRefunding(Released(s, j, to), j).value, j)
  {
    var e, l := s.escrows[j], s.LedgerOf(j);
    var e' := e.(workerStake := None, target := Some(FullRefund));
    FullRefundIsReady(e, l, to, e.status);
    ReleaseBooks(s, j, to);
    SettleKeepsJob(s, Released(s, j, to).Put(j, e'), j, e', ReleasedLedger(e, l, to));
  }

  /** Giving up on a verification: the full refund goes ahead from whatever state carries the abandoned job. */
  lemma AbandonKeepsJob(s: State, t: State, j: JobId, to: Option<AccountId>, st: Status)
    requires j in s.escrows && JobInv(s.escrows[j], s.LedgerOf(j)) && s.escrows[j].status == Verifying
    requires st == Verifying || st == Cancelled
    requires j in t.escrows && t.ledgers == Released(s, j, to).ledgers
    requires t.escrows == s.escrows[j := s.escrows[j].(workerStake := None, dataId := None, yieldConsumed := false,
        status := st)]
    ensures FullyRefunding(t, j).Some? && Touches(s, FullyRefunding(t, j).value, j)
  {
    var e, l := s.escrows[j], s.LedgerOf(j);
    var e' := e.(workerStake := None, dataId := None, yieldConsumed := false, status := st, target := Some(FullRefund));
    FullRefundIsReady(e, l, to, st);
    ReleaseBooks(s, j, to);
    SettleKeepsJob(s, t.Put(j, e'), j, e', ReleasedLedger(e, l, to));
  }

  lemma AbandonedJob(s: State, j: JobId, to: Option<AccountId>)
    requires j in s.escrows
    ensures var t := Abandoned(s, j, to);
      && t.escrows == s.escrows[j := s.escrows[j].(workerStake := None, dataId := None, yieldConsumed := false)]
      && t.ledgers == Released(s, j, to).ledgers
  {
    ReleaseBooks(s, j, to);
  }

  lemma CancelKeepsJob(s: State, env: Env, j: JobId)
    requires j in s.escrows && JobInv(s.escrows[j], s.LedgerOf(j)) && AfterCancel(s, env, j).Some?
    ensures Touches(s, AfterCancel(s, env, j).value, j)
  {
    if s.escrows[j].status == Open {
      FullRefundKeepsJob(s, j);
    } else {
      UnfundedKeepsJob(s, j);
    }
  }

  lemma CalledOffJob(s: State, j: JobId)
    requires j in s.escrows
    ensures var t := CalledOff(s, j);
      && t.escrows == s.escrows[j := s.escrows[j].(workerStake := None, dataId := None, yieldConsumed := false,
          status := Cancelled)]
      && t.ledgers == Released(s, j, s.escrows[j].worker).ledgers
  {
    AbandonedJob(s, j, s.escrows[j].worker);
  }

  lemma ForceCancelKeepsJob(s: State, env: Env, j: JobId)
    requires j in s.escrows && JobInv(s.escrows[j], s.LedgerOf(j)) && AfterForceCancel(s, env, j).Some?
    ensures Touches(s, AfterForceCancel(s, env, j).value, j)
  {
    CalledOffJob(s, j);
    AbandonKeepsJob(s, CalledOff(s, j), j, s.escrows[j].worker, Cancelled);
  }

  /** What expiry does, status by status. */
  lemma RefundExpiredIs(s: State, env: Env, j: JobId)
    requires AfterRefundExpired(s, env, j).Some?
    ensures AfterRefundExpired(s, env, j)
      == match s.escrows[j].status
         case PendingFunding => Some(CancelledUnfunded(s, j))
         case Open => FullyRefunding(s, j)
         case InProgress => FullyRefunding(Released(s, j, Some(s.escrows[j].terms.agent)), j)
         case Verifying => FullyRefunding(Abandoned(s, j, LegacyWorker(s.escrows[j])), j)
         case _ => AfterSettle(s, j)
  {
  }

  lemma RefundExpiredKeepsJob(s: State, env: Env, j: JobId)
    requires j in s.escrows && JobInv(s.escrows[j], s.LedgerOf(j)) && AfterRefundExpired(s, env, j).Some?
    ensures Touches(s, AfterRefundExpired(s, env, j).value, j)
  {
    var e := s.escrows[j];
    match e.status
    case PendingFunding => UnfundedKeepsJob(s, j);
    case Open => FullRefundKeepsJob(s, j);
    case InProgress => ForfeitKeepsJob(s, j, Some(e.terms.agent));
    case Verifying =>
      AbandonedJob(s, j, LegacyWorker(e));
      AbandonKeepsJob(s, Abandoned(s, j, LegacyWorker(e)), j, LegacyWorker(e), Verifying);
    case SettlementFailed => SettleKeepsJob(s, s, j, e, s.LedgerOf(j));
  }

  // ---- creation, funding, claiming, submitting ----

  lemma NewJob(env: Env, a: CreateArgs, l: Ledger)
    requires l.credited == 0 && l.openings == 0 && l.stakeIn == l.stakeOut + l.retained && GetOr(a.fee, 0) < a.amount
    ensures JobInv(NewEscrow(env, a), l)
  {
  }

  lemma CreateKeepsJob(s: State, env: Env, a: CreateArgs)
    requires JobInv(NewEscrow(env, a), s.LedgerOf(a.job)) && AfterCreate(s, env, a).Some?
    ensures Touches(s, AfterCreate(s, env, a).value, a.job)
  {
    var t := AfterCreate(s, env, a).value;
    assert t.escrows == s.escrows[a.job := NewEscrow(env, a)] && t.ledgers == s.ledgers;
    Wire(s, t, a.job, NewEscrow(env, a), s.LedgerOf(a.job));
  }

  lemma FundingKeepsJob(s: State, env: Env, sender: AccountId, amount: nat, j: JobId)
    requires j in s.escrows && JobInv(s.escrows[j], s.LedgerOf(j))
    ensures Touches(s, AfterFtOnTransfer(s, env, sender, amount, j).0, j)
  {
    var e, l := s.escrows[j], s.LedgerOf(j);
    if Fundable(s, env.predecessor, sender, amount, j) {
      Wire(s, AfterFtOnTransfer(s, env, sender, amount, j).0, j, e.(status := Open), l.(openings := l.openings + 1));
    }
  }

  lemma TakenJob(e: Escrow, l: Ledger, worker: AccountId, pk: Option<Pubkey>, stake: nat)
    requires JobInv(e, l) && e.status == Open
    ensures var e' := e.(worker := Some(worker), workerPubkey := pk, workerStake := Some(stake), status := InProgress);
      JobInv(e', l.(stakeIn := l.stakeIn + stake)) && Evolves(e, e')
  {
  }

  lemma ClaimKeepsJob(s: State, env: Env, j: JobId)
    requires j in s.escrows && JobInv(s.escrows[j], s.LedgerOf(j)) && AfterClaim(s, env, j).Some?
    ensures Touches(s, AfterClaim(s, env, j).value, j)
  {
    var e, l := s.escrows[j], s.LedgerOf(j);
    TakenJob(e, l, env.signer, None, env.deposit);
    Wire(s, AfterClaim(s, env, j).value, j,
         e.(worker := Some(env.signer), workerStake := Some(env.deposit), status := InProgress),
         l.(stakeIn := l.stakeIn + env.deposit));
  }

  lemma ClaimForKeepsJob(s: State, env: Env, j: JobId, pk: Pubkey, sig: seq<Byte>)
    requires j in s.escrows && JobInv(s.escrows[j], s.LedgerOf(j)) && AfterClaimFor(s, env, j, pk, sig).Some?
    ensures Touches(s, AfterClaimFor(s, env, j, pk, sig).value, j)
  {
    var e, l := s.escrows[j], s.LedgerOf(j);
    TakenJob(e, l, env.signer, Some(pk), s.cfg.workerStake);
    Wire(s, AfterClaimFor(s, env, j, pk, sig).value, j,
         e.(workerPubkey := Some(pk), worker := Some(env.signer), workerStake := Some(s.cfg.workerStake),
             status := InProgress),
         l.(stakeIn := l.stakeIn + s.cfg.workerStake));
  }

  lemma SubmittedJob(e: Escrow, l: Ledger, env: Env, result: string)
    requires JobInv(e, l) && e.status == InProgress
    ensures JobInv(Submitted(e, env, result), l) && Evolves(e, Submitted(e, env, result))
  {
  }

  lemma SubmissionJob(e: Escrow, l: Ledger, sub: Submission, paid: nat)
    requires JobInv(e, l) && e.status == Open && paid >= sub.stake
    ensures var e' := e.(submissions := e.submissions + [sub]);
      JobInv(e', l.(stakeIn := l.stakeIn + paid, retained := l.retained + SatSub(paid, sub.stake))) && Evolves(e, e')
  {
    assert (e.submissions + [sub])[..|e.submissions|] == e.submissions;
  }

  lemma SubmissionKeepsJob(s: State, t: State, j: JobId, sub: Submission, paid: nat)
    requires j in s.escrows && JobInv(s.escrows[j], s.LedgerOf(j)) && s.escrows[j].status == Open && paid >= sub.stake
    requires t.escrows == s.escrows && t.ledgers == s.ledgers
    ensures Touches(s, WithSubmission(t, j, sub, paid), j)
  {
    var e, l := s.escrows[j], s.LedgerOf(j);
    SubmissionJob(e, l, sub, paid);
    Wire(s, WithSubmission(t, j, sub, paid), j, e.(submissions := e.submissions + [sub]),
         l.(stakeIn := l.stakeIn + paid, retained := l.retained + SatSub(paid, sub.stake)));
  }

  lemma SubmitKeepsJob(s: State, env: Env, j: JobId, result: string)
    requires j in s.escrows && JobInv(s.escrows[j], s.LedgerOf(j)) && AfterSubmitResult(s, env, j, result).Some?
    ensures Touches(s, AfterSubmitResult(s, env, j, result).value, j)
  {
    var e, t := s.escrows[j], AfterSubmitResult(s, env, j, result).value;
    if e.terms.mode == Competitive {
      if SubmittedBy(e.submissions, env.signer) {
        assert SameJobs(s, t);
      } else {
        SubmissionKeepsJob(s, s, j, Submission(env.signer, result, s.cfg.workerStake, None), env.deposit);
      }
    } else if e.status == InProgress {
      SubmittedJob(e, s.LedgerOf(j), env, result);
      Wire(s, t, j, Submitted(e, env, result), s.LedgerOf(j));
    } else {
      assert SameJobs(s, t);
    }
  }

  /** A signed submission registers and counts the worker first; the jobs are not looked at. */
  lemma SigningKeepsJobs(s: State, env: Env, pk: Pubkey, a: Messages.Action, sig: seq<Byte>)
    requires Authorized(s, env, pk, a, sig).Some?
    ensures SameJobs(s, Authorized(s, env, pk, a, sig).value)
  {
  }

  lemma CompetitiveForKeepsJob(s: State, t: State, env: Env, j: JobId, result: string, pk: Pubkey)
    requires SameJobs(s, t) && j in s.escrows && JobInv(s.escrows[j], s.LedgerOf(j))
    requires CompetitiveResultFor(t, env, j, result, pk).Some?
    ensures Touches(s, CompetitiveResultFor(t, env, j, result, pk).value, j)
  {
    var u := CompetitiveResultFor(t, env, j, result, pk).value;
    if u.escrows == s.escrows {
      assert SameJobs(s, u);
    } else {
      var left := Debit(t.balances, pk, NEAR_TOKEN_ID, t.cfg.workerStake).value;
      SubmissionKeepsJob(s, t.(balances := left), j, Submission(env.signer, result, t.cfg.workerStake, Some(pk)),
          t.cfg.workerStake);
    }
  }

  lemma StandardForKeepsJob(s: State, t: State, env: Env, j: JobId, result: string, pk: Pubkey)
    requires SameJobs(s, t) && j in s.escrows && JobInv(s.escrows[j], s.LedgerOf(j))
    requires StandardResultFor(t, env, j, result, pk).Some?
    ensures Touches(s, StandardResultFor(t, env, j, result, pk).value, j)
  {
    var e, u := s.escrows[j], StandardResultFor(t, env, j, result, pk).value;
    if e.status == InProgress {
      SubmittedJob(e, s.LedgerOf(j), env, result);
      Wire(s, u, j, Submitted(e, env, result), s.LedgerOf(j));
    } else {
      assert SameJobs(s, u);
    }
  }

  lemma SubmitForKeepsJob(s: State, env: Env, j: JobId, result: string, pk: Pubkey, sig: seq<Byte>)
    requires j in s.escrows && JobInv(s.escrows[j], s.LedgerOf(j))
        && AfterSubmitResultFor(s, env, j, result, pk, sig).Some?
    ensures Touches(s, AfterSubmitResultFor(s, env, j, result, pk, sig).value, j)
  {
    var t := Authorized(Known(s, pk), env, pk, Messages.SubmitJob(j), sig).value;
    SigningKeepsJobs(Known(s, pk), env, pk, Messages.SubmitJob(j), sig);
    if s.escrows[j].terms.mode == Competitive {
      CompetitiveForKeepsJob(s, t, env, j, result, pk);
    } else {
      StandardForKeepsJob(s, t, env, j, result, pk);
    }
  }

  lemma {:induction false} StakeSumAt(subs: seq<Submission>, k: nat)
    requires k < |subs|
    ensures subs[k].stake <= StakeSum(subs)
  {
    if k < |subs| - 1 {
      StakeSumAt(subs[..|subs| - 1], k);
    }
  }

  lemma DesignatedJob(e: Escrow, l: Ledger, env: Env, idx: nat)
    requires JobInv(e, l) && e.status == Open && idx < |e.submissions|
    ensures var sub := e.submissions[idx];
      var e' := Designated(e, env, idx);
      JobInv(e', l.(stakeOut := l.stakeOut + SatSub(StakeSum(e.submissions), sub.stake))) && Evolves(e, e')
  {
    StakeSumAt(e.submissions, idx);
  }

  lemma YieldedShape(s: State, env: Env, j: JobId)
    ensures Yielded(s, env, j).escrows == s.escrows && Yielded(s, env, j).ledgers == s.ledgers
  {
  }

  lemma DesignateKeepsJob(s: State, env: Env, j: JobId, idx: nat)
    requires j in s.escrows && JobInv(s.escrows[j], s.LedgerOf(j)) && AfterDesignateWinner(s, env, j, idx).Some?
    ensures Touches(s, AfterDesignateWinner(s, env, j, idx).value, j)
  {
    var e, l, t := s.escrows[j], s.LedgerOf(j), AfterDesignateWinner(s, env, j, idx).value;
    if e.status == Open {
      DesignatedJob(e, l, env, idx);
      var l' := l.(stakeOut := l.stakeOut + SatSub(StakeSum(e.submissions), e.submissions[idx].stake));
      assert t == Yielded(WinnerNamed(s, env, j, idx), env, j);
      YieldedShape(WinnerNamed(s, env, j, idx), env, j);
      Wire(s, t, j, Designated(e, env, idx), l');
    }
  }

  // ---- every step, every run ----

  /** The job a call is about; wallet calls and the clean-up have none. */
  function JobOf(op: Op): Option<JobId> {
    match op
    case CreateEscrow(args) => Some(args.job)
    case FtOnTransfer(_, _, j) => Some(j)
    case TakeJob(j) => Some(j)
    case TakeJobFor(j, _, _) => Some(j)
    case SubmitResult(j, _) => Some(j)
    case SubmitResultFor(j, _, _, _) => Some(j)
    case DesignateWinner(j, _) => Some(j)
    case VerificationCallback(j, _) => Some(j)
    case SettleCallback(j, _) => Some(j)
    case RetrySettlement(j) => Some(j)
    case Cancel(j) => Some(j)
    case ForceCancelVerifying(j) => Some(j)
    case RefundExpired(j) => Some(j)
    case _ => None
  }

  lemma WalletCallsKeepJobs(s: State, env: Env, op: Op)
    requires JobOf(op).None? && !op.CleanupCompleted? && Attempt(s, env, op).Some?
    ensures SameJobs(s, Attempt(s, env, op).value)
  {
  }

  lemma EarlyCallsTouch(s: State, env: Env, op: Op)
    requires JobOf(op).Some? && JobOk(s, JobOf(op).value) && Attempt(s, env, op).Some?
    requires op.FtOnTransfer? || op.TakeJob? || op.TakeJobFor? || op.SubmitResult?
      || op.SubmitResultFor? || op.DesignateWinner?
    requires op.FtOnTransfer? ==> op.job in s.escrows
    ensures Touches(s, Attempt(s, env, op).value, JobOf(op).value)
  {
    match op
    case FtOnTransfer(sender, amount, j) => FundingKeepsJob(s, env, sender, amount, j);
    case TakeJob(j) => ClaimKeepsJob(s, env, j);
    case TakeJobFor(j, pk, sig) => ClaimForKeepsJob(s, env, j, pk, sig);
    case SubmitResult(j, result) => SubmitKeepsJob(s, env, j, result);
    case SubmitResultFor(j, result, pk, sig) => SubmitForKeepsJob(s, env, j, result, pk, sig);
    case DesignateWinner(j, idx) => DesignateKeepsJob(s, env, j, idx);
  }

  lemma LateCallsTouch(s: State, env: Env, op: Op)
    requires JobOf(op).Some? && JobOk(s, JobOf(op).value) && Attempt(s, env, op).Some?
    requires op.VerificationCallback? || op.SettleCallback? || op.RetrySettlement? || op.Cancel?
      || op.ForceCancelVerifying? || op.RefundExpired?
    ensures Touches(s, Attempt(s, env, op).value, JobOf(op).value)
  {
    match op
    case VerificationCallback(j, payload) => VerificationKeepsJob(s, j, payload);
    case SettleCallback(j, results) => CallbackKeepsJob(s, j, results);
    case RetrySettlement(j) => RetryKeepsJob(s, env, j);
    case Cancel(j) => CancelKeepsJob(s, env, j);
    case ForceCancelVerifying(j) => ForceCancelKeepsJob(s, env, j);
    case RefundExpired(j) => RefundExpiredKeepsJob(s, env, j);
  }

  lemma CallTouches(s: State, env: Env, op: Op)
    requires JobsInv(s) && Attempt(s, env, op).Some? && JobOf(op).Some?
    requires op.FtOnTransfer? ==> op.job in s.escrows
    ensures Touches(s, Attempt(s, env, op).value, JobOf(op).value)
  {
    assert JobOk(s, JobOf(op).value);
    if op.CreateEscrow? {
      NewJob(env, op.args, s.LedgerOf(op.args.job));
      CreateKeepsJob(s, env, op.args);
    } else if op.FtOnTransfer? || op.TakeJob? || op.TakeJobFor? || op.SubmitResult? || op.SubmitResultFor?
      || op.DesignateWinner? {
      EarlyCallsTouch(s, env, op);
    } else {
      LateCallsTouch(s, env, op);
    }
  }

  lemma CleanupKeepsJobs(s: State, gone: set<JobId>)
    requires JobsInv(s) && forall j :: j in gone ==> j in s.escrows
    ensures JobsInv(Removed(s, gone))
    ensures forall j :: j in Removed(s, gone).escrows ==> j in s.escrows && Removed(s, gone).escrows[j] == s.escrows[j]
  {
    var t := Removed(s, gone);
    forall j
      ensures JobOk(t, j)
    {
      assert JobOk(s, j);
    }
  }

  lemma TouchesKeepsJobs(s: State, t: State, j: JobId)
    requires JobsInv(s) && Touches(s, t, j)
    ensures JobsInv(t)
    ensures forall k :: k in s.escrows ==> k in t.escrows && Evolves(s.escrows[k], t.escrows[k])
  {
    forall k
      ensures JobOk(t, k)
    {
      assert JobOk(s, k);
      assert k != j ==> t.LedgerOf(k) == s.LedgerOf(k);
    }
  }

  /** One call, whatever it is: the invariant of every job holds on, and every job that is still
      there moved only as a job may. */
  lemma StepKeepsJobs(s: State, call: Call)
    requires JobsInv(s)
    ensures JobsInv(Apply(s, call))
    ensures forall j :: j in s.escrows && j in Apply(s, call).escrows ==>
        Evolves(s.escrows[j], Apply(s, call).escrows[j])
    ensures !call.op.CleanupCompleted? ==> s.escrows.Keys <= Apply(s, call).escrows.Keys
  {
    var env, op := call.env, call.op;
    var r := Attempt(s, env, op);
    if r.Some? {
      if op.CleanupCompleted? {
        CleanupKeepsJobs(s, op.gone);
      } else if JobOf(op).None? {
        WalletCallsKeepJobs(s, env, op);
        forall j
          ensures JobOk(r.value, j)
        {
          assert JobOk(s, j);
        }
      } else if op.FtOnTransfer? && op.job !in s.escrows {
        assert r.value == s;
      } else {
        CallTouches(s, env, op);
        TouchesKeepsJobs(s, r.value, JobOf(op).value);
      }
    }
  }
}

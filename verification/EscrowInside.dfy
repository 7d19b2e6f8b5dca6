/** Which settling calls pay at once: an internal worker without a fee to transfer is credited in the call
    itself; every other settlement moves no money before its batch does. */
module EscrowInside {
  import opened Basics
  import opened EscrowState
  import opened EscrowSpec
  import opened EscrowRuns
  import opened EscrowTraffic

  /** The settlement has nothing to transfer. */
  predicate NothingToSend(e: Escrow, target: Target) {
    e.workerPubkey.Some? && e.terms.fee == 0 && target == Claim
  }

  /** The settling calls that pay at once. */
  predicate PaysNow(op: Op, e: Escrow) {
    match op
    case VerificationCallback(_, payload) =>
      e.status == Verifying && NothingToSend(e, TargetOf(VerdictOf(payload, e.terms.scoreThreshold)))
    case RetrySettlement(_) =>
      && (e.retryCount + 1) % 256 <= MAX_SETTLEMENT_RETRIES
      && e.target.Some? && NothingToSend(e, e.target.value)
    case RefundExpired(_) => e.status == SettlementFailed && e.target.Some? && NothingToSend(e, e.target.value)
    case _ => false
  }

  /** The job's whole amount was credited to its worker's wallet, and the job is settled. */
  ghost predicate Credited(s: State, u: State, j: JobId, token: AccountId) {
    && Calm(s.outbox, u.outbox) && u.cfg == s.cfg
    && j in s.escrows && j in u.escrows && Funded(s.escrows[j]) && !Funded(u.escrows[j])
    && var e := s.escrows[j];
      && e.workerPubkey.Some?
      && WalletSum(u.balances, token) == WalletSum(s.balances, token)
           + if e.terms.token == token then CreditGain(s.balances, e.workerPubkey.value, token, e.terms.amount) else 0
  }

  /** No wallet was touched, and the job is owed what it was. */
  predicate Postponed(s: State, u: State, j: JobId) {
    u.cfg == s.cfg && SameBond(s, u, j) && (Quiet(s, u, j) || Launches(s, u, j))
  }

  ghost predicate Outcome(s: State, u: State, j: JobId, now: bool, token: AccountId) {
    if now then Credited(s, u, j, token) else Postponed(s, u, j)
  }

  lemma EmptyPlan(e: Escrow, owner: AccountId)
    requires Plan(e, owner).Some?
    ensures Plan(e, owner) == Some([]) <==> NothingToSend(e, e.target.value)
  {
  }

  lemma CreditsWhole(s: State, t: State, u: State, j: JobId, token: AccountId)
    requires j in s.escrows && Prepares(s, t, j) && j in t.escrows && SameWallets(t, u) && KeyOk(s.escrows[j])
    requires PaysInside(t, u, j, Deferred(t.escrows[j])) && token != NEAR_TOKEN_ID && Funded(s.escrows[j])
    requires t.escrows[j].terms == s.escrows[j].terms && t.escrows[j].workerPubkey == s.escrows[j].workerPubkey
    requires t.escrows[j].target.Some? && NothingToSend(t.escrows[j], t.escrows[j].target.value)
    ensures Credited(s, u, j, token)
  {
    CalmTwice(s.outbox, t.outbox, u.outbox);
    PendingSum(s.balances, Deferred(t.escrows[j]), token);
  }

  /** A settlement from a prepared state. */
  lemma SettleOutcome(s: State, t: State, j: JobId, token: AccountId)
    requires j in s.escrows && Prepares(s, t, j) && j in t.escrows && AfterSettle(t, j).Some?
    requires t.escrows[j].terms == s.escrows[j].terms && t.escrows[j].workerPubkey == s.escrows[j].workerPubkey
    requires Funded(t.escrows[j]) && Funded(s.escrows[j]) && KeyOk(s.escrows[j]) && token != NEAR_TOKEN_ID
    ensures t.escrows[j].target.Some?
    ensures Outcome(s, AfterSettle(t, j).value, j, NothingToSend(t.escrows[j], t.escrows[j].target.value), token)
  {
    EmptyPlan(t.escrows[j], t.cfg.owner);
    var plan := Plan(t.escrows[j], t.cfg.owner).value;
    if plan == [] {
      SettlePaysInside(t, j);
      CreditsWhole(s, t, AfterSettle(t, j).value, j, token);
    } else {
      SettleLaunchesPlan(s, t, j, plan);
      SettleLaunches(t, j, plan);
    }
  }

  lemma RefundOutcome(s: State, t: State, j: JobId, token: AccountId)
    requires j in s.escrows && j in t.escrows && Prepares(s, t, j) && FullyRefunding(t, j).Some?
    requires t.escrows[j].workerPubkey == s.escrows[j].workerPubkey && t.escrows[j].terms == s.escrows[j].terms
    requires Funded(s.escrows[j]) && (Funded(t.escrows[j]) || t.escrows[j].status == Cancelled)
    requires KeyOk(s.escrows[j]) && token != NEAR_TOKEN_ID
    ensures Postponed(s, FullyRefunding(t, j).value, j)
  {
    var t' := t.Put(j, t.escrows[j].(target := Some(FullRefund)));
    assert Prepares(s, t', j);
    SettleOutcome(s, t', j, token);
  }

  lemma VerificationOutcome(s: State, j: JobId, payload: Payload, token: AccountId)
    requires AfterVerification(s, j, payload).Some? && KeyOk(s.escrows[j]) && token != NEAR_TOKEN_ID
    ensures Outcome(s, AfterVerification(s, j, payload).value, j,
                    PaysNow(VerificationCallback(j, payload), s.escrows[j]), token)
  {
    if s.escrows[j].status == Verifying {
      JudgingPrepares(s, j, payload);
      JudgedShape(s, j, payload);
      SettleOutcome(s, JudgedState(s, j, payload), j, token);
    }
  }

  lemma MarkedIsPostponed(s: State, j: JobId, e: Escrow, from: Status)
    requires j in s.escrows && e.terms == s.escrows[j].terms && e.workerPubkey == s.escrows[j].workerPubkey
    requires Funded(e.(status := Cancelled)) == Funded(s.escrows[j])
    ensures Postponed(s, MarkedCancelled(s.Put(j, e), j, from), j)
  {
    assert Quiet(s, MarkedCancelled(s.Put(j, e), j, from), j);
  }

  lemma UnfundedOutcome(s: State, j: JobId)
    requires j in s.escrows && JobInv(s.escrows[j], s.LedgerOf(j)) && s.escrows[j].status == PendingFunding
    ensures Postponed(s, CancelledUnfunded(s, j), j)
  {
    assert s.escrows[j := s.escrows[j]] == s.escrows;
    MarkedIsPostponed(s, j, s.escrows[j], PendingFunding);
  }

  lemma GivingUpOutcome(s: State, j: JobId, e: Escrow)
    requires j in s.escrows && Retryable(s.escrows[j]) && e == s.escrows[j].(retryCount := e.retryCount)
    ensures Postponed(s, GivenUp(s, j, e), j)
  {
    MarkedIsPostponed(s, j, e, SettlementFailed);
    GivenUpIsMarked(s, j, e);
  }

  lemma RetriedOutcome(s: State, j: JobId, e: Escrow, token: AccountId)
    requires j in s.escrows && Retryable(s.escrows[j]) && e == s.escrows[j].(retryCount := e.retryCount)
    requires AfterSettle(s.Put(j, e), j).Some? && KeyOk(s.escrows[j]) && token != NEAR_TOKEN_ID
    ensures Outcome(s, AfterSettle(s.Put(j, e), j).value, j,
                    NothingToSend(s.escrows[j], s.escrows[j].target.value), token)
  {
    SettleOutcome(s, s.Put(j, e), j, token);
  }

  lemma RetryOutcome(s: State, env: Env, j: JobId, token: AccountId)
    requires AfterRetry(s, env, j).Some? && KeyOk(s.escrows[j]) && token != NEAR_TOKEN_ID
    ensures Outcome(s, AfterRetry(s, env, j).value, j, PaysNow(RetrySettlement(j), s.escrows[j]), token)
  {
    var e := s.escrows[j].(retryCount := (s.escrows[j].retryCount + 1) % 256);
    RetryIs(s, env, j);
    if e.retryCount > MAX_SETTLEMENT_RETRIES {
      GivingUpOutcome(s, j, e);
    } else {
      RetriedOutcome(s, j, e, token);
    }
  }

  lemma CancelOutcome(s: State, env: Env, j: JobId, token: AccountId)
    requires AfterCancel(s, env, j).Some? && JobInv(s.escrows[j], s.LedgerOf(j))
    requires KeyOk(s.escrows[j]) && token != NEAR_TOKEN_ID
    ensures Postponed(s, AfterCancel(s, env, j).value, j)
  {
    if s.escrows[j].status == Open {
      RefundOutcome(s, s, j, token);
    } else {
      UnfundedOutcome(s, j);
    }
  }

  lemma ForceCancelOutcome(s: State, env: Env, j: JobId, token: AccountId)
    requires AfterForceCancel(s, env, j).Some? && KeyOk(s.escrows[j]) && token != NEAR_TOKEN_ID
    ensures Postponed(s, AfterForceCancel(s, env, j).value, j)
  {
    CallingOffPrepares(s, j);
    CalledOffJob(s, j);
    RefundOutcome(s, CalledOff(s, j), j, token);
  }

  lemma ForfeitOutcome(s: State, j: JobId, token: AccountId)
    requires j in s.escrows && s.escrows[j].status == InProgress && KeyOk(s.escrows[j]) && token != NEAR_TOKEN_ID
    requires FullyRefunding(Released(s, j, Some(s.escrows[j].terms.agent)), j).Some?
    ensures Postponed(s, FullyRefunding(Released(s, j, Some(s.escrows[j].terms.agent)), j).value, j)
  {
    ReleasePrepares(s, j, Some(s.escrows[j].terms.agent));
    ReleaseBooks(s, j, Some(s.escrows[j].terms.agent));
    RefundOutcome(s, Released(s, j, Some(s.escrows[j].terms.agent)), j, token);
  }

  lemma ExpiredVerificationOutcome(s: State, j: JobId, token: AccountId)
    requires j in s.escrows && s.escrows[j].status == Verifying && KeyOk(s.escrows[j]) && token != NEAR_TOKEN_ID
    requires FullyRefunding(Abandoned(s, j, LegacyWorker(s.escrows[j])), j).Some?
    ensures Postponed(s, FullyRefunding(Abandoned(s, j, LegacyWorker(s.escrows[j])), j).value, j)
  {
    AbandonPrepares(s, j, LegacyWorker(s.escrows[j]));
    AbandonedJob(s, j, LegacyWorker(s.escrows[j]));
    RefundOutcome(s, Abandoned(s, j, LegacyWorker(s.escrows[j])), j, token);
  }

  lemma ExpiredIsPostponed(s: State, env: Env, j: JobId, token: AccountId)
    requires AfterRefundExpired(s, env, j).Some? && JobInv(s.escrows[j], s.LedgerOf(j))
    requires s.escrows[j].status != SettlementFailed && KeyOk(s.escrows[j]) && token != NEAR_TOKEN_ID
    ensures Postponed(s, AfterRefundExpired(s, env, j).value, j)
  {
    RefundExpiredIs(s, env, j);
    match s.escrows[j].status
    case PendingFunding => UnfundedOutcome(s, j);
    case Open => RefundOutcome(s, s, j, token);
    case InProgress => ForfeitOutcome(s, j, token);
    case Verifying => ExpiredVerificationOutcome(s, j, token);
  }

  lemma RefundExpiredOutcome(s: State, env: Env, j: JobId, token: AccountId)
    requires AfterRefundExpired(s, env, j).Some? && JobInv(s.escrows[j], s.LedgerOf(j))
    requires KeyOk(s.escrows[j]) && token != NEAR_TOKEN_ID
    ensures Outcome(s, AfterRefundExpired(s, env, j).value, j, PaysNow(RefundExpired(j), s.escrows[j]), token)
  {
    if s.escrows[j].status == SettlementFailed {
      RefundExpiredIs(s, env, j);
      hide AfterRefundExpired;
      SettleOutcome(s, s, j, token);
    } else {
      ExpiredIsPostponed(s, env, j, token);
    }
  }

  /** Every settling call: it credits the worker with the whole amount at once if `PaysNow` says so, and
      otherwise moves no money and owes what it owed. */
  lemma SettlingOutcome(s: State, env: Env, op: Op, token: AccountId)
    requires JobsInv(s) && KeysOk(s) && SettlingOp(op) && Attempt(s, env, op).Some? && token != NEAR_TOKEN_ID
    ensures JobOf(op).value in s.escrows
    ensures Outcome(s, Attempt(s, env, op).value, JobOf(op).value, PaysNow(op, s.escrows[JobOf(op).value]), token)
  {
    assert JobOk(s, JobOf(op).value);
    hide Outcome, JobsInv, KeysOk;
    match op
    case VerificationCallback(j, payload) => VerificationOutcome(s, j, payload, token);
    case RetrySettlement(j) => RetryOutcome(s, env, j, token);
    case Cancel(j) => CancelOutcome(s, env, j, token);
    case ForceCancelVerifying(j) => ForceCancelOutcome(s, env, j, token);
    case RefundExpired(j) => RefundExpiredOutcome(s, env, j, token);
  }
}

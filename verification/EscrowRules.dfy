/** Who may move a job, when, and from where to where; and what follows for whoever waits for it. */
module EscrowRules {
  import opened Basics
  import opened EscrowState
  import opened EscrowSpec
  import opened EscrowRuns
  import opened EscrowTraffic
  import opened EscrowPayees
  import EscrowParties
  import EscrowStats
  import EscrowTheorems
  import Hex
  import Messages

  predicate Expired(e: Escrow, env: Env) {
    env.nowMs > e.terms.createdAt + e.terms.timeoutMs
  }

  /** A day after the result came in. */
  predicate Overdue(e: Escrow, env: Env) {
    env.nowMs >= 86_400_000 + if e.verifyingSince.Some? then e.verifyingSince.value else e.terms.createdAt
  }

  predicate BeforeDeadline(e: Escrow, env: Env) {
    e.terms.deadlineBlock.Some? ==> env.height <= e.terms.deadlineBlock.value
  }

  /** The worker's key signed this action, for this contract, with the nonce that is due. */
  predicate SignedBy(s: State, env: Env, pk: Pubkey, a: Messages.Action, sig: seq<Byte>) {
    && Hex.Decode(pk).Some? && |Hex.Decode(pk).value| == 32 && |sig| == 64
    && env.ed25519(Hex.Decode(pk).value,
                   Messages.Message(s.cfg.self, a, if pk in s.workers then s.workers[pk].nonce else 0), sig)
  }

  /** The sixth retry: the counter has 8 bits. */
  predicate OutOfRetries(e: Escrow) {
    5 <= e.retryCount < 255
  }

  // ---- every change of status has its cause ----

  predicate Opens(env: Env, op: Op, e: Escrow) {
    && op.FtOnTransfer? && env.predecessor == e.terms.token
    && op.sender == e.terms.agent && op.amount == e.terms.amount
  }

  predicate Takes(s: State, env: Env, op: Op, e: Escrow, e': Escrow) {
    && !s.cfg.paused && e'.worker == Some(env.signer)
    && ((op.TakeJob? && env.signer != e.terms.agent && env.deposit >= s.cfg.workerStake
         && e'.workerPubkey.None? && e'.workerStake == Some(env.deposit))
        || (op.TakeJobFor? && op.pk != e.terms.agent && op.pk !in s.pausedWorkers
            && SignedBy(s, env, op.pk, Messages.ClaimJob(op.job), op.sig)
            && e'.workerPubkey == Some(op.pk) && e'.workerStake == Some(s.cfg.workerStake)))
  }

  predicate Delivers(s: State, env: Env, op: Op, e: Escrow, e': Escrow) {
    && !s.cfg.paused && e'.verifyingSince == Some(env.nowMs) && e'.dataId == Some(env.yieldId)
    && ((op.SubmitResult? && e.worker == Some(env.signer) && e'.result == Some(op.result) && 0 < |op.result| <= 8192)
        || (op.SubmitResultFor? && e.workerPubkey == Some(op.pk) && op.pk !in s.pausedWorkers
            && SignedBy(s, env, op.pk, Messages.SubmitJob(op.job), op.sig)
            && e'.result == Some(op.result) && 0 < |op.result| <= 8192))
  }

  predicate Names(s: State, env: Env, op: Op, e: Escrow, e': Escrow) {
    && op.DesignateWinner? && e.terms.mode == Competitive
    && (env.predecessor == e.terms.agent || env.predecessor == s.cfg.owner)
    && !Expired(e, env) && BeforeDeadline(e, env)
    && e'.winner == Some(op.idx) && e'.verifyingSince == Some(env.nowMs) && e'.dataId == Some(env.yieldId)
  }

  /** Every promise of the batch went through. */
  predicate Lands(op: Op, e: Escrow) {
    op.SettleCallback? && e.target.Some? && op.results != [] && false !in op.results
  }

  /** Paid inside: there is an internal worker and no fee. */
  predicate PaysAtOnce(s: State, env: Env, op: Op, e: Escrow) {
    && e.workerPubkey.Some? && e.terms.fee == 0
    && match op
       case VerificationCallback(_, payload) => e.status == Verifying && Passing(payload, e.terms.scoreThreshold)
       case RetrySettlement(_) =>
         && e.target == Some(Claim) && !OutOfRetries(e)
         && (env.predecessor == s.cfg.owner || Expired(e, env))
       case RefundExpired(_) => e.target == Some(Claim) && e.status == SettlementFailed && Expired(e, env)
       case _ => false
  }

  predicate CallsOff(s: State, env: Env, op: Op, e: Escrow) {
    match op
    case Cancel(_) => e.status == PendingFunding && env.signer == e.terms.agent
    case RefundExpired(_) => e.status == PendingFunding && !s.cfg.paused && Expired(e, env)
    case ForceCancelVerifying(_) => e.status == Verifying && env.predecessor == s.cfg.owner && Overdue(e, env)
    case RetrySettlement(_) => e.target.Some? && OutOfRetries(e)
    case _ => false
  }

  /** What may have brought a job from one status to another. */
  predicate Caused(s: State, env: Env, op: Op, e: Escrow, e': Escrow) {
    match e'.status
    case PendingFunding => false
    case Open => e.status == PendingFunding && Opens(env, op, e)
    case InProgress => e.status == Open && Takes(s, env, op, e, e')
    case Verifying =>
      || (e.status == InProgress && Delivers(s, env, op, e, e'))
      || (e.status == Open && Names(s, env, op, e, e'))
    case Claimed => (e.target == Some(Claim) && Lands(op, e)) || PaysAtOnce(s, env, op, e)
    case Refunded => e.target != Some(Claim) && Lands(op, e)
    case Cancelled => CallsOff(s, env, op, e)
    case SettlementFailed => op.SettleCallback? && e.target.Some? && false in op.results
  }

  /** And a settlement starts only for a verdict, on the agent's word, by the owner after a day, or at expiry. */
  predicate Aims(s: State, env: Env, op: Op, e: Escrow, e': Escrow) {
    match op
    case VerificationCallback(_, payload) => e.status == Verifying
    case Cancel(_) => e.status == Open && env.signer == e.terms.agent
    case ForceCancelVerifying(_) => e.status == Verifying && env.predecessor == s.cfg.owner && Overdue(e, env)
    case RefundExpired(_) => !s.cfg.paused && Expired(e, env) && (e.status == Verifying ==> Overdue(e, env))
    case SettleCallback(_, _) => e'.target.None? && Lands(op, e)
    case RetrySettlement(_) => e'.target.None? && PaysAtOnce(s, env, op, e)
    case _ => false
  }

  /** A new submission: in time, the first one of its account or key, and not one too many. */
  predicate Joins(s: State, env: Env, op: Op, e: Escrow, e': Escrow) {
    && !s.cfg.paused && e.terms.mode == Competitive && e.status == Open && BeforeDeadline(e, env)
    && |e.submissions| < (if e.terms.maxSubmissions.Some? then e.terms.maxSubmissions.value else 0xFFFF_FFFF)
    && match op
       case SubmitResult(_, result) =>
         && 0 < |result| <= 2048 && env.deposit >= s.cfg.workerStake
         && e'.submissions == e.submissions + [Submission(env.signer, result, s.cfg.workerStake, None)]
         && forall k :: 0 <= k < |e.submissions| ==> e.submissions[k].worker != env.signer
       case SubmitResultFor(j, result, pk, sig) =>
         && 0 < |result| <= 2048 && pk !in s.pausedWorkers && SignedBy(s, env, pk, Messages.SubmitJob(j), sig)
         && e'.submissions == e.submissions + [Submission(env.signer, result, s.cfg.workerStake, Some(pk))]
         && forall k :: 0 <= k < |e.submissions| ==> e.submissions[k].pubkey != Some(pk)
       case _ => false
  }

  ghost predicate Lawful(s: State, env: Env, op: Op, u: State, j: JobId) {
    && j in s.escrows && j in u.escrows
    && (u.escrows[j].submissions != s.escrows[j].submissions ==> Joins(s, env, op, s.escrows[j], u.escrows[j]))
    && (u.escrows[j].status != s.escrows[j].status ==> Caused(s, env, op, s.escrows[j], u.escrows[j]))
    && (u.escrows[j].target != s.escrows[j].target ==> Aims(s, env, op, s.escrows[j], u.escrows[j]))
  }

  // ---- settlements ----

  /** Where a settlement leaves a job that was brought to `e0`. */
  lemma SettlementLeaves(t: State, j: JobId)
    requires j in t.escrows && ReadyToSettle(t.escrows[j], t.LedgerOf(j))
    ensures AfterSettle(t, j).Some? && j in AfterSettle(t, j).value.escrows
    ensures var e0, e' := t.escrows[j], AfterSettle(t, j).value.escrows[j];
      && e'.submissions == e0.submissions
      && if e0.target == Some(Claim) && e0.workerPubkey.Some? && e0.terms.fee == 0
         then e'.status == Claimed && e'.target.None?
         else e'.status == e0.status && e'.target == e0.target
  {
    PlanIsDue(t.escrows[j], t.LedgerOf(j), t.cfg.owner);
    EscrowParties.SettledIs(t.escrows[j], t.LedgerOf(j), t.cfg.owner);
    SettleShape(t, j);
  }

  lemma RefundLeaves(t: State, j: JobId, l: Ledger)
    requires j in t.escrows && l == t.LedgerOf(j) && ReadyToSettle(t.escrows[j].(target := Some(FullRefund)), l)
    ensures FullyRefunding(t, j).Some? && j in FullyRefunding(t, j).value.escrows
    ensures var e' := FullyRefunding(t, j).value.escrows[j];
      && e'.status == t.escrows[j].status && e'.target == Some(FullRefund)
      && e'.submissions == t.escrows[j].submissions
  {
    SettlementLeaves(t.Put(j, t.escrows[j].(target := Some(FullRefund))), j);
  }

  lemma VerificationIsLawful(s: State, env: Env, j: JobId, payload: Payload)
    requires j in s.escrows && JobInv(s.escrows[j], s.LedgerOf(j)) && AfterVerification(s, j, payload).Some?
    ensures Lawful(s, env, VerificationCallback(j, payload), AfterVerification(s, j, payload).value, j)
  {
    if s.escrows[j].status == Verifying {
      EscrowParties.VerdictStored(s, j, payload);
    }
  }

  lemma RetriedLeaves(s: State, j: JobId, count: Byte)
    requires j in s.escrows && JobInv(s.escrows[j], s.LedgerOf(j)) && Retryable(s.escrows[j])
    ensures var e := s.escrows[j].(retryCount := count);
      && AfterSettle(s.Put(j, e), j).Some? && j in AfterSettle(s.Put(j, e), j).value.escrows
      && var e' := AfterSettle(s.Put(j, e), j).value.escrows[j];
        && e'.submissions == e.submissions
        && if e.target == Some(Claim) && e.workerPubkey.Some? && e.terms.fee == 0
           then e'.status == Claimed && e'.target.None? else e'.status == e.status && e'.target == e.target
  {
    RetriedJob(s.escrows[j], s.LedgerOf(j), count);
    SettlementLeaves(s.Put(j, s.escrows[j].(retryCount := count)), j);
  }

  lemma RetryLeaves(s: State, env: Env, j: JobId)
    requires j in s.escrows && JobInv(s.escrows[j], s.LedgerOf(j)) && AfterRetry(s, env, j).Some?
    ensures j in AfterRetry(s, env, j).value.escrows
    ensures var e, e' := s.escrows[j], AfterRetry(s, env, j).value.escrows[j];
      && e'.submissions == e.submissions
      && if OutOfRetries(e) then e'.status == Cancelled && e'.target == e.target
         else if e.target == Some(Claim) && e.workerPubkey.Some? && e.terms.fee == 0
         then e'.status == Claimed && e'.target.None?
         else e'.status == e.status && e'.target == e.target
  {
    hide AfterRetry, AfterSettle, GivenUp;
    var count: Byte := (s.escrows[j].retryCount + 1) % 256;
    RetryIs(s, env, j);
    RetriedLeaves(s, j, count);
    GivenUpLeaves(s, j, s.escrows[j].(retryCount := count));
  }

  lemma RetryAllowed(s: State, env: Env, j: JobId)
    requires AfterRetry(s, env, j).Some?
    ensures j in s.escrows && s.escrows[j].target.Some?
    ensures OutOfRetries(s.escrows[j]) || env.predecessor == s.cfg.owner || Expired(s.escrows[j], env)
  {
  }

  lemma RetryIsLawful(s: State, env: Env, j: JobId)
    requires j in s.escrows && JobInv(s.escrows[j], s.LedgerOf(j)) && AfterRetry(s, env, j).Some?
    ensures Lawful(s, env, RetrySettlement(j), AfterRetry(s, env, j).value, j)
  {
    RetryLeaves(s, env, j);
    RetryAllowed(s, env, j);
  }

  lemma GivenUpLeaves(s: State, j: JobId, e: Escrow)
    ensures j in GivenUp(s, j, e).escrows && GivenUp(s, j, e).escrows[j] == e.(status := Cancelled)
  {
  }

  lemma OpenRefundLeaves(s: State, j: JobId)
    requires j in s.escrows && JobInv(s.escrows[j], s.LedgerOf(j)) && s.escrows[j].status == Open
    ensures FullyRefunding(s, j).Some? && j in FullyRefunding(s, j).value.escrows
    ensures FullyRefunding(s, j).value.escrows[j].status == Open
    ensures FullyRefunding(s, j).value.escrows[j].submissions == s.escrows[j].submissions
  {
    FullRefundIsReady(s.escrows[j], s.LedgerOf(j), None, Open);
    RefundLeaves(s, j, s.LedgerOf(j));
  }

  lemma CancelIsLawful(s: State, env: Env, j: JobId)
    requires j in s.escrows && JobInv(s.escrows[j], s.LedgerOf(j)) && AfterCancel(s, env, j).Some?
    ensures Lawful(s, env, Cancel(j), AfterCancel(s, env, j).value, j)
  {
    if s.escrows[j].status == Open {
      OpenRefundLeaves(s, j);
    }
  }

  lemma CalledOffLeaves(s: State, j: JobId)
    requires j in s.escrows && JobInv(s.escrows[j], s.LedgerOf(j)) && s.escrows[j].status == Verifying
    ensures FullyRefunding(CalledOff(s, j), j).Some? && j in FullyRefunding(CalledOff(s, j), j).value.escrows
    ensures FullyRefunding(CalledOff(s, j), j).value.escrows[j].status == Cancelled
    ensures FullyRefunding(CalledOff(s, j), j).value.escrows[j].submissions == s.escrows[j].submissions
  {
    var e := s.escrows[j];
    CalledOffJob(s, j);
    ReleaseBooks(s, j, e.worker);
    FullRefundIsReady(e, s.LedgerOf(j), e.worker, Cancelled);
    RefundLeaves(CalledOff(s, j), j, ReleasedLedger(e, s.LedgerOf(j), e.worker));
  }

  lemma ForceCancelIsLawful(s: State, env: Env, j: JobId)
    requires j in s.escrows && JobInv(s.escrows[j], s.LedgerOf(j)) && AfterForceCancel(s, env, j).Some?
    ensures Lawful(s, env, ForceCancelVerifying(j), AfterForceCancel(s, env, j).value, j)
  {
    CalledOffLeaves(s, j);
  }

  lemma ForfeitLeaves(s: State, j: JobId, to: Option<AccountId>)
    requires j in s.escrows && JobInv(s.escrows[j], s.LedgerOf(j)) && s.escrows[j].status == InProgress
    ensures FullyRefunding(Released(s, j, to), j).Some? && j in FullyRefunding(Released(s, j, to), j).value.escrows
    ensures FullyRefunding(Released(s, j, to), j).value.escrows[j].status == InProgress
    ensures FullyRefunding(Released(s, j, to), j).value.escrows[j].submissions == s.escrows[j].submissions
  {
    ReleaseBooks(s, j, to);
    FullRefundIsReady(s.escrows[j], s.LedgerOf(j), to, InProgress);
    RefundLeaves(Released(s, j, to), j, ReleasedLedger(s.escrows[j], s.LedgerOf(j), to));
  }

  lemma AbandonedLeaves(s: State, j: JobId, to: Option<AccountId>)
    requires j in s.escrows && JobInv(s.escrows[j], s.LedgerOf(j)) && s.escrows[j].status == Verifying
    ensures FullyRefunding(Abandoned(s, j, to), j).Some? && j in FullyRefunding(Abandoned(s, j, to), j).value.escrows
    ensures FullyRefunding(Abandoned(s, j, to), j).value.escrows[j].status == Verifying
    ensures FullyRefunding(Abandoned(s, j, to), j).value.escrows[j].submissions == s.escrows[j].submissions
  {
    AbandonedJob(s, j, to);
    ReleaseBooks(s, j, to);
    FullRefundIsReady(s.escrows[j], s.LedgerOf(j), to, Verifying);
    RefundLeaves(Abandoned(s, j, to), j, ReleasedLedger(s.escrows[j], s.LedgerOf(j), to));
  }

  lemma ExpiryIsLawful(s: State, env: Env, j: JobId)
    requires j in s.escrows && JobInv(s.escrows[j], s.LedgerOf(j)) && AfterRefundExpired(s, env, j).Some?
    ensures Lawful(s, env, RefundExpired(j), AfterRefundExpired(s, env, j).value, j)
  {
    RefundExpiredIs(s, env, j);
    match s.escrows[j].status
    case PendingFunding =>
    case Open => OpenRefundLeaves(s, j);
    case InProgress => ForfeitLeaves(s, j, Some(s.escrows[j].terms.agent));
    case Verifying => AbandonedLeaves(s, j, LegacyWorker(s.escrows[j]));
    case SettlementFailed => SettlementLeaves(s, j);
  }

  lemma CallbackIsLawful(s: State, env: Env, j: JobId, results: seq<bool>)
    requires j in s.escrows && JobInv(s.escrows[j], s.LedgerOf(j)) && AfterSettleCallback(s, j, results).Some?
    ensures Lawful(s, env, SettleCallback(j, results), AfterSettleCallback(s, j, results).value, j)
  {
    assert AllOk(results) <==> false !in results;
  }

  // ---- the other calls ----

  lemma ClaimForIsLawful(s: State, env: Env, j: JobId, pk: Pubkey, sig: seq<Byte>)
    requires j in s.escrows && JobInv(s.escrows[j], s.LedgerOf(j)) && AfterClaimFor(s, env, j, pk, sig).Some?
    ensures Lawful(s, env, TakeJobFor(j, pk, sig), AfterClaimFor(s, env, j, pk, sig).value, j)
  {
    SigningTraffic(s, env, pk, Messages.ClaimJob(j), sig);
    EscrowStats.SigningKeepsStats(s, env, pk, Messages.ClaimJob(j), sig);
  }

  /** A submission to a competition leaves the job where it stands. */
  predicate StaysPut(t: State, u: State, j: JobId) {
    && j in t.escrows && j in u.escrows
    && u.escrows[j].status == t.escrows[j].status && u.escrows[j].target == t.escrows[j].target
    && u.escrows[j].submissions == t.escrows[j].submissions
  }

  /** The result is in, and the job goes to the verifier. */
  predicate HandsIn(t: State, u: State, env: Env, j: JobId, result: string) {
    && j in t.escrows && j in u.escrows && t.escrows[j].status == InProgress
    && var e' := u.escrows[j];
      && e'.status == Verifying && e'.result == Some(result) && e'.target == t.escrows[j].target
      && e'.verifyingSince == Some(env.nowMs) && e'.dataId == Some(env.yieldId)
      && e'.submissions == t.escrows[j].submissions
  }

  /** One more submission, of this one. */
  predicate Enters(t: State, u: State, env: Env, j: JobId, sub: Submission) {
    && j in t.escrows && j in u.escrows
    && u.escrows[j].status == t.escrows[j].status && u.escrows[j].target == t.escrows[j].target
    && u.escrows[j].submissions == t.escrows[j].submissions + [sub]
    && t.escrows[j].status == Open && BeforeDeadline(t.escrows[j], env) && |sub.result| <= 2048
    && |t.escrows[j].submissions|
         < (if t.escrows[j].terms.maxSubmissions.Some? then t.escrows[j].terms.maxSubmissions.value else 0xFFFF_FFFF)
  }

  lemma CompetitiveEnters(t: State, env: Env, j: JobId, result: string)
    requires j in t.escrows && CompetitiveResult(t, env, j, result).Some?
    ensures var u := CompetitiveResult(t, env, j, result).value;
      if exists k :: 0 <= k < |t.escrows[j].submissions| && t.escrows[j].submissions[k].worker == env.signer
      then StaysPut(t, u, j)
      else Enters(t, u, env, j, Submission(env.signer, result, t.cfg.workerStake, None))
    ensures env.deposit >= t.cfg.workerStake
  {
  }

  lemma CompetitiveForEnters(t: State, env: Env, j: JobId, result: string, pk: Pubkey)
    requires j in t.escrows && CompetitiveResultFor(t, env, j, result, pk).Some?
    ensures var u := CompetitiveResultFor(t, env, j, result, pk).value;
      if exists k :: 0 <= k < |t.escrows[j].submissions| && t.escrows[j].submissions[k].pubkey == Some(pk)
      then StaysPut(t, u, j)
      else Enters(t, u, env, j, Submission(env.signer, result, t.cfg.workerStake, Some(pk)))
  {
  }

  lemma StandardHandsIn(t: State, env: Env, j: JobId, result: string, pk: Pubkey)
    requires j in t.escrows
    ensures StandardResult(t, env, j, result).Some? ==>
      var u := StandardResult(t, env, j, result).value;
      StaysPut(t, u, j) || (HandsIn(t, u, env, j, result) && t.escrows[j].worker == Some(env.signer))
    ensures StandardResultFor(t, env, j, result, pk).Some? ==>
      var u := StandardResultFor(t, env, j, result, pk).value;
      StaysPut(t, u, j) || (HandsIn(t, u, env, j, result) && t.escrows[j].workerPubkey == Some(pk))
  {
  }

  lemma SubmitIsLawful(s: State, env: Env, j: JobId, result: string)
    requires j in s.escrows && JobInv(s.escrows[j], s.LedgerOf(j)) && AfterSubmitResult(s, env, j, result).Some?
    ensures Lawful(s, env, SubmitResult(j, result), AfterSubmitResult(s, env, j, result).value, j)
  {
    if s.escrows[j].terms.mode == Competitive {
      CompetitiveEnters(s, env, j, result);
    } else {
      StandardHandsIn(s, env, j, result, "");
    }
  }

  lemma SubmitForIs(s: State, env: Env, j: JobId, result: string, pk: Pubkey, sig: seq<Byte>)
    requires AfterSubmitResultFor(s, env, j, result, pk, sig).Some?
    ensures !s.cfg.paused && 0 < |result| <= 8192 && pk !in s.pausedWorkers && j in s.escrows
    ensures Authorized(Known(s, pk), env, pk, Messages.SubmitJob(j), sig).Some?
    ensures var t := Authorized(Known(s, pk), env, pk, Messages.SubmitJob(j), sig).value;
      && t.escrows == s.escrows && t.cfg == s.cfg
      && AfterSubmitResultFor(s, env, j, result, pk, sig) == ResultFor(t, env, j, result, pk)
    ensures SignedBy(s, env, pk, Messages.SubmitJob(j), sig)
  {
    SigningTraffic(Known(s, pk), env, pk, Messages.SubmitJob(j), sig);
  }

  lemma SubmitForIsLawful(s: State, env: Env, j: JobId, result: string, pk: Pubkey, sig: seq<Byte>)
    requires j in s.escrows && JobInv(s.escrows[j], s.LedgerOf(j))
    requires AfterSubmitResultFor(s, env, j, result, pk, sig).Some?
    ensures
      Lawful(s, env, SubmitResultFor(j, result, pk, sig), AfterSubmitResultFor(s, env, j, result, pk, sig).value, j)
  {
    SubmitForIs(s, env, j, result, pk, sig);
    var t := Authorized(Known(s, pk), env, pk, Messages.SubmitJob(j), sig).value;
    if s.escrows[j].terms.mode == Competitive {
      CompetitiveForEnters(t, env, j, result, pk);
    } else {
      StandardHandsIn(t, env, j, result, pk);
    }
  }

  lemma DesignateIsLawful(s: State, env: Env, j: JobId, idx: nat)
    requires j in s.escrows && JobInv(s.escrows[j], s.LedgerOf(j)) && AfterDesignateWinner(s, env, j, idx).Some?
    ensures Lawful(s, env, DesignateWinner(j, idx), AfterDesignateWinner(s, env, j, idx).value, j)
  {
    if s.escrows[j].status == Open {
      EscrowParties.WinnerIsBound(s, env, j, idx);
    }
  }

  lemma OpeningIsLawful(s: State, env: Env, op: Op)
    requires op.FtOnTransfer? || op.TakeJob?
    requires op.job in s.escrows && JobInv(s.escrows[op.job], s.LedgerOf(op.job)) && Attempt(s, env, op).Some?
    ensures Lawful(s, env, op, Attempt(s, env, op).value, op.job)
  {
  }

  lemma JobCallIsLawful(s: State, env: Env, op: Op)
    requires JobsInv(s) && JobOf(op).Some? && JobOf(op).value in s.escrows && Attempt(s, env, op).Some?
    ensures Lawful(s, env, op, Attempt(s, env, op).value, JobOf(op).value)
  {
    assert JobOk(s, JobOf(op).value);
    match op
    case TakeJobFor(j, pk, sig) => ClaimForIsLawful(s, env, j, pk, sig);
    case SubmitResult(j, result) => SubmitIsLawful(s, env, j, result);
    case SubmitResultFor(j, result, pk, sig) => SubmitForIsLawful(s, env, j, result, pk, sig);
    case DesignateWinner(j, idx) => DesignateIsLawful(s, env, j, idx);
    case VerificationCallback(j, payload) => VerificationIsLawful(s, env, j, payload);
    case SettleCallback(j, results) => CallbackIsLawful(s, env, j, results);
    case RetrySettlement(j) => RetryIsLawful(s, env, j);
    case Cancel(j) => CancelIsLawful(s, env, j);
    case ForceCancelVerifying(j) => ForceCancelIsLawful(s, env, j);
    case RefundExpired(j) => ExpiryIsLawful(s, env, j);
    case _ => OpeningIsLawful(s, env, op);
  }

  // ---- every step, every run ----

  /** Over every call there is, from every reachable state: a job changes its status, its settlement's aim or its
      submissions only for one of the causes above, and goes away only once it is finished. */
  lemma ChangesHaveCauses(s: State, call: Call, j: JobId)
    requires EscrowTheorems.Reachable(s) && j in s.escrows
    ensures j !in Apply(s, call).escrows ==>
      && call.op.CleanupCompleted?
      && (s.escrows[j].status == Claimed || s.escrows[j].status == Refunded || s.escrows[j].status == Cancelled)
    ensures j in Apply(s, call).escrows && Apply(s, call).escrows[j] != s.escrows[j] ==>
      JobOf(call.op) == Some(j) && Lawful(s, call.env, call.op, Apply(s, call), j)
  {
    EscrowTheorems.ReachableInv(s);
    var env, op := call.env, call.op;
    if Attempt(s, env, op).Some? {
      if JobOf(op) == Some(j) {
        JobCallIsLawful(s, env, op);
      } else if JobOf(op).Some? {
        if !(op.FtOnTransfer? && op.job !in s.escrows) {
          CallTouches(s, env, op);
        }
      } else if !op.CleanupCompleted? {
        WalletCallsKeepJobs(s, env, op);
      }
    }
  }

  lemma ReachesOn(s: State, call: Call)
    requires EscrowTheorems.Reachable(s)
    ensures EscrowTheorems.Reachable(Apply(s, call))
  {
    var self, owner, allowed, calls :| s == Run(Initial(self, owner, allowed), calls);
    var more := calls + [call];
    assert more[..|more| - 1] == calls;
    assert Apply(s, call) == Run(Initial(self, owner, allowed), more);
  }

  lemma {:induction false} ReachesFar(s: State, calls: seq<Call>)
    requires EscrowTheorems.Reachable(s)
    ensures EscrowTheorems.Reachable(Run(s, calls))
  {
    if calls != [] {
      ReachesFar(s, calls[..|calls| - 1]);
      ReachesOn(Run(s, calls[..|calls| - 1]), calls[|calls| - 1]);
    }
  }

  /** A call that leaves the worker its time: not after expiry, and not the worker's own submission. */
  predicate LeavesTime(call: Call, e: Escrow, j: JobId) {
    && !Expired(e, call.env)
    && (call.op.SubmitResult? && call.op.job == j ==> Some(call.env.signer) != e.worker)
    && (call.op.SubmitResultFor? && call.op.job == j ==> Some(call.op.pk) != e.workerPubkey)
  }

  /** At work, with no refund of the job under way. */
  predicate AtWork(e: Escrow) {
    e.status == InProgress && e.target.None?
  }

  lemma WorkGoesOn(s: State, call: Call, j: JobId)
    requires EscrowTheorems.Reachable(s) && j in s.escrows && AtWork(s.escrows[j]) && LeavesTime(call, s.escrows[j], j)
    ensures var u := Apply(s, call);
      && j in u.escrows && AtWork(u.escrows[j]) && u.escrows[j].terms == s.escrows[j].terms
      && u.escrows[j].worker == s.escrows[j].worker && u.escrows[j].workerPubkey == s.escrows[j].workerPubkey
  {
    EscrowTheorems.ReachableInv(s);
    assert JobOk(s, j);
    ChangesHaveCauses(s, call, j);
    StepKeepsJobs(s, call);
  }

  /** A worker who claimed a job has it until the job expires: whatever anyone calls before that, the agent and
      the owner included, only the worker's own submission moves it. */
  lemma {:induction false} WorkerHasItsTime(s: State, calls: seq<Call>, j: JobId)
    requires EscrowTheorems.Reachable(s) && j in s.escrows && AtWork(s.escrows[j])
    requires forall i :: 0 <= i < |calls| ==> LeavesTime(calls[i], s.escrows[j], j)
    ensures var u := Run(s, calls);
      && j in u.escrows && AtWork(u.escrows[j]) && u.escrows[j].terms == s.escrows[j].terms
      && u.escrows[j].worker == s.escrows[j].worker && u.escrows[j].workerPubkey == s.escrows[j].workerPubkey
  {
    if calls != [] {
      var before := calls[..|calls| - 1];
      WorkerHasItsTime(s, before, j);
      ReachesFar(s, before);
      WorkGoesOn(Run(s, before), calls[|calls| - 1], j);
    }
  }

  /** Delivered, not judged, and nothing of it under way. */
  predicate AwaitsVerdict(e: Escrow) {
    e.status == Verifying && e.target.None?
  }

  lemma VerdictStillDue(s: State, call: Call, j: JobId)
    requires EscrowTheorems.Reachable(s) && j in s.escrows && AwaitsVerdict(s.escrows[j])
    requires !Overdue(s.escrows[j], call.env) && !(call.op.VerificationCallback? && call.op.job == j)
    ensures j in Apply(s, call).escrows && AwaitsVerdict(Apply(s, call).escrows[j])
  {
    ChangesHaveCauses(s, call, j);
  }

  lemma HarmlessWhileVerifying(s: State, env: Env, op: Op)
    requires HarmlessOp(op) && JobOf(op).value in s.escrows && s.escrows[JobOf(op).value].status == Verifying
    requires Attempt(s, env, op).Some?
    ensures Attempt(s, env, op).value.escrows == s.escrows
  {
    match op
    case SubmitResultFor(j, result, pk, sig) => SubmitForIs(s, env, j, result, pk, sig);
    case TakeJobFor(j, pk, sig) => SigningTraffic(s, env, pk, Messages.ClaimJob(j), sig);
    case _ =>
  }

  lemma VerifyingStandsStill(s: State, call: Call, j: JobId)
    requires EscrowTheorems.Reachable(s) && j in s.escrows && AwaitsVerdict(s.escrows[j])
    requires !Overdue(s.escrows[j], call.env) && !(call.op.VerificationCallback? && call.op.job == j)
    ensures j in Apply(s, call).escrows && Apply(s, call).escrows[j] == s.escrows[j]
  {
    VerdictStillDue(s, call, j);
    ChangesHaveCauses(s, call, j);
    if Attempt(s, call.env, call.op).Some? && JobOf(call.op) == Some(j) {
      if HarmlessOp(call.op) {
        HarmlessWhileVerifying(s, call.env, call.op);
      } else if SettlingOp(call.op) {
        assert AfterRefundExpired(s, call.env, j).Some? ==> Overdue(s.escrows[j], call.env);
      }
    }
  }

  /** And a delivered result waits for its verdict: for a day after it came in, nothing but the yield's
      callback changes the job in any way. */
  lemma {:induction false} ResultHasItsDay(s: State, calls: seq<Call>, j: JobId)
    requires EscrowTheorems.Reachable(s) && j in s.escrows && AwaitsVerdict(s.escrows[j])
    requires forall i :: 0 <= i < |calls| ==>
      !Overdue(s.escrows[j], calls[i].env) && !(calls[i].op.VerificationCallback? && calls[i].op.job == j)
    ensures j in Run(s, calls).escrows && Run(s, calls).escrows[j] == s.escrows[j]
  {
    if calls != [] {
      var before := calls[..|calls| - 1];
      ResultHasItsDay(s, before, j);
      ReachesFar(s, before);
      VerifyingStandsStill(Run(s, before), calls[|calls| - 1], j);
    }
  }

  // ---- entries of a competition ----

  /** Nobody is in twice, and no more are in than may be. */
  predicate FairField(e: Escrow) {
    && |e.submissions| <= (if e.terms.maxSubmissions.Some? then e.terms.maxSubmissions.value else 0xFFFF_FFFF)
    && forall i, k :: 0 <= i < k < |e.submissions| ==>
      if e.submissions[k].pubkey.Some? then e.submissions[i].pubkey != e.submissions[k].pubkey
      else e.submissions[i].worker != e.submissions[k].worker
  }

  ghost predicate FairFields(s: State) {
    forall j :: j in s.escrows ==> FairField(s.escrows[j])
  }

  lemma JoiningIsFair(s: State, env: Env, op: Op, e: Escrow, e': Escrow)
    requires FairField(e) && e'.terms == e.terms && (e'.submissions == e.submissions || Joins(s, env, op, e, e'))
    ensures FairField(e')
  {
  }

  lemma NewJobHasNone(s: State, call: Call, j: JobId)
    requires JobsInv(s) && j !in s.escrows && j in Apply(s, call).escrows
    ensures call.op.CreateEscrow? && call.op.args.job == j && AfterCreate(s, call.env, call.op.args).Some?
    ensures Apply(s, call).escrows[j] == NewEscrow(call.env, call.op.args)
  {
    var env, op := call.env, call.op;
    if JobOf(op).None? {
      if !op.CleanupCompleted? {
        WalletCallsKeepJobs(s, env, op);
      }
    } else if !(op.FtOnTransfer? && op.job !in s.escrows) {
      CallTouches(s, env, op);
    }
  }

  lemma StepIsFair(s: State, call: Call)
    requires EscrowTheorems.Reachable(s) && FairFields(s)
    ensures FairFields(Apply(s, call))
  {
    EscrowTheorems.ReachableInv(s);
    StepKeepsJobs(s, call);
    forall j | j in Apply(s, call).escrows
      ensures FairField(Apply(s, call).escrows[j])
    {
      if j in s.escrows {
        ChangesHaveCauses(s, call, j);
        JoiningIsFair(s, call.env, call.op, s.escrows[j], Apply(s, call).escrows[j]);
      } else {
        NewJobHasNone(s, call, j);
      }
    }
  }

  /** In every run no account and no key has two submissions to one competition, and there are never more
      than the agent allowed. */
  lemma {:induction false} CompetitionsAreFair(
    self: AccountId, owner: AccountId, allowed: seq<AccountId>, calls: seq<Call>)
    ensures FairFields(Run(Initial(self, owner, allowed), calls))
  {
    if calls != [] {
      var before := calls[..|calls| - 1];
      CompetitionsAreFair(self, owner, allowed, before);
      assert EscrowTheorems.Reachable(Run(Initial(self, owner, allowed), before));
      StepIsFair(Run(Initial(self, owner, allowed), before), calls[|calls| - 1]);
    }
  }

  // ---- funding ----

  /** A deposit is taken if and only if it is the agent's, of the job's token and of its very amount, for a job
      that waits for it; otherwise all of it is handed back and nothing changes. */
  lemma DepositIsTaken(s: State, env: Env, sender: AccountId, amount: nat, j: JobId)
    ensures var (u, back) := AfterFtOnTransfer(s, env, sender, amount, j);
      if j in s.escrows && s.escrows[j].status == PendingFunding && env.predecessor == s.escrows[j].terms.token
         && sender == s.escrows[j].terms.agent && amount == s.escrows[j].terms.amount
         && (s.cfg.allowedTokens == [] || env.predecessor in s.cfg.allowedTokens)
      then back == 0 && u.escrows == s.escrows[j := s.escrows[j].(status := Open)] && u.balances == s.balances
      else back == amount && u == s
  {
  }

  // ---- terms ----

  /** The terms a job may have. */
  predicate SoundTerms(j: JobId, t: Terms) {
    && 0 < |j| <= 128 && t.fee < t.amount && t.scoreThreshold <= 100 && t.timeoutMs <= 8760 * 3_600_000
    && |t.taskDescription| <= 2048 && 0 < |t.criteria| <= 2048
    && (t.mode == Competitive <==> t.maxSubmissions.Some?)
  }

  /** A job is created as asked, by whoever signs, with the stated defaults. */
  lemma CreatedAsAsked(s: State, env: Env, a: CreateArgs)
    requires AfterCreate(s, env, a).Some?
    ensures a.job !in s.escrows && a.job in AfterCreate(s, env, a).value.escrows
    ensures var t := AfterCreate(s, env, a).value.escrows[a.job].terms;
      && SoundTerms(a.job, t) && t.agent == env.signer && t.amount == a.amount && t.token == a.token
      && t.createdAt == env.nowMs && t.timeoutMs == a.timeoutHours * 3_600_000
      && (a.fee.Some? ==> t.fee == a.fee.value) && (a.fee.None? ==> t.fee == 0)
      && (a.scoreThreshold.Some? ==> t.scoreThreshold == a.scoreThreshold.value)
      && (a.scoreThreshold.None? ==> t.scoreThreshold == 80)
      && t.maxSubmissions == a.maxSubmissions && t.deadlineBlock == a.deadlineBlock
      && t.taskDescription == a.taskDescription && t.criteria == a.criteria
    ensures !s.cfg.paused && env.deposit >= s.cfg.storageDeposit
    ensures s.cfg.allowedTokens == [] || a.token in s.cfg.allowedTokens
  {
  }

  /** And it is, if and only if nothing speaks against it. */
  lemma CreationGoesAhead(s: State, env: Env, a: CreateArgs)
    ensures AfterCreate(s, env, a).Some? <==>
      && !s.cfg.paused && a.job !in s.escrows && 0 < |a.job| <= 128 && env.deposit >= s.cfg.storageDeposit
      && (s.cfg.allowedTokens == [] || a.token in s.cfg.allowedTokens)
      && (if a.fee.Some? then a.fee.value else 0) < a.amount
      && a.timeoutHours <= 8760 && (a.scoreThreshold.Some? ==> a.scoreThreshold.value <= 100)
      && |a.taskDescription| <= 2048 && 0 < |a.criteria| <= 2048
  {
  }

  ghost predicate AllSound(s: State) {
    forall j :: j in s.escrows ==> SoundTerms(j, s.escrows[j].terms)
  }

  lemma StepIsSound(s: State, call: Call)
    requires JobsInv(s) && AllSound(s)
    ensures AllSound(Apply(s, call))
  {
    StepKeepsJobs(s, call);
    forall j | j in Apply(s, call).escrows
      ensures SoundTerms(j, Apply(s, call).escrows[j].terms)
    {
      if j !in s.escrows {
        NewJobHasNone(s, call, j);
        CreatedAsAsked(s, call.env, call.op.args);
      }
    }
  }

  /** In every run every job has sound terms. */
  lemma {:induction false} TermsAreSound(self: AccountId, owner: AccountId, allowed: seq<AccountId>, calls: seq<Call>)
    ensures AllSound(Run(Initial(self, owner, allowed), calls))
  {
    if calls != [] {
      var before := calls[..|calls| - 1];
      TermsAreSound(self, owner, allowed, before);
      EscrowTheorems.RunKeepsJobs(Initial(self, owner, allowed), before);
      StepIsSound(Run(Initial(self, owner, allowed), before), calls[|calls| - 1]);
    }
  }

  // ---- and conversely: what goes ahead ----

  /** A competition takes a submission in time, and a new one as long as there is room. */
  predicate HasRoom(e: Escrow, env: Env, result: string, again: bool) {
    && e.status == Open && |result| <= 2048 && BeforeDeadline(e, env)
    && (again || |e.submissions| < if e.terms.maxSubmissions.Some? then e.terms.maxSubmissions.value else 0xFFFF_FFFF)
  }

  /** A result is taken from work; handed in again it changes nothing. */
  predicate MayDeliver(s: State, env: Env, e: Escrow) {
    (e.status == Verifying && e.dataId.Some?) || (e.status == InProgress && env.yieldId !in s.issued)
  }

  /** When a call on an existing job goes ahead. */
  predicate May(s: State, env: Env, op: Op, e: Escrow) {
    match op
    case TakeJob(_) =>
      !s.cfg.paused && e.status == Open && env.signer != e.terms.agent && env.deposit >= s.cfg.workerStake
    case TakeJobFor(j, pk, sig) =>
      && !s.cfg.paused && e.status == Open && pk != e.terms.agent && pk !in s.pausedWorkers && pk in s.workers
      && SignedBy(s, env, pk, Messages.ClaimJob(j), sig) && BalanceOf(s.balances, pk, "near") >= s.cfg.workerStake
    case SubmitResult(_, result) =>
      && !s.cfg.paused && 0 < |result| <= 8192
      && if e.terms.mode == Competitive
         then HasRoom(e, env, result, exists k :: 0 <= k < |e.submissions| && e.submissions[k].worker == env.signer)
              && env.deposit >= s.cfg.workerStake
         else e.worker == Some(env.signer) && MayDeliver(s, env, e)
    case SubmitResultFor(j, result, pk, sig) =>
      && !s.cfg.paused && 0 < |result| <= 8192 && pk !in s.pausedWorkers
      && SignedBy(s, env, pk, Messages.SubmitJob(j), sig)
      && if e.terms.mode == Competitive
         then HasRoom(e, env, result, exists k :: 0 <= k < |e.submissions| && e.submissions[k].pubkey == Some(pk))
              && BalanceOf(s.balances, pk, "near") >= s.cfg.workerStake
         else e.workerPubkey == Some(pk) && MayDeliver(s, env, e)
    case DesignateWinner(_, idx) =>
      && e.terms.mode == Competitive
      && ((e.status == Verifying && e.winner == Some(idx) && e.dataId.Some?)
          || (e.status == Open && (env.predecessor == e.terms.agent || env.predecessor == s.cfg.owner)
              && !Expired(e, env) && BeforeDeadline(e, env) && idx < |e.submissions| && env.yieldId !in s.issued))
    case VerificationCallback(_, _) => true
    case SettleCallback(_, results) => results != [] && e.target.Some?
    case RetrySettlement(_) =>
      && e.target.Some? && (e.status == SettlementFailed || e.status == Verifying || e.status == Cancelled)
      && (OutOfRetries(e) || env.predecessor == s.cfg.owner || Expired(e, env))
    case Cancel(_) => env.signer == e.terms.agent && (e.status == PendingFunding || e.status == Open)
    case ForceCancelVerifying(_) => env.predecessor == s.cfg.owner && e.status == Verifying && Overdue(e, env)
    case RefundExpired(_) =>
      && !s.cfg.paused && Expired(e, env) && e.status != Claimed && e.status != Refunded && e.status != Cancelled
      && (e.status == Verifying ==> Overdue(e, env))
    case _ => true
  }

  /** The checks of each call, before its settlement. */
  lemma RetryAsks(s: State, env: Env, j: JobId)
    requires j in s.escrows
    ensures var e := s.escrows[j];
      var again := e.(retryCount := (e.retryCount + 1) % 256);
      AfterRetry(s, env, j).Some? <==>
        && Retryable(e)
        && (OutOfRetries(e)
            || ((env.predecessor == s.cfg.owner || Expired(e, env)) && AfterSettle(s.Put(j, again), j).Some?))
  {
  }

  lemma RetryGoesAhead(s: State, env: Env, j: JobId)
    requires j in s.escrows && JobInv(s.escrows[j], s.LedgerOf(j))
    ensures AfterRetry(s, env, j).Some? <==> May(s, env, RetrySettlement(j), s.escrows[j])
  {
    RetryAsks(s, env, j);
    if Retryable(s.escrows[j]) {
      RetriedLeaves(s, j, (s.escrows[j].retryCount + 1) % 256);
    }
  }

  lemma CancelAsks(s: State, env: Env, j: JobId)
    requires j in s.escrows
    ensures var e := s.escrows[j];
      AfterCancel(s, env, j).Some? <==>
        && env.signer == e.terms.agent
        && (e.status == PendingFunding || (e.status == Open && FullyRefunding(s, j).Some?))
  {
    hide FullyRefunding;
  }

  lemma ForceCancelAsks(s: State, env: Env, j: JobId)
    requires j in s.escrows
    ensures var e := s.escrows[j];
      AfterForceCancel(s, env, j).Some? <==>
        && env.predecessor == s.cfg.owner && e.status == Verifying && Overdue(e, env)
        && FullyRefunding(CalledOff(s, j), j).Some?
  {
    hide FullyRefunding, CalledOff;
  }

  lemma CancelGoesAhead(s: State, env: Env, j: JobId)
    requires j in s.escrows && JobInv(s.escrows[j], s.LedgerOf(j))
    ensures AfterCancel(s, env, j).Some? <==> May(s, env, Cancel(j), s.escrows[j])
  {
    CancelAsks(s, env, j);
    hide AfterCancel, FullyRefunding;
    if s.escrows[j].status == Open {
      OpenRefundLeaves(s, j);
    }
  }

  lemma ForceCancelGoesAhead(s: State, env: Env, j: JobId)
    requires j in s.escrows && JobInv(s.escrows[j], s.LedgerOf(j))
    ensures AfterForceCancel(s, env, j).Some? <==> May(s, env, ForceCancelVerifying(j), s.escrows[j])
  {
    ForceCancelAsks(s, env, j);
    hide AfterForceCancel, FullyRefunding, CalledOff;
    if s.escrows[j].status == Verifying {
      CalledOffLeaves(s, j);
    }
  }

  lemma ExpiryAsks(s: State, env: Env, j: JobId)
    requires j in s.escrows
    ensures var e := s.escrows[j];
      AfterRefundExpired(s, env, j).Some? <==>
        && !s.cfg.paused && Expired(e, env)
        && match e.status
           case PendingFunding => true
           case Open => FullyRefunding(s, j).Some?
           case InProgress => FullyRefunding(Released(s, j, Some(e.terms.agent)), j).Some?
           case Verifying => Overdue(e, env) && FullyRefunding(Abandoned(s, j, LegacyWorker(e)), j).Some?
           case SettlementFailed => AfterSettle(s, j).Some?
           case _ => false
  {
  }

  lemma ExpiryGoesAhead(s: State, env: Env, j: JobId)
    requires j in s.escrows && JobInv(s.escrows[j], s.LedgerOf(j))
    ensures AfterRefundExpired(s, env, j).Some? <==> May(s, env, RefundExpired(j), s.escrows[j])
  {
    ExpiryAsks(s, env, j);
    hide AfterRefundExpired, FullyRefunding, AfterSettle;
    match s.escrows[j].status
    case Open => OpenRefundLeaves(s, j);
    case InProgress => ForfeitLeaves(s, j, Some(s.escrows[j].terms.agent));
    case Verifying => AbandonedLeaves(s, j, LegacyWorker(s.escrows[j]));
    case SettlementFailed => SettlementLeaves(s, j);
    case _ =>
  }

  lemma ClaimGoesAhead(s: State, env: Env, j: JobId, pk: Pubkey, sig: seq<Byte>)
    requires j in s.escrows && JobInv(s.escrows[j], s.LedgerOf(j))
    ensures AfterClaim(s, env, j).Some? <==> May(s, env, TakeJob(j), s.escrows[j])
    ensures AfterClaimFor(s, env, j, pk, sig).Some? <==> May(s, env, TakeJobFor(j, pk, sig), s.escrows[j])
  {
  }

  lemma NamingGoesAhead(s: State, env: Env, j: JobId, idx: nat)
    requires j in s.escrows
    ensures AfterDesignateWinner(s, env, j, idx).Some? <==> May(s, env, DesignateWinner(j, idx), s.escrows[j])
  {
  }

  lemma SubmitGoesAhead(s: State, env: Env, j: JobId, result: string)
    requires j in s.escrows
    ensures AfterSubmitResult(s, env, j, result).Some? <==> May(s, env, SubmitResult(j, result), s.escrows[j])
  {
  }

  lemma AuthorizedGoesAhead(s: State, env: Env, pk: Pubkey, a: Messages.Action, sig: seq<Byte>)
    ensures Authorized(Known(s, pk), env, pk, a, sig).Some? <==> SignedBy(s, env, pk, a, sig)
    ensures Authorized(Known(s, pk), env, pk, a, sig).Some? ==>
      var t := Authorized(Known(s, pk), env, pk, a, sig).value;
      t.escrows == s.escrows && t.balances == s.balances && t.cfg == s.cfg && t.issued == s.issued
  {
  }

  lemma ResultForGoesAhead(s: State, t: State, env: Env, j: JobId, result: string, pk: Pubkey)
    requires j in s.escrows && t.escrows == s.escrows && t.balances == s.balances && t.cfg == s.cfg
    requires t.issued == s.issued
    ensures var e := s.escrows[j];
      ResultFor(t, env, j, result, pk).Some? <==>
        if e.terms.mode == Competitive
        then HasRoom(e, env, result, exists k :: 0 <= k < |e.submissions| && e.submissions[k].pubkey == Some(pk))
             && BalanceOf(s.balances, pk, "near") >= s.cfg.workerStake
        else e.workerPubkey == Some(pk) && MayDeliver(s, env, e)
  {
  }

  lemma SubmitForGoesAhead(s: State, env: Env, j: JobId, result: string, pk: Pubkey, sig: seq<Byte>)
    requires j in s.escrows
    ensures AfterSubmitResultFor(s, env, j, result, pk, sig).Some?
      <==> May(s, env, SubmitResultFor(j, result, pk, sig), s.escrows[j])
  {
    AuthorizedGoesAhead(s, env, pk, Messages.SubmitJob(j), sig);
    if SignedBy(s, env, pk, Messages.SubmitJob(j), sig) {
      var t := Authorized(Known(s, pk), env, pk, Messages.SubmitJob(j), sig).value;
      ResultForGoesAhead(s, t, env, j, result, pk);
    }
  }

  /** From every reachable state: a claim, a submission, a naming of the winner, a callback, a retry, a
      cancellation or a refund goes ahead if and only if its caller, its time and the job's status allow it. No
      settlement ever gets stuck on a panic. */
  lemma GoesAhead(s: State, env: Env, op: Op)
    requires EscrowTheorems.Reachable(s) && JobOf(op).Some? && JobOf(op).value in s.escrows
    requires !op.CreateEscrow?
    ensures Attempt(s, env, op).Some? <==> May(s, env, op, s.escrows[JobOf(op).value])
  {
    EscrowTheorems.ReachableInv(s);
    assert JobOk(s, JobOf(op).value);
    hide AfterClaim, AfterClaimFor, AfterSubmitResult, AfterSubmitResultFor, AfterDesignateWinner, AfterVerification;
    hide AfterRetry, AfterCancel, AfterForceCancel, AfterRefundExpired;
    match op
    case TakeJob(j) => ClaimGoesAhead(s, env, j, "", []);
    case TakeJobFor(j, pk, sig) => ClaimGoesAhead(s, env, j, pk, sig);
    case SubmitResult(j, result) => SubmitGoesAhead(s, env, j, result);
    case SubmitResultFor(j, result, pk, sig) => SubmitForGoesAhead(s, env, j, result, pk, sig);
    case DesignateWinner(j, idx) => NamingGoesAhead(s, env, j, idx);
    case VerificationCallback(j, payload) => VerificationSends(s, env, j, payload);
    case RetrySettlement(j) => RetryGoesAhead(s, env, j);
    case Cancel(j) => CancelGoesAhead(s, env, j);
    case ForceCancelVerifying(j) => ForceCancelGoesAhead(s, env, j);
    case RefundExpired(j) => ExpiryGoesAhead(s, env, j);
    case _ =>
  }
}

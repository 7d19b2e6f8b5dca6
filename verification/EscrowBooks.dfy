/** Where stakes come from and where they stay: in every call, what is booked as taken in is NEAR that
    came in, and what is booked as kept is kept for one of five reasons. */
module EscrowBooks {
  import opened Basics
  import opened EscrowState
  import opened EscrowSpec
  import opened EscrowRuns
  import opened EscrowTraffic
  import EscrowTheorems
  import Messages

  // ---- what comes in, and what stays ----

  /** The job got one more submission. */
  predicate Joined(s: State, u: State, j: JobId) {
    j in s.escrows && j in u.escrows && |u.escrows[j].submissions| > |s.escrows[j].submissions|
  }

  /** What a worker's wallet lost in NEAR. */
  function WalletLoss(s: State, u: State, pk: Pubkey): nat {
    SatSub(BalanceOf(s.balances, pk, NEAR_TOKEN_ID), BalanceOf(u.balances, pk, NEAR_TOKEN_ID))
  }

  /** The NEAR a call brings in as a stake for `j`: the deposit attached to a claim or to a new
      submission, or what the internal worker's wallet loses. */
  function TakenIn(s: State, call: Call, j: JobId): nat {
    var u := Apply(s, call);
    if JobOf(call.op) != Some(j) || Attempt(s, call.env, call.op).None? then 0
    else
      match call.op
      case TakeJob(_) => call.env.deposit
      case TakeJobFor(_, pk, _) => WalletLoss(s, u, pk)
      case SubmitResult(_, _) => if Joined(s, u, j) then call.env.deposit else 0
      case SubmitResultFor(_, _, pk, _) => if Joined(s, u, j) then WalletLoss(s, u, pk) else 0
      case _ => 0
  }

  /** The stake of an internal worker. */
  function InternalStake(e: Escrow): nat {
    if e.workerPubkey.Some? then GetOr(e.workerStake, 0) else 0
  }

  /** What a call on job `j` keeps of its stakes. */
  function KeptOf(s: State, env: Env, op: Op, e: Escrow): nat {
    match op
    case VerificationCallback(_, payload) =>
      if e.status == Verifying && !payload.Parsed? then InternalStake(e) else 0
    case RefundExpired(_) => if e.status == Verifying then InternalStake(e) else 0
    case SettleCallback(_, results) => if AllOk(results) && e.pendingStake.None? then InternalStake(e) else 0
    case SubmitResult(_, _) =>
      if e.terms.mode == Competitive && !SubmittedBy(e.submissions, env.signer)
      then SatSub(env.deposit, s.cfg.workerStake) else 0
    case _ => 0
  }

  /** The stakes of `j` a call leaves in the contract for good: verification gave no verdict, or expired,
      on an internal worker; an internal worker claimed a job that was being refunded; a competitive
      deposit above the stake; a removed job that still held stakes. */
  function KeptBy(s: State, call: Call, j: JobId): nat {
    if Attempt(s, call.env, call.op).None? || j !in s.escrows then 0
    else if call.op.CleanupCompleted? then if j in call.op.gone then Held(s.escrows[j]) else 0
    else if JobOf(call.op) == Some(j) then KeptOf(s, call.env, call.op, s.escrows[j])
    else 0
  }

  predicate Books(s: State, u: State, j: JobId, taken: nat, kept: nat) {
    && u.LedgerOf(j).stakeIn == s.LedgerOf(j).stakeIn + taken
    && u.LedgerOf(j).retained == s.LedgerOf(j).retained + kept
  }

  // ---- settling ----

  /** A settlement neither takes a stake nor keeps one: a deferred stake is paid in full. */
  lemma SettleBooks(t: State, j: JobId)
    requires AfterSettle(t, j).Some?
    ensures Books(t, AfterSettle(t, j).value, j, 0, 0)
  {
    var e, l := t.escrows[j], t.LedgerOf(j);
    SettleShape(t, j);
    assert Plan(e, t.cfg.owner) == Some([]) ==> e.workerPubkey.Some?;
  }

  lemma RefundBooks(s: State, t: State, j: JobId, kept: nat)
    requires j in t.escrows && FullyRefunding(t, j).Some? && Books(s, t, j, 0, kept)
    ensures Books(s, FullyRefunding(t, j).value, j, 0, kept)
  {
    SettleBooks(t.Put(j, t.escrows[j].(target := Some(FullRefund))), j);
  }

  lemma VerificationBooks(s: State, env: Env, j: JobId, payload: Payload)
    requires AfterVerification(s, j, payload).Some? && JobInv(s.escrows[j], s.LedgerOf(j))
    ensures Books(s, AfterVerification(s, j, payload).value, j, 0,
                  KeptOf(s, env, VerificationCallback(j, payload), s.escrows[j]))
  {
    if s.escrows[j].status == Verifying {
      JudgingBooks(s, j, payload);
      SettleBooks(JudgedState(s, j, payload), j);
    }
  }

  lemma JudgingBooks(s: State, j: JobId, payload: Payload)
    requires j in s.escrows && JobInv(s.escrows[j], s.LedgerOf(j)) && s.escrows[j].status == Verifying
    ensures Books(s, JudgedState(s, j, payload), j, 0, if payload.Parsed? then 0 else InternalStake(s.escrows[j]))
  {
    JudgedShape(s, j, payload);
    assert JudgedState(s, j, payload).LedgerOf(j) == JudgedLedger(s.escrows[j], s.LedgerOf(j), payload);
  }

  lemma RetryBooks(s: State, env: Env, j: JobId)
    requires AfterRetry(s, env, j).Some?
    ensures Books(s, AfterRetry(s, env, j).value, j, 0, 0)
  {
    var e := s.escrows[j].(retryCount := (s.escrows[j].retryCount + 1) % 256);
    if e.retryCount <= MAX_SETTLEMENT_RETRIES {
      SettleBooks(s.Put(j, e), j);
      assert AfterRetry(s, env, j) == AfterSettle(s.Put(j, e), j);
    }
  }

  lemma UnfundedBooks(s: State, j: JobId)
    requires j in s.escrows
    ensures Books(s, CancelledUnfunded(s, j), j, 0, 0)
  {
  }

  lemma CancelBooks(s: State, env: Env, j: JobId)
    requires AfterCancel(s, env, j).Some?
    ensures Books(s, AfterCancel(s, env, j).value, j, 0, 0)
  {
    if s.escrows[j].status == Open {
      RefundBooks(s, s, j, 0);
    } else {
      UnfundedBooks(s, j);
    }
  }

  lemma AbandonBooks(s: State, j: JobId, to: Option<AccountId>)
    requires j in s.escrows
    ensures Books(s, Abandoned(s, j, to), j, 0, if to.None? then GetOr(s.escrows[j].workerStake, 0) else 0)
    ensures Books(s, Released(s, j, to), j, 0, if to.None? then GetOr(s.escrows[j].workerStake, 0) else 0)
  {
    ReleaseBooks(s, j, to);
    AbandonedJob(s, j, to);
  }

  lemma ForceCancelBooks(s: State, env: Env, j: JobId)
    requires AfterForceCancel(s, env, j).Some? && JobInv(s.escrows[j], s.LedgerOf(j))
    ensures Books(s, AfterForceCancel(s, env, j).value, j, 0, 0)
  {
    AbandonBooks(s, j, s.escrows[j].worker);
    RefundBooks(s, CalledOff(s, j), j, 0);
  }

  lemma ExpiredVerificationBooks(s: State, j: JobId)
    requires j in s.escrows && JobInv(s.escrows[j], s.LedgerOf(j)) && s.escrows[j].status == Verifying
    requires FullyRefunding(Abandoned(s, j, LegacyWorker(s.escrows[j])), j).Some?
    ensures Books(s, FullyRefunding(Abandoned(s, j, LegacyWorker(s.escrows[j])), j).value, j, 0,
                  InternalStake(s.escrows[j]))
  {
    AbandonBooks(s, j, LegacyWorker(s.escrows[j]));
    RefundBooks(s, Abandoned(s, j, LegacyWorker(s.escrows[j])), j, InternalStake(s.escrows[j]));
  }

  lemma ForfeitBooks(s: State, j: JobId, to: AccountId)
    requires j in s.escrows && FullyRefunding(Released(s, j, Some(to)), j).Some?
    ensures Books(s, FullyRefunding(Released(s, j, Some(to)), j).value, j, 0, 0)
  {
    AbandonBooks(s, j, Some(to));
    RefundBooks(s, Released(s, j, Some(to)), j, 0);
  }

  lemma ExpiryBooks(s: State, env: Env, j: JobId)
    requires AfterRefundExpired(s, env, j).Some? && s.escrows[j].status != Verifying
    ensures Books(s, AfterRefundExpired(s, env, j).value, j, 0, 0)
  {
    RefundExpiredIs(s, env, j);
    hide Books;
    match s.escrows[j].status
    case PendingFunding => UnfundedBooks(s, j);
    case Open => RefundBooks(s, s, j, 0);
    case InProgress => ForfeitBooks(s, j, s.escrows[j].terms.agent);
    case _ => SettleBooks(s, j);
  }

  lemma VerifyingExpiryBooks(s: State, env: Env, j: JobId)
    requires AfterRefundExpired(s, env, j).Some? && JobInv(s.escrows[j], s.LedgerOf(j))
    requires s.escrows[j].status == Verifying
    ensures Books(s, AfterRefundExpired(s, env, j).value, j, 0, InternalStake(s.escrows[j]))
  {
    RefundExpiredIs(s, env, j);
    hide Books, JobInv, InternalStake, AfterRefundExpired, Abandoned, FullyRefunding;
    ExpiredVerificationBooks(s, j);
  }

  lemma RefundExpiredBooks(s: State, env: Env, j: JobId)
    requires j in s.escrows && AfterRefundExpired(s, env, j).Some? && JobInv(s.escrows[j], s.LedgerOf(j))
    ensures Books(s, AfterRefundExpired(s, env, j).value, j, 0, KeptOf(s, env, RefundExpired(j), s.escrows[j]))
  {
    hide Books, AfterRefundExpired, JobInv, InternalStake;
    if s.escrows[j].status == Verifying {
      VerifyingExpiryBooks(s, env, j);
    } else {
      ExpiryBooks(s, env, j);
    }
  }

  lemma CallbackBooks(s: State, env: Env, j: JobId, results: seq<bool>)
    requires AfterSettleCallback(s, j, results).Some? && JobInv(s.escrows[j], s.LedgerOf(j))
    ensures Books(s, AfterSettleCallback(s, j, results).value, j, 0,
                  KeptOf(s, env, SettleCallback(j, results), s.escrows[j]))
  {
    if AllOk(results) {
      assert Finished(s, j).LedgerOf(j) == FinishedLedger(s.escrows[j], s.LedgerOf(j));
    }
  }

  // ---- claiming and submitting ----

  lemma SigningBooks(s: State, env: Env, pk: Pubkey, a: Messages.Action, sig: seq<Byte>)
    requires Authorized(Known(s, pk), env, pk, a, sig).Some?
    ensures var t := Authorized(Known(s, pk), env, pk, a, sig).value;
      t.balances == s.balances && t.ledgers == s.ledgers && t.escrows == s.escrows && t.cfg == s.cfg
  {
    SigningTraffic(Known(s, pk), env, pk, a, sig);
  }

  lemma DebitLoss(s: State, u: State, pk: Pubkey, stake: nat)
    requires Debit(s.balances, pk, NEAR_TOKEN_ID, stake) == Some(u.balances)
    ensures WalletLoss(s, u, pk) == stake
  {
  }

  lemma BindingBooks(s: State, j: JobId, worker: AccountId, pk: Option<Pubkey>, stake: nat)
    requires j in s.escrows
    ensures Books(s, Bound(s, j, worker, pk, stake), j, stake, 0)
    ensures Bound(s, j, worker, pk, stake).balances == s.balances
  {
  }

  lemma ClaimForBooks(s: State, env: Env, j: JobId, pk: Pubkey, sig: seq<Byte>)
    requires AfterClaimFor(s, env, j, pk, sig).Some?
    ensures Books(s, AfterClaimFor(s, env, j, pk, sig).value, j,
                  WalletLoss(s, AfterClaimFor(s, env, j, pk, sig).value, pk), 0)
  {
    var t := Authorized(s, env, pk, Messages.ClaimJob(j), sig).value;
    SigningTraffic(s, env, pk, Messages.ClaimJob(j), sig);
    var left := Debit(t.balances, pk, NEAR_TOKEN_ID, t.cfg.workerStake).value;
    BindingBooks(t.(balances := left), j, env.signer, Some(pk), t.cfg.workerStake);
    DebitLoss(s, AfterClaimFor(s, env, j, pk, sig).value, pk, t.cfg.workerStake);
  }

  lemma SubmissionBooks(s: State, j: JobId, sub: Submission, paid: nat)
    requires j in s.escrows
    ensures var u := WithSubmission(s, j, sub, paid);
      && Books(s, u, j, paid, SatSub(paid, sub.stake)) && Joined(s, u, j) && u.balances == s.balances
  {
  }

  lemma YieldBooks(s: State, env: Env, j: JobId, result: string, from: Option<Status>)
    requires j in s.escrows
    ensures var t := s.Put(j, Submitted(s.escrows[j], env, result));
      var u := Yielded(if from.Some? then t.Moved(from.value, Verifying) else t, env, j);
      Books(s, u, j, 0, 0) && !Joined(s, u, j)
  {
  }

  lemma SubmitBooks(s: State, env: Env, j: JobId, result: string)
    requires AfterSubmitResult(s, env, j, result).Some? && JobInv(s.escrows[j], s.LedgerOf(j))
    ensures var u := AfterSubmitResult(s, env, j, result).value;
      Books(s, u, j, if Joined(s, u, j) then env.deposit else 0,
            KeptOf(s, env, SubmitResult(j, result), s.escrows[j]))
  {
    var e := s.escrows[j];
    if e.terms.mode == Competitive {
      if !SubmittedBy(e.submissions, env.signer) {
        SubmissionBooks(s, j, Submission(env.signer, result, s.cfg.workerStake, None), env.deposit);
      }
    } else if e.status == InProgress {
      YieldBooks(s, env, j, result, None);
    }
  }

  lemma CompetitiveForBooks(t: State, env: Env, j: JobId, result: string, pk: Pubkey)
    requires j in t.escrows && CompetitiveResultFor(t, env, j, result, pk).Some?
    ensures var u := CompetitiveResultFor(t, env, j, result, pk).value;
      Books(t, u, j, if Joined(t, u, j) then WalletLoss(t, u, pk) else 0, 0)
  {
    if !SubmittedWith(t.escrows[j].submissions, pk) {
      var left := Debit(t.balances, pk, NEAR_TOKEN_ID, t.cfg.workerStake).value;
      var sub := Submission(env.signer, result, t.cfg.workerStake, Some(pk));
      SubmissionBooks(t.(balances := left), j, sub, t.cfg.workerStake);
      DebitLoss(t, CompetitiveResultFor(t, env, j, result, pk).value, pk, t.cfg.workerStake);
    }
  }

  lemma StandardForBooks(t: State, env: Env, j: JobId, result: string, pk: Pubkey)
    requires j in t.escrows && StandardResultFor(t, env, j, result, pk).Some?
    ensures var u := StandardResultFor(t, env, j, result, pk).value; Books(t, u, j, 0, 0) && !Joined(t, u, j)
  {
    if t.escrows[j].status == InProgress {
      YieldBooks(t, env, j, result, Some(InProgress));
    }
  }

  lemma SubmitForBooks(s: State, env: Env, j: JobId, result: string, pk: Pubkey, sig: seq<Byte>)
    requires AfterSubmitResultFor(s, env, j, result, pk, sig).Some?
    ensures var u := AfterSubmitResultFor(s, env, j, result, pk, sig).value;
      Books(s, u, j, if Joined(s, u, j) then WalletLoss(s, u, pk) else 0, 0)
  {
    var t := Authorized(Known(s, pk), env, pk, Messages.SubmitJob(j), sig).value;
    SigningBooks(s, env, pk, Messages.SubmitJob(j), sig);
    if s.escrows[j].terms.mode == Competitive {
      CompetitiveForBooks(t, env, j, result, pk);
    } else {
      StandardForBooks(t, env, j, result, pk);
    }
  }

  lemma DesignateBooks(s: State, env: Env, j: JobId, idx: nat)
    requires AfterDesignateWinner(s, env, j, idx).Some?
    ensures Books(s, AfterDesignateWinner(s, env, j, idx).value, j, 0, 0)
  {
  }

  lemma ClaimingBooks(s: State, env: Env, op: Op)
    requires JobOf(op).Some? && JobOk(s, JobOf(op).value) && Attempt(s, env, op).Some?
    requires op.TakeJob? || op.TakeJobFor? || op.SubmitResult? || op.SubmitResultFor? || op.DesignateWinner?
    ensures var j := JobOf(op).value;
      Books(s, Attempt(s, env, op).value, j, TakenIn(s, Call(env, op), j), KeptBy(s, Call(env, op), j))
  {
    match op
    case TakeJob(j) => BindingBooks(s, j, env.signer, s.escrows[j].workerPubkey, env.deposit);
    case TakeJobFor(j, pk, sig) => ClaimForBooks(s, env, j, pk, sig);
    case SubmitResult(j, result) => SubmitBooks(s, env, j, result);
    case SubmitResultFor(j, result, pk, sig) => SubmitForBooks(s, env, j, result, pk, sig);
    case DesignateWinner(j, idx) => DesignateBooks(s, env, j, idx);
  }

  lemma KeptIs(s: State, env: Env, op: Op, j: JobId)
    requires JobOf(op) == Some(j) && j in s.escrows && Attempt(s, env, op).Some?
    ensures KeptBy(s, Call(env, op), j) == KeptOf(s, env, op, s.escrows[j])
  {
  }

  lemma SettlingBooks(s: State, env: Env, op: Op)
    requires JobOf(op).Some? && JobOk(s, JobOf(op).value) && Attempt(s, env, op).Some?
    requires SettlingOp(op) || op.SettleCallback?
    ensures var j := JobOf(op).value; Books(s, Attempt(s, env, op).value, j, 0, KeptBy(s, Call(env, op), j))
  {
    KeptIs(s, env, op, JobOf(op).value);
    match op
    case VerificationCallback(j, payload) => VerificationBooks(s, env, j, payload);
    case SettleCallback(j, results) => CallbackBooks(s, env, j, results);
    case RefundExpired(j) => RefundExpiredBooks(s, env, j);
    case _ => RefundingBooks(s, env, op);
  }

  lemma RefundingBooks(s: State, env: Env, op: Op)
    requires JobOf(op).Some? && JobOk(s, JobOf(op).value) && Attempt(s, env, op).Some?
    requires op.RetrySettlement? || op.Cancel? || op.ForceCancelVerifying?
    ensures Books(s, Attempt(s, env, op).value, JobOf(op).value, 0, 0)
  {
    match op
    case RetrySettlement(j) => RetryBooks(s, env, j);
    case Cancel(j) => CancelBooks(s, env, j);
    case ForceCancelVerifying(j) => ForceCancelBooks(s, env, j);
  }

  lemma OpeningBooks(s: State, env: Env, op: Op)
    requires (op.CreateEscrow? || op.FtOnTransfer?) && Attempt(s, env, op).Some?
    ensures Books(s, Attempt(s, env, op).value, JobOf(op).value, 0, 0)
  {
  }

  lemma JobCallBooks(s: State, env: Env, op: Op)
    requires JobsInv(s) && JobOf(op).Some? && Attempt(s, env, op).Some?
    ensures var j := JobOf(op).value;
      Books(s, Attempt(s, env, op).value, j, TakenIn(s, Call(env, op), j), KeptBy(s, Call(env, op), j))
  {
    assert JobOk(s, JobOf(op).value);
    if op.CreateEscrow? || op.FtOnTransfer? {
      OpeningBooks(s, env, op);
    } else if SettlingOp(op) || op.SettleCallback? {
      SettlingBooks(s, env, op);
    } else {
      ClaimingBooks(s, env, op);
    }
  }

  lemma RemovalBooks(s: State, gone: set<JobId>, j: JobId)
    requires forall k :: k in gone ==> k in s.escrows
    ensures Books(s, Removed(s, gone), j, 0, if j in gone then Held(s.escrows[j]) else 0)
  {
  }

  /** In every reachable state, for every call and every job: the stakes booked as taken in are the NEAR
      that came in with the call, and the stakes booked as kept are those of the five reasons, to the
      last unit. */
  lemma BooksAreReal(s: State, call: Call, j: JobId)
    requires EscrowTheorems.Reachable(s)
    ensures Apply(s, call).LedgerOf(j).stakeIn == s.LedgerOf(j).stakeIn + TakenIn(s, call, j)
    ensures Apply(s, call).LedgerOf(j).retained == s.LedgerOf(j).retained + KeptBy(s, call, j)
  {
    EscrowTheorems.ReachableInv(s);
    StepBooks(s, call, j);
  }

  /** So a call leaves stakes in the contract for good if and only if it is one of the five. */
  lemma StakeIsKept(s: State, call: Call, j: JobId)
    requires EscrowTheorems.Reachable(s)
    ensures Apply(s, call).LedgerOf(j).retained > s.LedgerOf(j).retained <==>
      && Attempt(s, call.env, call.op).Some? && j in s.escrows
      && var e := s.escrows[j];
        match call.op
        case VerificationCallback(k, payload) =>
          k == j && e.status == Verifying && !payload.Parsed? && InternalStake(e) > 0
        case RefundExpired(k) => k == j && e.status == Verifying && InternalStake(e) > 0
        case SettleCallback(k, results) => k == j && AllOk(results) && e.pendingStake.None? && InternalStake(e) > 0
        case SubmitResult(k, _) =>
          && k == j && e.terms.mode == Competitive && !SubmittedBy(e.submissions, call.env.signer)
          && call.env.deposit > s.cfg.workerStake
        case CleanupCompleted(gone) => j in gone && Held(e) > 0
        case _ => false
  {
    BooksAreReal(s, call, j);
  }

  lemma StepBooks(s: State, call: Call, j: JobId)
    requires JobsInv(s)
    ensures Books(s, Apply(s, call), j, TakenIn(s, call, j), KeptBy(s, call, j))
  {
    var env, op := call.env, call.op;
    if Attempt(s, env, op).Some? {
      if op.CleanupCompleted? {
        RemovalBooks(s, op.gone, j);
      } else if JobOf(op).None? {
        WalletCallsKeepJobs(s, env, op);
      } else if JobOf(op) == Some(j) {
        JobCallBooks(s, env, op);
      } else if !(op.FtOnTransfer? && op.job !in s.escrows) {
        CallTouches(s, env, op);
      }
    }
  }

  // ---- every run ----

  /** All the NEAR that came in as stakes of `j`. */
  function AllTakenIn(s: State, calls: seq<Call>, j: JobId): nat {
    if calls == [] then 0
    else
      var before := calls[..|calls| - 1];
      AllTakenIn(s, before, j) + TakenIn(Run(s, before), calls[|calls| - 1], j)
  }

  /** All the stakes of `j` that were kept. */
  function AllKept(s: State, calls: seq<Call>, j: JobId): nat {
    if calls == [] then 0
    else
      var before := calls[..|calls| - 1];
      AllKept(s, before, j) + KeptBy(Run(s, before), calls[|calls| - 1], j)
  }

  lemma {:induction false} RunBooks(s: State, calls: seq<Call>, j: JobId)
    requires JobsInv(s)
    ensures Books(s, Run(s, calls), j, AllTakenIn(s, calls, j), AllKept(s, calls, j))
  {
    if calls != [] {
      var before := calls[..|calls| - 1];
      RunBooks(s, before, j);
      EscrowTheorems.RunKeepsJobs(s, before);
      StepBooks(Run(s, before), calls[|calls| - 1], j);
    }
  }
}

/** Who gets what. Every promise a call launches, told from the job and from what the marketplace
    promises its parties: the worker, the agent, the owner with the verifier's fee, and those who put
    up stakes and deposits. */
module EscrowPayees {
  import opened Basics
  import opened EscrowState
  import opened EscrowSpec
  import opened EscrowRuns
  import opened EscrowTraffic
  import Messages

  // ---- what each party is due ----

  /** The amount less the fee, which is always the smaller one (`Bindings`). */
  function Net(e: Escrow): nat {
    if e.terms.fee < e.terms.amount then e.terms.amount - e.terms.fee else 0
  }

  function Fee(e: Escrow, owner: AccountId): seq<Transfer> {
    if e.terms.fee > 0 then [Transfer(owner, e.terms.fee)] else []
  }

  /** Passed: a worker with a NEAR account is sent the amount less the fee; an internal one has it
      credited when the fee is through. */
  function WorkersPay(e: Escrow, owner: AccountId): seq<Transfer> {
    (if e.workerPubkey.None? && e.worker.Some? then [Transfer(e.worker.value, Net(e))] else [])
    + Fee(e, owner)
  }

  /** Failed: the agent gets the money back, but pays for the verification. */
  function AgentsRefund(e: Escrow, owner: AccountId): seq<Transfer> {
    [Transfer(e.terms.agent, Net(e))] + Fee(e, owner)
  }

  /** Not judged: the agent gets all of it back. */
  function AgentsMoney(e: Escrow): seq<Transfer> {
    [Transfer(e.terms.agent, e.terms.amount)]
  }

  /** What is due, by where the settlement aims. */
  function Due(e: Escrow, aim: Target, owner: AccountId): seq<Transfer> {
    match aim
    case Claim => WorkersPay(e, owner)
    case Refund => AgentsRefund(e, owner)
    case FullRefund => AgentsMoney(e)
  }

  function DepositBack(s: State, e: Escrow): seq<Promise> {
    [Near(e.terms.agent, s.cfg.storageDeposit, StorageRefund)]
  }

  /** One batch of transfers; with none to make the job is finished, and the agent's deposit returned. */
  function Settlement(s: State, j: JobId, e: Escrow, aim: Target): seq<Promise> {
    var due := Due(e, aim, s.cfg.owner);
    if due == [] then DepositBack(s, e) else [Batch(j, e.terms.token, due)]
  }

  function Returning(j: JobId, e: Escrow): seq<Promise> {
    [Batch(j, e.terms.token, AgentsMoney(e))]
  }

  /** The stake of the job, to `to`. */
  function StakeTo(j: JobId, e: Escrow, to: Option<AccountId>): seq<Promise> {
    if e.workerStake.Some? && to.Some? then [Near(to.value, e.workerStake.value, StakeOf(j))] else []
  }

  /** The account an external worker's stake is returned to. */
  function OwnAccount(e: Escrow): Option<AccountId> {
    if e.workerPubkey.None? then e.worker else None
  }

  /** Each submission's stake to its own submitter, in order, but for the winner's. */
  function LosersStakes(j: JobId, subs: seq<Submission>, winner: nat): seq<Promise>
    requires winner < |subs|
  {
    seq(|subs| - 1, (k: nat) requires k < |subs| - 1 =>
      var sub := subs[if k < winner then k else k + 1]; Near(sub.worker, sub.stake, StakeOf(j)))
  }

  /** What a verdict has launched; without one, the stake of an external worker comes first. */
  function Judging(s: State, j: JobId, e: Escrow, payload: Payload): seq<Promise> {
    if Passing(payload, e.terms.scoreThreshold) then Settlement(s, j, e, Claim)
    else if payload.Parsed? then Settlement(s, j, e, Refund)
    else StakeTo(j, e, OwnAccount(e)) + Settlement(s, j, e, FullRefund)
  }

  /** What an expired job has launched for it. */
  function Expiring(s: State, j: JobId, e: Escrow): seq<Promise> {
    match e.status
    case PendingFunding => DepositBack(s, e)
    case InProgress => StakeTo(j, e, Some(e.terms.agent)) + Returning(j, e)
    case Verifying => StakeTo(j, e, OwnAccount(e)) + Returning(j, e)
    case SettlementFailed => if e.target.Some? then Settlement(s, j, e, e.target.value) else []
    case _ => Returning(j, e)
  }

  function Resubmitting(s: State, env: Env, j: JobId, e: Escrow): seq<Promise> {
    if e.terms.mode == Standard then if e.status == InProgress then [Yield(env.yieldId, j)] else []
    else if env.deposit > 0 && exists k :: 0 <= k < |e.submissions| && e.submissions[k].worker == env.signer
    then [Near(env.signer, env.deposit, Excess)] else []
  }

  /** All that a successful call on job `j` launches, in order. */
  function Launched(s: State, env: Env, op: Op): seq<Promise>
    requires JobOf(op).Some?
  {
    var j := JobOf(op).value;
    if j !in s.escrows then []
    else
      var e := s.escrows[j];
      match op
      case SubmitResult(_, _) => Resubmitting(s, env, j, e)
      case SubmitResultFor(_, _, _, _) =>
        if e.terms.mode == Standard && e.status == InProgress then [Yield(env.yieldId, j)] else []
      case DesignateWinner(_, idx) =>
        if e.status == Open && idx < |e.submissions|
        then LosersStakes(j, e.submissions, idx) + [Yield(env.yieldId, j)] else []
      case VerificationCallback(_, payload) =>
        if e.status == Verifying then Judging(s, j, e, payload) else []
      case SettleCallback(_, results) =>
        if false in results then [] else DepositBack(s, e) + StakeTo(j, e, OwnAccount(e))
      case RetrySettlement(_) =>
        if e.target.None? then []
        else if 5 <= e.retryCount < 255 then DepositBack(s, e) else Settlement(s, j, e, e.target.value)
      case Cancel(_) => if e.status == PendingFunding then DepositBack(s, e) else Returning(j, e)
      case ForceCancelVerifying(_) => StakeTo(j, e, e.worker) + DepositBack(s, e) + Returning(j, e)
      case RefundExpired(_) => Expiring(s, j, e)
      case _ => []
  }

  // ---- settlements ----

  lemma PlanIsDue(e: Escrow, l: Ledger, owner: AccountId)
    requires ReadyToSettle(e, l)
    ensures Plan(e, owner) == Some(Due(e, e.target.value, owner))
    ensures Due(e, e.target.value, owner) == [] ==> e.workerPubkey.Some? && e.target == Some(Claim)
  {
    assert [] + Fee(e, owner) == Fee(e, owner);
  }

  /** A settlement of a job that is ready launches what is due, and nothing else. */
  lemma SettleSends(t: State, j: JobId)
    requires j in t.escrows && ReadyToSettle(t.escrows[j], t.LedgerOf(j))
    ensures AfterSettle(t, j).Some?
    ensures AfterSettle(t, j).value.outbox == t.outbox + Settlement(t, j, t.escrows[j], t.escrows[j].target.value)
  {
    var e := t.escrows[j];
    PlanIsDue(e, t.LedgerOf(j), t.cfg.owner);
    if Due(e, e.target.value, t.cfg.owner) != [] {
      SettleLaunches(t, j, Due(e, e.target.value, t.cfg.owner));
    }
  }

  /** What is due depends on the terms, the worker and its key. */
  lemma SettlingAgrees(s: State, t: State, j: JobId, e: Escrow, e': Escrow, aim: Target)
    requires t.cfg == s.cfg && e'.terms == e.terms && e'.worker == e.worker && e'.workerPubkey == e.workerPubkey
    ensures Settlement(t, j, e', aim) == Settlement(s, j, e, aim)
  {
  }

  lemma SettlesFrom(s: State, t: State, j: JobId, before: seq<Promise>)
    requires j in s.escrows && j in t.escrows && t.cfg == s.cfg && t.outbox == s.outbox + before
    requires ReadyToSettle(t.escrows[j], t.LedgerOf(j))
    requires t.escrows[j].terms == s.escrows[j].terms && t.escrows[j].worker == s.escrows[j].worker
    requires t.escrows[j].workerPubkey == s.escrows[j].workerPubkey
    ensures AfterSettle(t, j).Some?
    ensures AfterSettle(t, j).value.outbox
      == s.outbox + (before + Settlement(s, j, s.escrows[j], t.escrows[j].target.value))
  {
    SettleSends(t, j);
    SettlingAgrees(s, t, j, s.escrows[j], t.escrows[j], t.escrows[j].target.value);
  }

  lemma ReturningIs(s: State, j: JobId, e: Escrow)
    ensures Settlement(s, j, e, FullRefund) == Returning(j, e)
  {
  }

  lemma RefundsFrom(s: State, t: State, j: JobId, before: seq<Promise>, l: Ledger)
    requires j in s.escrows && j in t.escrows && t.cfg == s.cfg && t.outbox == s.outbox + before && l == t.LedgerOf(j)
    requires ReadyToSettle(t.escrows[j].(target := Some(FullRefund)), l)
    requires t.escrows[j].terms == s.escrows[j].terms && t.escrows[j].worker == s.escrows[j].worker
    requires t.escrows[j].workerPubkey == s.escrows[j].workerPubkey
    ensures FullyRefunding(t, j).Some?
    ensures FullyRefunding(t, j).value.outbox == s.outbox + (before + Returning(j, s.escrows[j]))
  {
    SettlesFrom(s, t.Put(j, t.escrows[j].(target := Some(FullRefund))), j, before);
    ReturningIs(s, j, s.escrows[j]);
  }

  // ---- the settling calls ----

  lemma ReleaseSendsTo(s: State, j: JobId, to: Option<AccountId>)
    requires j in s.escrows
    ensures Released(s, j, to).outbox == s.outbox + StakeTo(j, s.escrows[j], to)
    ensures Released(s, j, to).cfg == s.cfg
  {
  }

  lemma AbandonSendsTo(s: State, j: JobId, to: Option<AccountId>)
    requires j in s.escrows
    ensures Abandoned(s, j, to).outbox == s.outbox + StakeTo(j, s.escrows[j], to)
    ensures Abandoned(s, j, to).cfg == s.cfg
  {
    ReleaseSendsTo(s, j, to);
    ReleaseBooks(s, j, to);
    UnindexedShape(Released(s, j, to), s.escrows[j].dataId);
  }

  lemma JudgingSends(s: State, j: JobId, payload: Payload)
    requires j in s.escrows
    ensures JudgedState(s, j, payload).cfg == s.cfg
    ensures JudgedState(s, j, payload).outbox
      == s.outbox + if payload.Parsed? then [] else StakeTo(j, s.escrows[j], OwnAccount(s.escrows[j]))
  {
    ReleaseSendsTo(s, j, OwnAccount(s.escrows[j]));
    UnindexedShape(if payload.Parsed? then s else Released(s, j, OwnAccount(s.escrows[j])), s.escrows[j].dataId);
  }

  lemma JudgedAim(e: Escrow, payload: Payload)
    ensures Judged(e, payload).target
      == Some(if Passing(payload, e.terms.scoreThreshold) then Claim
              else if payload.Parsed? then Refund else FullRefund)
    ensures Judged(e, payload).terms == e.terms && Judged(e, payload).worker == e.worker
    ensures Judged(e, payload).workerPubkey == e.workerPubkey
  {
  }

  lemma JudgedSends(s: State, j: JobId, payload: Payload)
    requires j in s.escrows && JobInv(s.escrows[j], s.LedgerOf(j)) && s.escrows[j].status == Verifying
    ensures AfterSettle(JudgedState(s, j, payload), j).Some?
    ensures AfterSettle(JudgedState(s, j, payload), j).value.outbox
      == s.outbox + Judging(s, j, s.escrows[j], payload)
  {
    var e, t := s.escrows[j], JudgedState(s, j, payload);
    JudgedIsReady(e, s.LedgerOf(j), payload);
    JudgedShape(s, j, payload);
    JudgingSends(s, j, payload);
    JudgedAim(e, payload);
    assert t.LedgerOf(j) == JudgedLedger(e, s.LedgerOf(j), payload);
    var before := if payload.Parsed? then [] else StakeTo(j, e, OwnAccount(e));
    SettlesFrom(s, t, j, before);
    var settlement := Settlement(s, j, e, t.escrows[j].target.value);
    assert payload.Parsed? ==> before + settlement == settlement;
  }

  lemma VerificationSends(s: State, env: Env, j: JobId, payload: Payload)
    requires j in s.escrows && JobInv(s.escrows[j], s.LedgerOf(j))
    ensures AfterVerification(s, j, payload).Some?
    ensures AfterVerification(s, j, payload).value.outbox
      == s.outbox + Launched(s, env, VerificationCallback(j, payload))
  {
    if s.escrows[j].status == Verifying {
      JudgedSends(s, j, payload);
    }
  }

  lemma RetriedSends(s: State, j: JobId, count: Byte)
    requires j in s.escrows && JobInv(s.escrows[j], s.LedgerOf(j)) && Retryable(s.escrows[j])
    ensures var e := s.escrows[j].(retryCount := count);
      && AfterSettle(s.Put(j, e), j).Some?
      && AfterSettle(s.Put(j, e), j).value.outbox
           == s.outbox + Settlement(s, j, s.escrows[j], s.escrows[j].target.value)
      && GivenUp(s, j, e).outbox == s.outbox + DepositBack(s, s.escrows[j])
  {
    RetriedJob(s.escrows[j], s.LedgerOf(j), count);
    SettlesFrom(s, s.Put(j, s.escrows[j].(retryCount := count)), j, []);
  }

  lemma RetrySends(s: State, env: Env, j: JobId)
    requires j in s.escrows && JobInv(s.escrows[j], s.LedgerOf(j)) && AfterRetry(s, env, j).Some?
    ensures AfterRetry(s, env, j).value.outbox == s.outbox + Launched(s, env, RetrySettlement(j))
  {
    hide AfterRetry, AfterSettle, GivenUp, Settlement;
    RetryIs(s, env, j);
    RetriedSends(s, j, (s.escrows[j].retryCount + 1) % 256);
  }

  lemma UnfundedSends(s: State, j: JobId)
    requires j in s.escrows
    ensures CancelledUnfunded(s, j).outbox == s.outbox + DepositBack(s, s.escrows[j])
  {
  }

  lemma RefundSends(s: State, j: JobId)
    requires j in s.escrows && JobInv(s.escrows[j], s.LedgerOf(j))
    requires s.escrows[j].status != PendingFunding && !Final(s.escrows[j])
    ensures FullyRefunding(s, j).Some?
    ensures FullyRefunding(s, j).value.outbox == s.outbox + Returning(j, s.escrows[j])
  {
    FullRefundIsReady(s.escrows[j], s.LedgerOf(j), None, s.escrows[j].status);
    RefundsFrom(s, s, j, [], s.LedgerOf(j));
  }

  lemma CancelSends(s: State, env: Env, j: JobId)
    requires j in s.escrows && JobInv(s.escrows[j], s.LedgerOf(j)) && AfterCancel(s, env, j).Some?
    ensures AfterCancel(s, env, j).value.outbox == s.outbox + Launched(s, env, Cancel(j))
  {
    if s.escrows[j].status == Open {
      RefundSends(s, j);
    } else {
      UnfundedSends(s, j);
    }
  }

  lemma CallingOffSends(s: State, j: JobId)
    requires j in s.escrows
    ensures CalledOff(s, j).cfg == s.cfg
    ensures CalledOff(s, j).outbox
      == s.outbox + (StakeTo(j, s.escrows[j], s.escrows[j].worker) + DepositBack(s, s.escrows[j]))
  {
    AbandonSendsTo(s, j, s.escrows[j].worker);
    AbandonedJob(s, j, s.escrows[j].worker);
  }

  lemma ForceCancelSends(s: State, env: Env, j: JobId)
    requires j in s.escrows && JobInv(s.escrows[j], s.LedgerOf(j)) && AfterForceCancel(s, env, j).Some?
    ensures AfterForceCancel(s, env, j).value.outbox == s.outbox + Launched(s, env, ForceCancelVerifying(j))
  {
    CalledOffSends(s, j);
  }

  lemma CalledOffSends(s: State, j: JobId)
    requires j in s.escrows && JobInv(s.escrows[j], s.LedgerOf(j)) && s.escrows[j].status == Verifying
    ensures var e := s.escrows[j];
      && FullyRefunding(CalledOff(s, j), j).Some?
      && FullyRefunding(CalledOff(s, j), j).value.outbox
           == s.outbox + (StakeTo(j, e, e.worker) + DepositBack(s, e) + Returning(j, e))
  {
    var e, t := s.escrows[j], CalledOff(s, j);
    CallingOffSends(s, j);
    CalledOffJob(s, j);
    ReleaseBooks(s, j, e.worker);
    FullRefundIsReady(e, s.LedgerOf(j), e.worker, Cancelled);
    RefundsFrom(s, t, j, StakeTo(j, e, e.worker) + DepositBack(s, e), ReleasedLedger(e, s.LedgerOf(j), e.worker));
  }

  lemma ForfeitSends(s: State, j: JobId)
    requires j in s.escrows && JobInv(s.escrows[j], s.LedgerOf(j)) && s.escrows[j].status == InProgress
    ensures var e := s.escrows[j];
      && FullyRefunding(Released(s, j, Some(e.terms.agent)), j).Some?
      && FullyRefunding(Released(s, j, Some(e.terms.agent)), j).value.outbox
           == s.outbox + (StakeTo(j, e, Some(e.terms.agent)) + Returning(j, e))
  {
    var e := s.escrows[j];
    var to := Some(e.terms.agent);
    ReleaseSendsTo(s, j, to);
    ReleaseBooks(s, j, to);
    FullRefundIsReady(e, s.LedgerOf(j), to, e.status);
    RefundsFrom(s, Released(s, j, to), j, StakeTo(j, e, to), ReleasedLedger(e, s.LedgerOf(j), to));
  }

  lemma ExpiredVerificationSends(s: State, j: JobId)
    requires j in s.escrows && JobInv(s.escrows[j], s.LedgerOf(j)) && s.escrows[j].status == Verifying
    ensures var e := s.escrows[j];
      && FullyRefunding(Abandoned(s, j, LegacyWorker(e)), j).Some?
      && FullyRefunding(Abandoned(s, j, LegacyWorker(e)), j).value.outbox
           == s.outbox + (StakeTo(j, e, OwnAccount(e)) + Returning(j, e))
  {
    var e := s.escrows[j];
    var to := LegacyWorker(e);
    AbandonSendsTo(s, j, to);
    AbandonedJob(s, j, to);
    ReleaseBooks(s, j, to);
    FullRefundIsReady(e, s.LedgerOf(j), to, e.status);
    RefundsFrom(s, Abandoned(s, j, to), j, StakeTo(j, e, to), ReleasedLedger(e, s.LedgerOf(j), to));
  }

  lemma ExpirySends(s: State, env: Env, j: JobId)
    requires j in s.escrows && JobInv(s.escrows[j], s.LedgerOf(j)) && AfterRefundExpired(s, env, j).Some?
    ensures AfterRefundExpired(s, env, j).value.outbox == s.outbox + Launched(s, env, RefundExpired(j))
  {
    RefundExpiredIs(s, env, j);
    hide AfterRefundExpired;
    match s.escrows[j].status
    case PendingFunding => UnfundedSends(s, j);
    case Open => RefundSends(s, j);
    case InProgress => ForfeitSends(s, j);
    case Verifying => ExpiredVerificationSends(s, j);
    case SettlementFailed => FailedSends(s, j);
  }

  lemma FailedSends(s: State, j: JobId)
    requires j in s.escrows && JobInv(s.escrows[j], s.LedgerOf(j)) && s.escrows[j].status == SettlementFailed
    ensures AfterSettle(s, j).Some?
    ensures AfterSettle(s, j).value.outbox == s.outbox + Settlement(s, j, s.escrows[j], s.escrows[j].target.value)
  {
    SettlesFrom(s, s, j, []);
  }

  // ---- the other calls ----

  lemma CallbackSends(s: State, env: Env, j: JobId, results: seq<bool>)
    requires AfterSettleCallback(s, j, results).Some?
    ensures AfterSettleCallback(s, j, results).value.outbox == s.outbox + Launched(s, env, SettleCallback(j, results))
  {
    assert AllOk(results) <==> false !in results;
  }

  lemma {:induction false} AllRefunded(j: JobId, subs: seq<Submission>, winner: nat)
    requires winner >= |subs|
    ensures |Refunds(j, subs, winner)| == |subs|
    ensures forall k :: 0 <= k < |subs| ==>
      Refunds(j, subs, winner)[k] == Near(subs[k].worker, subs[k].stake, StakeOf(j))
  {
    if subs != [] {
      AllRefunded(j, subs[..|subs| - 1], winner);
    }
  }

  lemma {:induction false} RefundsAre(j: JobId, subs: seq<Submission>, winner: nat)
    requires winner < |subs|
    ensures Refunds(j, subs, winner) == LosersStakes(j, subs, winner)
  {
    if winner == |subs| - 1 {
      AllRefunded(j, subs[..winner], winner);
    } else {
      RefundsAre(j, subs[..|subs| - 1], winner);
    }
  }

  lemma DesignateSends(s: State, env: Env, j: JobId, idx: nat)
    requires AfterDesignateWinner(s, env, j, idx).Some?
    ensures AfterDesignateWinner(s, env, j, idx).value.outbox == s.outbox + Launched(s, env, DesignateWinner(j, idx))
  {
    if s.escrows[j].status == Open {
      RefundsAre(j, s.escrows[j].submissions, idx);
      assert AfterDesignateWinner(s, env, j, idx).value.outbox
        == s.outbox + Refunds(j, s.escrows[j].submissions, idx) + [Yield(env.yieldId, j)];
    }
  }

  lemma SubmitSends(s: State, env: Env, j: JobId, result: string)
    requires AfterSubmitResult(s, env, j, result).Some?
    ensures AfterSubmitResult(s, env, j, result).value.outbox == s.outbox + Launched(s, env, SubmitResult(j, result))
  {
  }

  lemma SubmitForSends(s: State, env: Env, j: JobId, result: string, pk: Pubkey, sig: seq<Byte>)
    requires AfterSubmitResultFor(s, env, j, result, pk, sig).Some?
    ensures AfterSubmitResultFor(s, env, j, result, pk, sig).value.outbox
      == s.outbox + Launched(s, env, SubmitResultFor(j, result, pk, sig))
  {
    SigningTraffic(Known(s, pk), env, pk, Messages.SubmitJob(j), sig);
  }

  lemma ClaimForSends(s: State, env: Env, j: JobId, pk: Pubkey, sig: seq<Byte>)
    requires AfterClaimFor(s, env, j, pk, sig).Some?
    ensures AfterClaimFor(s, env, j, pk, sig).value.outbox == s.outbox
  {
    SigningTraffic(s, env, pk, Messages.ClaimJob(j), sig);
  }

  lemma OpeningSends(s: State, env: Env, op: Op)
    requires op.CreateEscrow? || op.FtOnTransfer? || op.TakeJob?
    requires Attempt(s, env, op).Some?
    ensures Attempt(s, env, op).value.outbox == s.outbox
  {
  }

  /** Every successful call on a job launches exactly what its parties are due, in this order. */
  lemma CallSends(s: State, env: Env, op: Op)
    requires JobsInv(s) && JobOf(op).Some? && Attempt(s, env, op).Some?
    ensures Attempt(s, env, op).value.outbox == s.outbox + Launched(s, env, op)
  {
    assert JobOk(s, JobOf(op).value);
    match op
    case TakeJobFor(j, pk, sig) => ClaimForSends(s, env, j, pk, sig);
    case SubmitResult(j, result) => SubmitSends(s, env, j, result);
    case SubmitResultFor(j, result, pk, sig) => SubmitForSends(s, env, j, result, pk, sig);
    case DesignateWinner(j, idx) => DesignateSends(s, env, j, idx);
    case VerificationCallback(j, payload) => VerificationSends(s, env, j, payload);
    case SettleCallback(j, results) => CallbackSends(s, env, j, results);
    case RetrySettlement(j) => RetrySends(s, env, j);
    case Cancel(j) => CancelSends(s, env, j);
    case ForceCancelVerifying(j) => ForceCancelSends(s, env, j);
    case RefundExpired(j) => ExpirySends(s, env, j);
    case _ => OpeningSends(s, env, op);
  }
}

/** What holds in every run of the escrow contract, from deployment on. */
module EscrowTheorems {
  import opened Basics
  import opened EscrowState
  import opened EscrowSpec
  import opened EscrowRuns

  lemma {:induction false} RunKeepsJobs(s: State, calls: seq<Call>)
    requires JobsInv(s)
    ensures JobsInv(Run(s, calls))
  {
    if calls != [] {
      RunKeepsJobs(s, calls[..|calls| - 1]);
      StepKeepsJobs(Run(s, calls[..|calls| - 1]), calls[|calls| - 1]);
    }
  }

  /** States that some run reaches. */
  ghost predicate Reachable(s: State) {
    exists self, owner, allowed, calls :: s == Run(Initial(self, owner, allowed), calls)
  }

  lemma ReachableInv(s: State)
    requires Reachable(s)
    ensures JobsInv(s)
  {
    var self, owner, allowed, calls :| s == Run(Initial(self, owner, allowed), calls);
    RunKeepsJobs(Initial(self, owner, allowed), calls);
  }

  // ---- exactly-once payout ----

  /** However calls, retries and late or repeated callbacks interleave: an internal worker has been
      credited the net amount if the job is Claimed, and nothing otherwise; and the payout is on
      hold exactly while the settlement aims at the worker. */
  lemma ExactlyOncePayout(s: State, j: JobId)
    requires Reachable(s) && j in s.escrows
    ensures var e := s.escrows[j];
      && s.LedgerOf(j).credited
           == (if e.workerPubkey.Some? && e.status == Claimed then e.terms.amount - e.terms.fee else 0)
      && (e.workerPubkey.Some? ==>
            (e.target == Some(Claim) <==> e.pendingPayout == Some(e.terms.amount - e.terms.fee)))
      && (e.pendingPayout.Some? ==> e.workerPubkey.Some?)
  {
    ReachableInv(s);
    assert JobOk(s, j);
  }

  // ---- stakes ----

  function StakesIn(s: State): map<JobId, nat> {
    map j | j in s.ledgers :: s.ledgers[j].stakeIn
  }

  function StakesOut(s: State): map<JobId, nat> {
    map j | j in s.ledgers :: s.ledgers[j].stakeOut
  }

  /** Every stake taken in is either paid out, kept, or still held; so per job id and in total no
      more leaves than came in. A deferred stake refund is the stake the job still records. */
  lemma StakesLeaveAtMostOnce(s: State)
    requires Reachable(s)
    ensures forall j :: j in s.escrows ==>
      && s.LedgerOf(j).stakeIn == s.LedgerOf(j).stakeOut + s.LedgerOf(j).retained + Held(s.escrows[j])
      && (s.escrows[j].pendingStake.Some? ==> s.escrows[j].pendingStake == s.escrows[j].workerStake)
    ensures forall j :: s.LedgerOf(j).stakeOut <= s.LedgerOf(j).stakeIn
    ensures MapSum(StakesOut(s)) <= MapSum(StakesIn(s))
  {
    ReachableInv(s);
    forall j
      ensures s.LedgerOf(j).stakeOut <= s.LedgerOf(j).stakeIn
      ensures j in s.escrows ==>
        && s.LedgerOf(j).stakeIn == s.LedgerOf(j).stakeOut + s.LedgerOf(j).retained + Held(s.escrows[j])
        && (s.escrows[j].pendingStake.Some? ==> s.escrows[j].pendingStake == s.escrows[j].workerStake)
    {
      assert JobOk(s, j);
    }
    assert forall j :: j in s.ledgers ==> s.LedgerOf(j) == s.ledgers[j];
    MapSumBelow(StakesOut(s), StakesIn(s));
  }

  /** What returns a stake: a transfer to a worker with a NEAR account, nothing for an internal one. */
  function StakeBack(j: JobId, e: Escrow): seq<Promise> {
    if e.workerPubkey.None? && e.worker.Some? && e.workerStake.Some?
    then [Near(e.worker.value, e.workerStake.value, StakeOf(j))] else []
  }

  lemma ReleaseSends(s: State, j: JobId)
    requires j in s.escrows
    ensures var e := s.escrows[j];
      var t := Released(s, j, LegacyWorker(e));
      t.outbox == s.outbox + StakeBack(j, e) && t.balances == s.balances && t.cfg == s.cfg
  {
  }

  /** A full refund to the agent is under way, the stake went as `StakeBack` says, and what did not go
      out is kept: no wallet was credited, and nothing is on hold for one. */
  predicate RefundedWithoutVerdict(s: State, u: State, j: JobId) {
    && j in s.escrows && j in u.escrows
    && var e, e', l, l' := s.escrows[j], u.escrows[j], s.LedgerOf(j), u.LedgerOf(j);
      var stake := GetOr(e.workerStake, 0);
      && e'.target == Some(FullRefund) && e'.workerStake.None? && e'.pendingStake.None? && e'.pendingPayout.None?
      && u.balances == s.balances
      && u.outbox
           == s.outbox + StakeBack(j, e) + [Batch(j, e.terms.token, [Transfer(e.terms.agent, e.terms.amount)])]
      && l' == if e.workerPubkey.None? then l.(stakeOut := l.stakeOut + stake)
               else l.(retained := l.retained + stake)
  }

  /** The settlement after the stake was let go. */
  lemma RefundsAfterRelease(s: State, t: State, j: JobId)
    requires j in s.escrows && JobInv(s.escrows[j], s.LedgerOf(j)) && s.escrows[j].status == Verifying
    requires j in t.escrows && t.escrows[j].target == Some(FullRefund) && t.escrows[j].terms == s.escrows[j].terms
    requires t.escrows[j].workerStake.None? && t.escrows[j].workerPubkey == s.escrows[j].workerPubkey
    requires t.escrows[j].workerPubkey.None? ==> t.escrows[j].pendingPayout.None? && t.escrows[j].pendingStake.None?
    requires t.LedgerOf(j) == ReleasedLedger(s.escrows[j], s.LedgerOf(j), LegacyWorker(s.escrows[j]))
    requires t.balances == s.balances && t.outbox == s.outbox + StakeBack(j, s.escrows[j])
    ensures AfterSettle(t, j).Some? && RefundedWithoutVerdict(s, AfterSettle(t, j).value, j)
  {
    var e := s.escrows[j];
    SettleLaunches(t, j, [Transfer(e.terms.agent, e.terms.amount)]);
  }

  /** The code means to return the stake when verification gave no verdict. It does so for a worker
      with a NEAR account; an internal worker's stake is kept, because the settlement that follows
      overwrites the credit that was put on hold for it. */
  lemma StakeWithoutVerdict(s: State, j: JobId, payload: Payload)
    requires Reachable(s) && j in s.escrows && s.escrows[j].status == Verifying && !payload.Parsed?
    ensures AfterVerification(s, j, payload).Some?
    ensures RefundedWithoutVerdict(s, AfterVerification(s, j, payload).value, j)
  {
    ReachableInv(s);
    assert JobOk(s, j);
    JudgedShape(s, j, payload);
    ReleaseSends(s, j);
    RefundsAfterRelease(s, JudgedState(s, j, payload), j);
  }

  /** And in the same way when a verification that expired is refunded. */
  lemma StakeOfExpiredVerification(s: State, env: Env, j: JobId)
    requires Reachable(s) && j in s.escrows && s.escrows[j].status == Verifying && AfterRefundExpired(s, env, j).Some?
    ensures RefundedWithoutVerdict(s, AfterRefundExpired(s, env, j).value, j)
    ensures var e' := AfterRefundExpired(s, env, j).value.escrows[j]; e'.dataId.None? && !e'.yieldConsumed
  {
    ReachableInv(s);
    assert JobOk(s, j);
    RefundExpiredIs(s, env, j);
    ExpiredVerification(s, j);
  }

  lemma ExpiredVerification(s: State, j: JobId)
    requires j in s.escrows && JobInv(s.escrows[j], s.LedgerOf(j)) && s.escrows[j].status == Verifying
    ensures var r := FullyRefunding(Abandoned(s, j, LegacyWorker(s.escrows[j])), j);
      && r.Some? && RefundedWithoutVerdict(s, r.value, j)
      && r.value.escrows[j].dataId.None? && !r.value.escrows[j].yieldConsumed
  {
    var t := Abandoned(s, j, LegacyWorker(s.escrows[j]));
    AbandonedJob(s, j, LegacyWorker(s.escrows[j]));
    ReleaseBooks(s, j, LegacyWorker(s.escrows[j]));
    ReleaseSends(s, j);
    RefundsAfterRelease(s, t.Put(j, t.escrows[j].(target := Some(FullRefund))), j);
    RefundKeepsYield(t, j);
  }

  lemma RefundKeepsYield(t: State, j: JobId)
    requires j in t.escrows && FullyRefunding(t, j).Some?
    ensures var e, u := t.escrows[j], FullyRefunding(t, j).value;
      j in u.escrows && u.escrows[j].dataId == e.dataId && u.escrows[j].yieldConsumed == e.yieldConsumed
  {
    SettleShape(t.Put(j, t.escrows[j].(target := Some(FullRefund))), j);
  }

  // ---- status safety ----

  lemma EvolvesTransitive(a: Escrow, b: Escrow, c: Escrow)
    requires Evolves(a, b) && Evolves(b, c)
    ensures Evolves(a, c)
  {
  }

  /** As long as no clean-up removes it, a job keeps its terms, its worker once named, and never
      falls back in rank; Claimed, Refunded, and Cancelled without a target are for good. */
  lemma {:induction false} JobsOnlyMoveForward(s: State, calls: seq<Call>, j: JobId)
    requires JobsInv(s) && j in s.escrows
    requires forall i :: 0 <= i < |calls| && calls[i].op.CleanupCompleted? ==> j !in calls[i].op.gone
    ensures j in Run(s, calls).escrows && Evolves(s.escrows[j], Run(s, calls).escrows[j])
  {
    if calls != [] {
      var before, last := calls[..|calls| - 1], calls[|calls| - 1];
      JobsOnlyMoveForward(s, before, j);
      RunKeepsJobs(s, before);
      var t := Run(s, before);
      StepKeepsJobs(t, last);
      if last.op.CleanupCompleted? {
        assert j in Apply(t, last).escrows;
      }
      EvolvesTransitive(s.escrows[j], t.escrows[j], Apply(t, last).escrows[j]);
    }
  }

  /** A job ends Claimed only on a stored verdict that passed at or above its threshold. */
  lemma ClaimedMeansPassed(s: State, j: JobId)
    requires Reachable(s) && j in s.escrows && s.escrows[j].status == Claimed
    ensures s.escrows[j].verdict.Some? && s.escrows[j].verdict.value.passed
    ensures s.escrows[j].verdict.value.score >= s.escrows[j].terms.scoreThreshold
    ensures s.escrows[j].worker.Some?
  {
    ReachableInv(s);
    assert JobOk(s, j);
  }

  // ---- recovery ----

  /** From every reachable state: `refund_expired` on a live job panics exactly while the contract is
      paused, the job has not expired, or its verification is still within the safety time. */
  lemma RefundExpiredEnabled(s: State, env: Env, j: JobId)
    requires Reachable(s) && j in s.escrows
    requires var st := s.escrows[j].status; st == Open || st == InProgress || st == Verifying || st == SettlementFailed
    ensures AfterRefundExpired(s, env, j).Some? <==>
      && !s.cfg.paused
      && env.nowMs > s.escrows[j].terms.createdAt + s.escrows[j].terms.timeoutMs
      && (s.escrows[j].status == Verifying ==> env.nowMs >= SafetyDeadline(s.escrows[j]))
  {
    ReachableInv(s);
    assert JobOk(s, j);
    var e := s.escrows[j];
    match e.status
    case Open => FullRefundKeepsJob(s, j);
    case InProgress => ForfeitKeepsJob(s, j, Some(e.terms.agent));
    case Verifying =>
      AbandonedJob(s, j, LegacyWorker(e));
      AbandonKeepsJob(s, Abandoned(s, j, LegacyWorker(e)), j, LegacyWorker(e), Verifying);
    case SettlementFailed => SettleKeepsJob(s, s, j, e, s.LedgerOf(j));
  }

  /** And once it went ahead, a batch that goes through leaves the job Claimed or Refunded. */
  lemma RecoveryCompletes(s: State, env: Env, j: JobId, results: seq<bool>)
    requires Reachable(s) && AfterRefundExpired(s, env, j).Some? && s.escrows[j].status != PendingFunding
    requires results != [] && AllOk(results)
    ensures var t := AfterRefundExpired(s, env, j).value;
      && j in t.escrows
      && (t.escrows[j].status == Claimed
          || (AfterSettleCallback(t, j, results).Some?
              && var done := AfterSettleCallback(t, j, results).value.escrows[j].status;
                done == Claimed || done == Refunded))
  {
    ReachableInv(s);
    assert JobOk(s, j);
    var t := AfterRefundExpired(s, env, j).value;
    RefundExpiredKeepsJob(s, env, j);
    RefundLeavesTarget(s, env, j);
    if t.escrows[j].target.Some? {
      FinishKeepsJob(t, j);
    }
  }

  lemma SettleLeavesTarget(t: State, j: JobId)
    requires AfterSettle(t, j).Some?
    ensures j in AfterSettle(t, j).value.escrows
    ensures var e := AfterSettle(t, j).value.escrows[j]; e.target.Some? || e.status == Claimed
  {
    var e := t.escrows[j];
    assert Plan(e, t.cfg.owner) == Some([]) ==> e.target == Some(Claim);
  }

  lemma RefundLeavesTarget(s: State, env: Env, j: JobId)
    requires AfterRefundExpired(s, env, j).Some? && s.escrows[j].status != PendingFunding
    ensures var t := AfterRefundExpired(s, env, j).value;
      j in t.escrows && (t.escrows[j].target.Some? || t.escrows[j].status == Claimed)
  {
    var e := s.escrows[j];
    var ready := match e.status
      case Open => s
      case InProgress => Released(s, j, Some(e.terms.agent))
      case Verifying => Abandoned(s, j, LegacyWorker(e))
      case _ => s;
    if e.status == SettlementFailed {
      SettleLeavesTarget(s, j);
    } else {
      SettleLeavesTarget(ready.Put(j, ready.escrows[j].(target := Some(FullRefund))), j);
    }
  }
}

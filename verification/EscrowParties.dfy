/** What the parties of a job can rely on: who is paid on which verdict, where every stake goes, and what
    naming a winner means. */
module EscrowParties {
  import opened Basics
  import opened EscrowState
  import opened EscrowSpec
  import opened EscrowRuns
  import opened EscrowTraffic
  import opened EscrowPayees
  import EscrowStakes
  import EscrowTheorems
  import EscrowWallet

  // ---- the verdict ----

  lemma SettledIs(e: Escrow, l: Ledger, owner: AccountId)
    requires ReadyToSettle(e, l)
    ensures var e', inside := SettledJob(e, owner), Due(e, e.target.value, owner) == [];
      && e'.terms == e.terms && e'.verdict == e.verdict && e'.dataId == e.dataId
      && e'.yieldConsumed == e.yieldConsumed && e'.submissions == e.submissions
      && e'.status == (if inside then Claimed else e.status) && e'.target == (if inside then None else e.target)
  {
    PlanIsDue(e, l, owner);
  }

  lemma JudgedAndSettled(s: State, j: JobId, payload: Payload)
    requires j in s.escrows && JobInv(s.escrows[j], s.LedgerOf(j)) && s.escrows[j].status == Verifying
    ensures AfterVerification(s, j, payload).Some?
    ensures var u := AfterVerification(s, j, payload).value;
      u.escrows == s.escrows[j := SettledJob(Judged(s.escrows[j], payload), s.cfg.owner)]
    ensures ReadyToSettle(Judged(s.escrows[j], payload), JudgedLedger(s.escrows[j], s.LedgerOf(j), payload))
  {
    var e, t := s.escrows[j], JudgedState(s, j, payload);
    JudgedIsReady(e, s.LedgerOf(j), payload);
    JudgedShape(s, j, payload);
    JudgingSends(s, j, payload);
    PlanIsDue(Judged(e, payload), JudgedLedger(e, s.LedgerOf(j), payload), s.cfg.owner);
    SettleShape(t, j);
    assert AfterVerification(s, j, payload) == AfterSettle(t, j);
  }

  /** The job after a verdict: what is stored, and where its settlement aims. */
  predicate DecidedBy(e: Escrow, e': Escrow, payload: Payload) {
    var passing := Passing(payload, e.terms.scoreThreshold);
    && (e'.status == Claimed || e'.target == Some(Claim) <==> passing)
    && (e'.target == Some(Refund) <==> payload.Parsed? && !passing)
    && (e'.target == Some(FullRefund) <==> !payload.Parsed?)
    && (e'.status == Claimed <==> passing && e.workerPubkey.Some? && e.terms.fee == 0)
    && (e'.status != Claimed ==> e'.status == Verifying)
    && (e'.verdict.Some? <==> payload.Parsed?)
    && (payload.Parsed? ==> e'.verdict == Some(Verdict(
          GetOr(payload.score, 0) % 256, passing, if payload.detail.Some? then payload.detail.value else "no detail")))
    && e'.dataId.None? && e'.yieldConsumed && e'.submissions == e.submissions
  }

  lemma VerdictStored(s: State, j: JobId, payload: Payload)
    requires j in s.escrows && JobInv(s.escrows[j], s.LedgerOf(j)) && s.escrows[j].status == Verifying
    ensures AfterVerification(s, j, payload).Some? && j in AfterVerification(s, j, payload).value.escrows
    ensures DecidedBy(s.escrows[j], AfterVerification(s, j, payload).value.escrows[j], payload)
  {
    JudgedAndSettled(s, j, payload);
    JudgedAim(s.escrows[j], payload);
    SettledIs(Judged(s.escrows[j], payload), JudgedLedger(s.escrows[j], s.LedgerOf(j), payload), s.cfg.owner);
  }

  /** From every reachable state, whatever comes back from the verifier: the job is paid out if and only if
      the payload passes, refunded less the fee if and only if it is a verdict that does not pass, and
      refunded whole if and only if it is no verdict. What is launched are the transfers due for that, after
      the stake of an external worker that got no verdict. */
  lemma VerdictDecides(s: State, j: JobId, payload: Payload)
    requires EscrowTheorems.Reachable(s) && j in s.escrows && s.escrows[j].status == Verifying
    ensures AfterVerification(s, j, payload).Some? && j in AfterVerification(s, j, payload).value.escrows
    ensures var e, u := s.escrows[j], AfterVerification(s, j, payload).value;
      DecidedBy(e, u.escrows[j], payload) && u.outbox == s.outbox + Judging(s, j, e, payload)
  {
    assert JobInv(s.escrows[j], s.LedgerOf(j)) by {
      EscrowTheorems.ReachableInv(s);
      assert JobOk(s, j);
    }
    VerdictStored(s, j, payload);
    VerdictSent(s, j, payload);
  }

  lemma VerdictSent(s: State, j: JobId, payload: Payload)
    requires j in s.escrows && JobInv(s.escrows[j], s.LedgerOf(j)) && s.escrows[j].status == Verifying
    ensures AfterVerification(s, j, payload).Some?
    ensures AfterVerification(s, j, payload).value.outbox == s.outbox + Judging(s, j, s.escrows[j], payload)
  {
    JudgedSends(s, j, payload);
  }

  // ---- batches ----

  /** The batch `b` is for job `j`, in its token, and pays its parties as the target says. */
  predicate PaysParties(s: State, u: State, j: JobId, b: Promise) {
    && b.Batch? && b.job == j && j in u.escrows
    && var e := u.escrows[j];
      && b.token == e.terms.token && e.target.Some? && e.terms.fee < e.terms.amount
      && b.transfers == Due(e, e.target.value, s.cfg.owner) && b.transfers != []
  }

  lemma LastIsBatch(before: seq<Promise>, after: seq<Promise>, i: nat)
    requires |before| <= i < |after| && !Minor(after[i]) && Calm(before, after[..|after| - 1])
    ensures i == |after| - 1
  {
    var front := after[..|after| - 1];
    assert forall k :: |before| <= k < |front| ==> Minor(front[k]) && front[k] == after[k];
  }

  lemma AimedIsReady(e: Escrow, l: Ledger)
    requires JobInv(e, l) && e.target.Some?
    ensures ReadyToSettle(e, l) && e.terms.fee < e.terms.amount
  {
  }

  lemma SettledByBatch(s: State, u: State, j: JobId, i: nat)
    requires Settles(s, u, j) && |s.outbox| <= i < |u.outbox| && u.outbox[i].Batch?
    ensures Launches(s, u, j) && i == |u.outbox| - 1
  {
    assert !Minor(u.outbox[i]);
    LastIsBatch(s.outbox, u.outbox, i);
  }

  /** Whatever settling call launched it: a batch is for its job, in its token, and pays the parties as the
      job's target says. */
  lemma SettlingBatch(s: State, env: Env, op: Op, i: nat)
    requires JobsInv(s) && KeysOk(s) && SettlingOp(op) && Attempt(s, env, op).Some?
    requires var u := Attempt(s, env, op).value; |s.outbox| <= i < |u.outbox| && u.outbox[i].Batch?
    ensures var u := Attempt(s, env, op).value;
      i == |u.outbox| - 1 && PaysParties(s, u, JobOf(op).value, u.outbox[i])
  {
    hide Attempt, Plan, Due, ReadyToSettle, Settles, JobInv;
    var u, j := Attempt(s, env, op).value, JobOf(op).value;
    assert Settles(s, u, j) by { SettlingTraffic(s, env, op); }
    SettledByBatch(s, u, j, i);
    assert u.escrows[j].terms.fee < u.escrows[j].terms.amount && ReadyToSettle(u.escrows[j], u.LedgerOf(j)) by {
      StepKeepsJobs(s, Call(env, op));
      assert JobOk(u, j);
      AimedIsReady(u.escrows[j], u.LedgerOf(j));
    }
    PlanIsDue(u.escrows[j], u.LedgerOf(j), s.cfg.owner);
  }

  lemma LosersAreNear(j: JobId, subs: seq<Submission>, winner: nat)
    requires winner < |subs|
    ensures forall p :: p in LosersStakes(j, subs, winner) ==> p.Near?
  {
  }

  /** The calls that settle nothing launch no batch. */
  lemma OthersLaunchNone(s: State, env: Env, op: Op, i: nat)
    requires JobsInv(s) && JobOf(op).Some? && !SettlingOp(op) && Attempt(s, env, op).Some?
    requires |s.outbox| <= i < |Attempt(s, env, op).value.outbox|
    ensures !Attempt(s, env, op).value.outbox[i].Batch?
  {
    NewOfJob(s, env, op, i);
    if op.DesignateWinner? && op.job in s.escrows && op.idx < |s.escrows[op.job].submissions| {
      LosersAreNear(op.job, s.escrows[op.job].submissions, op.idx);
    }
  }

  lemma WalletsLaunchNone(s: State, env: Env, op: Op, i: nat)
    requires JobOf(op).None? && Attempt(s, env, op).Some?
    requires |s.outbox| <= i < |Attempt(s, env, op).value.outbox|
    ensures op.Withdraw? && !Attempt(s, env, op).value.outbox[i].Batch?
    ensures Attempt(s, env, op).value.outbox[i].Near? ==> !Attempt(s, env, op).value.outbox[i].reason.StakeOf?
  {
    if op.Withdraw? {
      EscrowStakes.WithdrawalSends(s, env, op);
    } else {
      EscrowStakes.OtherWalletCallsSendNothing(s, env, op, "");
    }
  }

  /** Over every call there is: each new batch comes from a settling call and pays the parties of its job
      as the target that the call leaves behind says. */
  lemma BatchesPayParties(s: State, call: Call, i: nat)
    requires EscrowTheorems.Reachable(s)
    requires |s.outbox| <= i < |Apply(s, call).outbox| && Apply(s, call).outbox[i].Batch?
    ensures var b := Apply(s, call).outbox[i];
      SettlingOp(call.op) && JobOf(call.op) == Some(b.job) && PaysParties(s, Apply(s, call), b.job, b)
  {
    ReachableKeys(s);
    var env, op := call.env, call.op;
    if JobOf(op).None? {
      WalletsLaunchNone(s, env, op, i);
    } else if SettlingOp(op) {
      SettlingBatch(s, env, op, i);
    } else {
      OthersLaunchNone(s, env, op, i);
    }
  }

  lemma ReachableKeys(s: State)
    requires EscrowTheorems.Reachable(s)
    ensures JobsInv(s) && KeysOk(s)
  {
    var self, owner, allowed, calls :| s == Run(Initial(self, owner, allowed), calls);
    EscrowWallet.RunKeepsNonces(Initial(self, owner, allowed), calls);
  }

  // ---- stakes ----

  /** The stake of a worker who let the job expire is the agent's. */
  lemma ForfeitedToAgent(s: State, env: Env, j: JobId)
    requires EscrowTheorems.Reachable(s) && j in s.escrows && s.escrows[j].status == InProgress
    requires AfterRefundExpired(s, env, j).Some?
    ensures var e, u := s.escrows[j], AfterRefundExpired(s, env, j).value;
      u.outbox == s.outbox
        + ((if e.workerStake.Some? then [Near(e.terms.agent, e.workerStake.value, StakeOf(j))] else [])
           + [Batch(j, e.terms.token, [Transfer(e.terms.agent, e.terms.amount)])])
  {
    assert JobInv(s.escrows[j], s.LedgerOf(j)) by {
      EscrowTheorems.ReachableInv(s);
      assert JobOk(s, j);
    }
    ForfeitSends(s, j);
    RefundExpiredIs(s, env, j);
  }

  /** Where a stake of `j` goes. */
  predicate StakeRightlySent(e: Escrow, op: Op, to: AccountId, amount: nat) {
    match op
    case RefundExpired(_) =>
      && e.workerStake == Some(amount)
      && if e.status == InProgress then to == e.terms.agent else e.worker == Some(to) && e.workerPubkey.None?
    case DesignateWinner(_, idx) =>
      exists k :: 0 <= k < |e.submissions| && k != idx
        && e.submissions[k].worker == to && e.submissions[k].stake == amount
    case ForceCancelVerifying(_) => e.workerStake == Some(amount) && e.worker == Some(to)
    case VerificationCallback(_, payload) =>
      !payload.Parsed? && e.workerStake == Some(amount) && e.worker == Some(to) && e.workerPubkey.None?
    case SettleCallback(_, _) => e.workerStake == Some(amount) && e.worker == Some(to) && e.workerPubkey.None?
    case _ => false
  }

  lemma LosersGetTheirOwn(j: JobId, e: Escrow, idx: nat, p: Promise)
    requires idx < |e.submissions| && p in LosersStakes(j, e.submissions, idx)
    ensures p.Near? && p.reason == StakeOf(j) && StakeRightlySent(e, DesignateWinner(j, idx), p.to, p.amount)
  {
    var k :| 0 <= k < |e.submissions| - 1 && LosersStakes(j, e.submissions, idx)[k] == p;
    assert e.submissions[if k < idx then k else k + 1].worker == p.to;
  }

  lemma SettlementsSendNoStake(s: State, j: JobId, e: Escrow, aim: Target, p: Promise)
    requires p in Settlement(s, j, e, aim) || p in Returning(j, e) || p in DepositBack(s, e)
    ensures p.Near? ==> !p.reason.StakeOf?
  {
  }

  lemma ExpiringStakes(s: State, j: JobId, e: Escrow, p: Promise)
    requires p in Expiring(s, j, e) && p.Near? && p.reason.StakeOf?
    ensures p.reason == StakeOf(j) && StakeRightlySent(e, RefundExpired(j), p.to, p.amount)
  {
    if e.status == SettlementFailed && e.target.Some? {
      SettlementsSendNoStake(s, j, e, e.target.value, p);
    }
  }

  lemma LaunchedStakes(s: State, env: Env, op: Op, p: Promise)
    requires JobsInv(s) && JobOf(op).Some? && Attempt(s, env, op).Some?
    requires p in Launched(s, env, op) && p.Near? && p.reason.StakeOf?
    ensures JobOf(op).value in s.escrows && p.reason == StakeOf(JobOf(op).value)
    ensures StakeRightlySent(s.escrows[JobOf(op).value], op, p.to, p.amount)
  {
    var e := s.escrows[JobOf(op).value];
    match op
    case DesignateWinner(j, idx) =>
      if p in LosersStakes(j, e.submissions, idx) {
        LosersGetTheirOwn(j, e, idx, p);
      }
    case RefundExpired(j) => ExpiringStakes(s, j, e, p);
    case VerificationCallback(j, payload) => JudgingStakes(s, j, e, payload, p);
    case RetrySettlement(j) => SettlementsSendNoStake(s, j, e, e.target.value, p);
    case SettleCallback(j, _) => assert p in StakeTo(j, e, OwnAccount(e));
    case ForceCancelVerifying(j) => assert p in StakeTo(j, e, e.worker);
    case _ =>
  }

  lemma JudgingStakes(s: State, j: JobId, e: Escrow, payload: Payload, p: Promise)
    requires p.Near? && p.reason.StakeOf?
    requires p in Judging(s, j, e, payload)
    ensures p.reason == StakeOf(j) && StakeRightlySent(e, VerificationCallback(j, payload), p.to, p.amount)
  {
    if p !in StakeTo(j, e, OwnAccount(e)) {
      var aim :=
        if Passing(payload, e.terms.scoreThreshold) then Claim else if payload.Parsed? then Refund else FullRefund;
      SettlementsSendNoStake(s, j, e, aim, p);
    }
  }

  lemma NewOfJob(s: State, env: Env, op: Op, i: nat)
    requires JobsInv(s) && JobOf(op).Some? && Attempt(s, env, op).Some?
    requires |s.outbox| <= i < |Attempt(s, env, op).value.outbox|
    ensures Attempt(s, env, op).value.outbox[i] in Launched(s, env, op)
  {
    CallSends(s, env, op);
    InTail(s.outbox, Launched(s, env, op), i);
  }

  lemma InTail(a: seq<Promise>, b: seq<Promise>, i: nat)
    requires |a| <= i < |a + b|
    ensures (a + b)[i] in b
  {
    assert (a + b)[i] == b[i - |a|];
  }

  /** Over every call there is: a stake is only ever sent to the agent when a job that was not delivered has
      expired, to its own submitter when another one is named the winner, and to the job's worker otherwise. */
  lemma StakesGoTo(s: State, call: Call, i: nat)
    requires EscrowTheorems.Reachable(s)
    requires var u := Apply(s, call); |s.outbox| <= i < |u.outbox| && u.outbox[i].Near? && u.outbox[i].reason.StakeOf?
    ensures var p := Apply(s, call).outbox[i];
      && JobOf(call.op) == Some(p.reason.job) && p.reason.job in s.escrows
      && StakeRightlySent(s.escrows[p.reason.job], call.op, p.to, p.amount)
  {
    EscrowTheorems.ReachableInv(s);
    var env, op, u := call.env, call.op, Apply(s, call);
    if JobOf(op).Some? {
      NewOfJob(s, env, op, i);
      LaunchedStakes(s, env, op, u.outbox[i]);
    } else {
      WalletsLaunchNone(s, env, op, i);
    }
  }

  // ---- the winner ----

  lemma WinnerIs(s: State, env: Env, j: JobId, idx: nat)
    requires j in s.escrows && s.escrows[j].status == Open && AfterDesignateWinner(s, env, j, idx).Some?
    ensures idx < |s.escrows[j].submissions|
    ensures AfterDesignateWinner(s, env, j, idx).value.escrows == s.escrows[j := Designated(s.escrows[j], env, idx)]
  {
  }

  /** One submission's stake, to its submitter. */
  function StakeBackTo(j: JobId, sub: Submission): Promise {
    Near(sub.worker, sub.stake, StakeOf(j))
  }

  lemma LosersInOrder(j: JobId, subs: seq<Submission>, idx: nat)
    requires idx < |subs|
    ensures var sent := LosersStakes(j, subs, idx);
      && |sent| == |subs| - 1
      && (forall k :: 0 <= k < idx ==> sent[k] == StakeBackTo(j, subs[k]))
      && (forall k :: idx < k < |subs| ==> sent[k - 1] == StakeBackTo(j, subs[k]))
  {
  }

  /** What naming a winner launches: each other submission's stake back to its own submitter, in order, and
      the yield. */
  predicate LosersRepaid(j: JobId, subs: seq<Submission>, idx: nat, sent: seq<Promise>, yielded: Promise) {
    && |sent| == |subs| && idx < |subs| && sent[|subs| - 1] == yielded
    && (forall k :: 0 <= k < idx ==> sent[k] == StakeBackTo(j, subs[k]))
    && (forall k :: idx < k < |subs| ==> sent[k - 1] == StakeBackTo(j, subs[k]))
  }

  lemma NamingSends(s: State, env: Env, j: JobId, idx: nat)
    requires j in s.escrows && s.escrows[j].status == Open && AfterDesignateWinner(s, env, j, idx).Some?
    ensures s.outbox <= AfterDesignateWinner(s, env, j, idx).value.outbox
    ensures LosersRepaid(j, s.escrows[j].submissions, idx,
                         AfterDesignateWinner(s, env, j, idx).value.outbox[|s.outbox|..], Yield(env.yieldId, j))
  {
    WinnerIs(s, env, j, idx);
    DesignateSends(s, env, j, idx);
    LosersInOrder(j, s.escrows[j].submissions, idx);
    assert AfterDesignateWinner(s, env, j, idx).value.outbox[|s.outbox|..]
      == LosersStakes(j, s.escrows[j].submissions, idx) + [Yield(env.yieldId, j)];
  }

  /** Naming a winner: the job becomes that submission's, and each other submitter gets the stake of its own
      submission, in order. */
  lemma WinnerIsBound(s: State, env: Env, j: JobId, idx: nat)
    requires j in s.escrows && s.escrows[j].status == Open && AfterDesignateWinner(s, env, j, idx).Some?
    ensures idx < |s.escrows[j].submissions| && j in AfterDesignateWinner(s, env, j, idx).value.escrows
    ensures var e, e' := s.escrows[j], AfterDesignateWinner(s, env, j, idx).value.escrows[j];
      var sub := e.submissions[idx];
      && e'.worker == Some(sub.worker) && e'.result == Some(sub.result) && e'.workerStake == Some(sub.stake)
      && e'.winner == Some(idx) && e'.submissions == e.submissions && e'.workerPubkey == e.workerPubkey
      && e'.status == Verifying && e'.dataId == Some(env.yieldId) && e'.verifyingSince == Some(env.nowMs)
    ensures s.outbox <= AfterDesignateWinner(s, env, j, idx).value.outbox
    ensures LosersRepaid(j, s.escrows[j].submissions, idx,
                         AfterDesignateWinner(s, env, j, idx).value.outbox[|s.outbox|..], Yield(env.yieldId, j))
  {
    WinnerIs(s, env, j, idx);
    NamingSends(s, env, j, idx);
  }

  /** In every run, as long as the job is there: it is the winning submission that is bound, and nothing of
      it changes any more. */
  lemma WinnerStays(s: State, j: JobId)
    requires EscrowTheorems.Reachable(s) && j in s.escrows && s.escrows[j].winner.Some?
    ensures var e := s.escrows[j];
      && e.winner.value < |e.submissions|
      && e.worker == Some(e.submissions[e.winner.value].worker)
      && e.result == Some(e.submissions[e.winner.value].result)
      && (e.workerStake.Some? ==> e.workerStake == Some(e.submissions[e.winner.value].stake))
      && e.workerPubkey.None?
  {
    EscrowTheorems.ReachableInv(s);
    assert JobOk(s, j);
  }

  /** So a competition that is paid out pays the winning submission's worker, by transfer, and first. */
  lemma WinnerIsPaid(s: State, call: Call, i: nat)
    requires EscrowTheorems.Reachable(s)
    requires |s.outbox| <= i < |Apply(s, call).outbox| && Apply(s, call).outbox[i].Batch?
    requires var u, b := Apply(s, call), Apply(s, call).outbox[i];
      b.job in u.escrows && u.escrows[b.job].winner.Some? && u.escrows[b.job].target == Some(Claim)
    ensures var e, ts := Apply(s, call).escrows[Apply(s, call).outbox[i].job], Apply(s, call).outbox[i].transfers;
      && e.winner.value < |e.submissions| && ts != [] && e.terms.fee < e.terms.amount
      && ts[0] == Transfer(e.submissions[e.winner.value].worker, e.terms.amount - e.terms.fee)
  {
    EscrowTheorems.ReachableInv(s);
    BatchesPayParties(s, call, i);
    StepKeepsJobs(s, call);
    assert JobOk(Apply(s, call), Apply(s, call).outbox[i].job);
  }

  // ---- whole runs ----

  /** What a call launches, on a job or from a wallet; nothing if it panics. */
  function LaunchedBy(s: State, call: Call): seq<Promise> {
    var env, op := call.env, call.op;
    if Attempt(s, env, op).None? then []
    else if JobOf(op).Some? then Launched(s, env, op)
    else if op.Withdraw? then
      [if op.token == "near" then Near(op.to, op.amount, Wallet) else Ft(op.token, Transfer(op.to, op.amount))]
    else []
  }

  function AllLaunched(s: State, calls: seq<Call>): seq<Promise> {
    if calls == [] then []
    else
      var before := calls[..|calls| - 1];
      AllLaunched(s, before) + LaunchedBy(Run(s, before), calls[|calls| - 1])
  }

  lemma StepLaunches(s: State, call: Call)
    requires JobsInv(s)
    ensures Apply(s, call).outbox == s.outbox + LaunchedBy(s, call)
  {
    var env, op := call.env, call.op;
    if Attempt(s, env, op).Some? {
      if JobOf(op).Some? {
        CallSends(s, env, op);
      } else if op.Withdraw? {
        EscrowStakes.WithdrawalSends(s, env, op);
      } else {
        EscrowStakes.OtherWalletCallsSendNothing(s, env, op, "");
      }
    }
  }

  lemma Chained(o: seq<Promise>, a: seq<Promise>, b: seq<Promise>)
    ensures (o + a) + b == o + (a + b)
  {
  }

  /** All that a run ever launched is what its calls owed the parties, call by call and in order. */
  lemma {:induction false} RunLaunches(s: State, calls: seq<Call>)
    requires JobsInv(s)
    ensures Run(s, calls).outbox == s.outbox + AllLaunched(s, calls)
  {
    hide Apply, LaunchedBy, JobsInv;
    if calls != [] {
      var before, last := calls[..|calls| - 1], calls[|calls| - 1];
      RunLaunches(s, before);
      assert JobsInv(Run(s, before)) by { EscrowTheorems.RunKeepsJobs(s, before); }
      StepLaunches(Run(s, before), last);
      Chained(s.outbox, AllLaunched(s, before), LaunchedBy(Run(s, before), last));
    }
  }
}

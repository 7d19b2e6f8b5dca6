/** The ways a settling call on a job whose batch is in flight can cost the escrow, one by one: what each
    needs as surplus, exactly. */
module Reaiming {
  import opened Basics
  import opened EscrowState
  import opened EscrowSpec
  import opened EscrowRuns
  import opened EscrowTraffic
  import opened EscrowInside
  import opened World
  import opened Solvency
  import opened Overdraft
  import opened Surplus
  import Conservation

  /** Worlds that some run reaches, with or without the assumptions on batches. */
  ghost predicate FreeReachable(w: World) {
    exists w0, owner, allowed, steps :: Start(w0, owner, allowed) && w == FreeRun(w0, steps)
  }

  lemma FreeReachableInv(w: World)
    requires FreeReachable(w)
    ensures FreeInv(w)
  {
    var w0, owner, allowed, steps :| Start(w0, owner, allowed) && w == FreeRun(w0, steps);
    StartIsFree(w0, owner, allowed);
    RunMoves(w0, steps);
  }

  /** Whatever happened before: a step leaves the escrow solvent if and only if its surplus covers what the
      step costs. */
  lemma SolventAfter(w: World, step: FreeStep)
    requires FreeReachable(w)
    ensures Solvent(FreeNext(w, step)) <==> w.token.BalanceOf(Self(w)) + Change(w, step) >= Liabilities(w)
  {
    FreeReachableInv(w);
    StepMoves(w, step);
  }

  // ---- what the steps cost ----

  /** The wallet has room for the amount. */
  predicate Roomy(w: World, pk: Pubkey, amount: nat) {
    BalanceOf(w.escrow.balances, pk, w.id) + amount <= U128_MAX
  }

  /** The settling call credits an internal worker at once, in the honest token and with room to do so. */
  predicate PaysRoomy(w: World, op: Op) {
    && SettlingOp(op) && JobOf(op).value in w.escrow.escrows
    && var e := w.escrow.escrows[JobOf(op).value];
      PaysNow(op, e) && e.terms.token == w.id && e.workerPubkey.Some? && Roomy(w, e.workerPubkey.value, e.terms.amount)
  }

  function Lesser(a: nat, b: nat): nat {
    if a < b then a else b
  }

  lemma CreditCosts(w: World, op: Op)
    requires PaysRoomy(w, op) && Funded(w.escrow.escrows[JobOf(op).value])
    ensures var j := JobOf(op).value;
      CreditChange(w, j) + Lesser(PaidOut(w.flights, j), w.escrow.escrows[j].terms.amount) == 0
  {
  }

  /** Paying at once finds a funded job. */
  lemma PaysFunded(w: World, call: Call)
    requires FreeReachable(w) && PaysRoomy(w, call.op) && Attempt(w.escrow, call.env, call.op).Some?
    ensures Funded(w.escrow.escrows[JobOf(call.op).value])
  {
    FreeReachableInv(w);
    SettlingOutcome(w.escrow, call.env, call.op, w.id);
  }

  lemma PayingChange(w: World, call: Call)
    requires PaysRoomy(w, call.op) && Attempt(w.escrow, call.env, call.op).Some?
    ensures Change(w, AnyCall(call)) == CreditChange(w, JobOf(call.op).value)
  {
  }

  /** A settling call that pays inside pays again what the batch in flight has paid already. */
  lemma PayingInsideNeedsSurplus(w: World, call: Call)
    requires FreeReachable(w) && PaysRoomy(w, call.op) && Attempt(w.escrow, call.env, call.op).Some?
    ensures var j := JobOf(call.op).value;
      Solvent(FreeNext(w, AnyCall(call))) <==>
      w.token.BalanceOf(Self(w))
        >= Liabilities(w) + Lesser(PaidOut(w.flights, j), w.escrow.escrows[j].terms.amount)
  {
    SolventAfter(w, AnyCall(call));
    PaysFunded(w, call);
    PayingChange(w, call);
    CreditCosts(w, call.op);
  }

  /** A batch is through, its job is to be settled, and the wallet has room. */
  predicate ReportsRoomy(w: World, j: JobId) {
    && j in w.flights && !w.flights[j].failed && !w.flights[j].orphan && w.flights[j].left == []
    && j in w.escrow.escrows
    && var e := w.escrow.escrows[j];
      && e.target.Some? && e.terms.token == w.id && (e.pendingPayout.Some? ==> e.workerPubkey.Some?)
      && (e.workerPubkey.Some? ==> Roomy(w, e.workerPubkey.value, GetOr(e.pendingPayout, 0)))
  }

  lemma ReportCosts(w: World, env: Env, j: JobId)
    requires ReportsRoomy(w, j) && Funded(w.escrow.escrows[j])
    ensures var e := w.escrow.escrows[j];
      Change(w, Kept(BatchCallback(env, j)))
        == SatSub(e.terms.amount, SumOf(w.flights[j].transfers)) - GetOr(e.pendingPayout, 0)
  {
  }

  lemma AimedIsFunded(w: World, j: JobId)
    requires FreeReachable(w) && j in w.escrow.escrows && w.escrow.escrows[j].target.Some?
    ensures Funded(w.escrow.escrows[j])
  {
    FreeReachableInv(w);
    assert JobOk(w.escrow, j);
  }

  /** The callback of a batch whose job was re-aimed meanwhile: what the batch paid and what is still credited
      may be more than the job's amount. */
  lemma ReaimedCallbackNeedsSurplus(w: World, env: Env, j: JobId)
    requires FreeReachable(w) && ReportsRoomy(w, j)
    ensures var e := w.escrow.escrows[j];
      Solvent(FreeNext(w, Kept(BatchCallback(env, j)))) <==>
      w.token.BalanceOf(Self(w)) + SatSub(e.terms.amount, SumOf(w.flights[j].transfers))
        >= Liabilities(w) + GetOr(e.pendingPayout, 0)
  {
    SolventAfter(w, Kept(BatchCallback(env, j)));
    AimedIsFunded(w, j);
    ReportCosts(w, env, j);
  }

  /** A transfer that is left of a batch whose job is owed nothing any more. */
  predicate Leftover(w: World, j: JobId, place: nat) {
    && j in w.flights && !w.flights[j].failed && !w.flights[j].orphan && place < |w.flights[j].left|
    && w.flights[j].left[place].receiver != Self(w) && OwedFor(w.escrow, j, w.id) == 0
  }

  lemma LeftoverCosts(w: World, j: JobId, place: nat)
    requires Leftover(w, j, place) && Sent(w, w.flights[j].left[place]).Some?
    ensures Change(w, Kept(RunTransfer(j, place))) + w.flights[j].left[place].amount == 0
  {
  }

  lemma LeftoverNeedsSurplus(w: World, j: JobId, place: nat)
    requires FreeReachable(w) && Leftover(w, j, place) && Sent(w, w.flights[j].left[place]).Some?
    ensures Solvent(FreeNext(w, Kept(RunTransfer(j, place))))
      <==> w.token.BalanceOf(Self(w)) >= Liabilities(w) + w.flights[j].left[place].amount
  {
    SolventAfter(w, Kept(RunTransfer(j, place)));
    LeftoverCosts(w, j, place);
  }

  // ---- a verdict that comes after the refund was paid ----

  /** An expired verification of an internal worker's job without a fee is being refunded. */
  lemma ExpiredRefund(s: State, env: Env, j: JobId)
    requires JobsInv(s) && j in s.escrows && s.escrows[j].status == Verifying && AfterRefundExpired(s, env, j).Some?
    ensures var u, e := AfterRefundExpired(s, env, j).value, s.escrows[j];
      && j in u.escrows && u.escrows[j].status == Verifying && u.escrows[j].terms == e.terms
      && u.escrows[j].workerPubkey == e.workerPubkey && u.balances == s.balances && u.cfg == s.cfg
      && NewPromise(s, u) == Some(Batch(j, e.terms.token, [RefundOf(e)]))
  {
    assert JobOk(s, j);
    RefundExpiredIs(s, env, j);
    var t := Abandoned(s, j, LegacyWorker(s.escrows[j]));
    AbandonedJob(s, j, LegacyWorker(s.escrows[j]));
    AbandonPrepares(s, j, LegacyWorker(s.escrows[j]));
    SettleLaunches(t.Put(j, t.escrows[j].(target := Some(FullRefund))), j, [RefundOf(s.escrows[j])]);
  }

  function LateVerdict(env: Env, j: JobId, payload: Payload): seq<FreeStep> {
    [Kept(Step.Escrow(Call(env, RefundExpired(j)))), Kept(RunTransfer(j, 0)),
     AnyCall(Call(env, VerificationCallback(j, payload)))]
  }

  lemma ThreeSteps(w: World, a: FreeStep, b: FreeStep, c: FreeStep)
    ensures FreeRun(w, [a, b, c]) == FreeNext(FreeNext(FreeNext(w, a), b), c)
  {
    OneStepMore(w, [], a);
    OneStepMore(w, [a], b);
    OneStepMore(w, [a, b], c);
    assert [] + [a] == [a] && [a] + [b] == [a, b] && [a, b] + [c] == [a, b, c];
  }

  /** The refund is launched: the job is the same but for its aim, and its batch is in flight. */
  predicate RefundAloft(w: World, w1: World, j: JobId) {
    && j in w.escrow.escrows && j in w1.escrow.escrows && j in w1.flights
    && var e, e' := w.escrow.escrows[j], w1.escrow.escrows[j];
      && w1.id == w.id && w1.token == w.token && Self(w1) == Self(w) && w1.escrow.balances == w.escrow.balances
      && e'.status == Verifying && e'.terms == e.terms && e'.workerPubkey == e.workerPubkey
      && w1.flights[j] == Flight([RefundOf(e)], [RefundOf(e)], false, false)
  }

  lemma RefundLaunched(w: World, env: Env, j: JobId)
    requires JobsInv(w.escrow) && j in w.escrow.escrows && j !in w.flights && w.escrow.escrows[j].terms.token == w.id
    requires w.escrow.escrows[j].status == Verifying && AfterRefundExpired(w.escrow, env, j).Some?
    ensures RefundAloft(w, AfterEscrow(w, Call(env, RefundExpired(j))), j)
  {
    ExpiredRefund(w.escrow, env, j);
    NotedIsAfter(w, Call(env, RefundExpired(j)));
    BatchNoted(w, AfterRefundExpired(w.escrow, env, j).value, j, w.id, [RefundOf(w.escrow.escrows[j])]);
  }

  lemma ExpiryCostsNothing(w: World, env: Env, j: JobId)
    requires j in w.escrow.escrows && w.escrow.escrows[j].status == Verifying
    ensures CallChange(w, Call(env, RefundExpired(j))) == 0
  {
  }

  lemma RefundIsFree(w: World, env: Env, j: JobId)
    requires FreeInv(w) && j in w.escrow.escrows && w.escrow.escrows[j].status == Verifying
    ensures var w1 := AfterEscrow(w, Call(env, RefundExpired(j))); FreeInv(w1) && Slack(w1) == Slack(w)
  {
    ExpiryCostsNothing(w, env, j);
    FreeCallMoves(w, Call(env, RefundExpired(j)));
  }

  /** The refund is paid: nothing more is due on the job. */
  lemma RefundPaid(w1: World, j: JobId, e: Escrow)
    requires FreeInv(w1) && j in w1.escrow.escrows && w1.escrow.escrows[j].terms == e.terms
    requires Funded(w1.escrow.escrows[j]) && e.terms.token == w1.id && e.terms.amount > 0 && e.terms.agent != Self(w1)
    requires j in w1.flights && w1.flights[j] == Flight([RefundOf(e)], [RefundOf(e)], false, false)
    requires e.terms.agent in w1.token.accounts && !w1.token.paused && w1.token.BalanceOf(Self(w1)) >= e.terms.amount
    ensures var w2 := AfterRunTransfer(w1, j, 0);
      && FreeInv(w2) && Slack(w2) == Slack(w1) && w2.escrow == w1.escrow && w2.id == w1.id && Due(w2, j) == 0
  {
    var p := RefundOf(e);
    SumOfTwo(p, p);
    SentGoesThrough(w1, p);
    FreeTransferMade(w1, j, 0);
    assert Without([p], 0) == [];
  }

  lemma VerdictGoesThrough(s: State, j: JobId, payload: Payload)
    requires JobsInv(s) && j in s.escrows && s.escrows[j].status == Verifying
    ensures AfterVerification(s, j, payload).Some?
  {
    var e := s.escrows[j];
    assert JobOk(s, j);
    JudgedIsReady(e, s.LedgerOf(j), payload);
    JudgedShape(s, j, payload);
    PlanExists(Judged(e, payload), JudgedLedger(e, s.LedgerOf(j), payload), s.cfg.owner);
    SettleShape(JudgedState(s, j, payload), j);
  }

  lemma VerdictPays(w2: World, env: Env, j: JobId, payload: Payload)
    requires FreeInv(w2) && PaysRoomy(w2, VerificationCallback(j, payload)) && Due(w2, j) == 0
    ensures var w3 := AfterEscrow(w2, Call(env, VerificationCallback(j, payload)));
      FreeInv(w3) && Slack(w3) == Slack(w2) - w2.escrow.escrows[j].terms.amount
  {
    var call := Call(env, VerificationCallback(j, payload));
    VerdictGoesThrough(w2.escrow, j, payload);
    PayingChange(w2, call);
    FreeCallMoves(w2, call);
  }

  /** An internal worker's job without a fee, expired while it was verified; its agent can be paid, and a
      passing verdict comes late. */
  predicate LateVerdictDue(w: World, env: Env, j: JobId, payload: Payload) {
    && j in w.escrow.escrows && j !in w.flights && AfterRefundExpired(w.escrow, env, j).Some?
    && var e := w.escrow.escrows[j];
      && e.status == Verifying && e.workerPubkey.Some? && e.terms.fee == 0 && e.terms.token == w.id
      && e.terms.agent != Self(w) && e.terms.agent in w.token.accounts && !w.token.paused
      && TargetOf(VerdictOf(payload, e.terms.scoreThreshold)) == Claim
      && Roomy(w, e.workerPubkey.value, e.terms.amount)
  }

  lemma VerdictIsRoomy(w: World, w2: World, env: Env, j: JobId, payload: Payload)
    requires LateVerdictDue(w, env, j, payload) && w2.id == w.id && w2.escrow.balances == w.escrow.balances
    requires j in w2.escrow.escrows && w2.escrow.escrows[j].status == Verifying
    requires w2.escrow.escrows[j].terms == w.escrow.escrows[j].terms
    requires w2.escrow.escrows[j].workerPubkey == w.escrow.escrows[j].workerPubkey
    ensures PaysRoomy(w2, VerificationCallback(j, payload))
  {
  }

  /** The first two of the three steps. */
  lemma RefundFirst(w: World, env: Env, j: JobId, payload: Payload)
    requires FreeInv(w) && LateVerdictDue(w, env, j, payload)
    requires 0 < w.escrow.escrows[j].terms.amount <= w.token.BalanceOf(Self(w))
    ensures var w2 := AfterRunTransfer(AfterEscrow(w, Call(env, RefundExpired(j))), j, 0);
      && FreeInv(w2) && Slack(w2) == Slack(w) && Due(w2, j) == 0 && PaysRoomy(w2, VerificationCallback(j, payload))
      && w2.escrow.escrows[j].terms == w.escrow.escrows[j].terms
  {
    var w1 := AfterEscrow(w, Call(env, RefundExpired(j)));
    RefundLaunched(w, env, j);
    RefundIsFree(w, env, j);
    RefundPaid(w1, j, w.escrow.escrows[j]);
    VerdictIsRoomy(w, AfterRunTransfer(w1, j, 0), env, j, payload);
  }

  lemma LateVerdictCosts(w: World, env: Env, j: JobId, payload: Payload)
    requires FreeInv(w) && LateVerdictDue(w, env, j, payload)
    requires 0 < w.escrow.escrows[j].terms.amount <= w.token.BalanceOf(Self(w))
    ensures var w' := AfterEscrow(AfterRunTransfer(AfterEscrow(w, Call(env, RefundExpired(j))), j, 0),
                                  Call(env, VerificationCallback(j, payload)));
      FreeInv(w') && Slack(w') == Slack(w) - w.escrow.escrows[j].terms.amount
  {
    RefundFirst(w, env, j, payload);
    VerdictPays(AfterRunTransfer(AfterEscrow(w, Call(env, RefundExpired(j))), j, 0), env, j, payload);
  }

  /** The agent of an expired job gets the refund, and the verdict that comes after all pays the worker as
      well: the escrow is solvent in the end if and only if it had the amount to spare. */
  lemma LateVerdictNeedsSurplus(w: World, env: Env, j: JobId, payload: Payload)
    requires ReachableWorld(w) && LateVerdictDue(w, env, j, payload)
    ensures Solvent(FreeRun(w, LateVerdict(env, j, payload)))
      <==> w.token.BalanceOf(Self(w)) >= Liabilities(w) + w.escrow.escrows[j].terms.amount
  {
    ReachableWorldInv(w);
    Conservation.WorldIsFree(w);
    HasAmount(w, j);
    LateVerdictCosts(w, env, j, payload);
    LateVerdictIs(w, env, j, payload);
  }

  /** A solvent escrow has what a job of no batch is owed. */
  lemma HasAmount(w: World, j: JobId)
    requires WorldInv(w) && j in w.escrow.escrows && j !in w.flights && w.escrow.escrows[j].terms.token == w.id
    requires Funded(w.escrow.escrows[j])
    ensures 0 < w.escrow.escrows[j].terms.amount <= w.token.BalanceOf(Self(w))
  {
    assert JobOk(w.escrow, j);
    MapSumAtLeast(ClaimsOf(w), j);
  }

  lemma LateVerdictIs(w: World, env: Env, j: JobId, payload: Payload)
    requires j !in w.flights
    ensures FreeRun(w, LateVerdict(env, j, payload))
      == AfterEscrow(AfterRunTransfer(AfterEscrow(w, Call(env, RefundExpired(j))), j, 0),
                     Call(env, VerificationCallback(j, payload)))
  {
    ThreeSteps(w, Kept(Step.Escrow(Call(env, RefundExpired(j)))), Kept(RunTransfer(j, 0)),
               AnyCall(Call(env, VerificationCallback(j, payload))));
  }
}

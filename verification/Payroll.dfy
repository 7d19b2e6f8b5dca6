/** The payout of a job in tokens that moved: over every run of the two contracts, what the batches of a
    job really paid to whom. The counterpart, for transfers, of the exactly-once payout of internal
    wallets. */
module Payroll {
  import opened Basics
  import opened EscrowState
  import opened EscrowSpec
  import opened EscrowRuns
  import opened EscrowTraffic
  import opened EscrowPayees
  import opened World
  import EscrowParties
  import EscrowStakes
  import Solvency

  // ---- what a settling call leaves ----

  /** The job aims where its verdict says. */
  predicate Consistent(e: Escrow) {
    && (e.target == Some(Claim) || e.target == Some(Refund) ==> e.verdict.Some?)
    && (e.target == Some(FullRefund) || (e.target.None? && !Settled(e)) ==> e.verdict.None?)
  }

  /** No settlement of the job is under way. */
  predicate Idle(e: Escrow) {
    e.target.Some? ==> e.status == SettlementFailed || e.status == Cancelled
  }

  /** A batch with what is due for the new target; or nothing launched, and the job unchanged, cancelled,
      or paid out with nothing to transfer. */
  predicate Heads(s: State, u: State, j: JobId) {
    && j in s.escrows && j in u.escrows && Consistent(u.escrows[j])
    && var e', p := u.escrows[j], NewPromise(s, u);
      if p.Some? && p.value.Batch?
      then e'.target.Some? && p.value == Batch(j, e'.terms.token, Due(e', e'.target.value, s.cfg.owner))
      else e' == s.escrows[j] || e'.status == Cancelled || (e'.status == Claimed && Due(e', Claim, s.cfg.owner) == [])
  }

  lemma SettledParties(e: Escrow, l: Ledger, owner: AccountId)
    requires ReadyToSettle(e, l)
    ensures var e' := SettledJob(e, owner);
      e'.terms == e.terms && e'.worker == e.worker && e'.workerPubkey == e.workerPubkey && e'.verdict == e.verdict
  {
  }

  lemma FinishingLaunches(t: State, j: JobId)
    requires j in t.escrows && t.escrows[j].workerPubkey.Some?
    ensures Finished(t, j).outbox == t.outbox + [Near(t.escrows[j].terms.agent, t.cfg.storageDeposit, StorageRefund)]
  {
  }

  lemma SettleHeads(s: State, t: State, j: JobId)
    requires j in s.escrows && j in t.escrows && t.cfg == s.cfg && |s.outbox| <= |t.outbox|
    requires ReadyToSettle(t.escrows[j], t.LedgerOf(j)) && Consistent(t.escrows[j])
    ensures AfterSettle(t, j).Some? && Heads(s, AfterSettle(t, j).value, j)
  {
    var e, owner := t.escrows[j], t.cfg.owner;
    PlanIsDue(e, t.LedgerOf(j), owner);
    EscrowParties.SettledIs(e, t.LedgerOf(j), owner);
    SettledParties(e, t.LedgerOf(j), owner);
    SettleShape(t, j);
    if Due(e, e.target.value, owner) == [] {
      FinishingLaunches(t.Put(j, Deferred(e)), j);
    } else {
      SettleLaunches(t, j, Due(e, e.target.value, owner));
    }
  }

  lemma RefundHeads(s: State, t: State, j: JobId, l: Ledger)
    requires j in s.escrows && j in t.escrows && t.cfg == s.cfg && |s.outbox| <= |t.outbox| && l == t.LedgerOf(j)
    requires ReadyToSettle(t.escrows[j].(target := Some(FullRefund)), l) && t.escrows[j].verdict.None?
    ensures FullyRefunding(t, j).Some? && Heads(s, FullyRefunding(t, j).value, j)
  {
    SettleHeads(s, t.Put(j, t.escrows[j].(target := Some(FullRefund))), j);
  }

  lemma JudgedConsistent(e: Escrow, payload: Payload)
    ensures Consistent(Judged(e, payload))
  {
  }

  lemma VerificationHeads(s: State, j: JobId, payload: Payload)
    requires j in s.escrows && JobInv(s.escrows[j], s.LedgerOf(j)) && Consistent(s.escrows[j])
    requires AfterVerification(s, j, payload).Some?
    ensures Heads(s, AfterVerification(s, j, payload).value, j)
  {
    var e := s.escrows[j];
    if e.status == Verifying {
      JudgedIsReady(e, s.LedgerOf(j), payload);
      JudgedShape(s, j, payload);
      JudgingSends(s, j, payload);
      JudgedConsistent(e, payload);
      assert JudgedState(s, j, payload).LedgerOf(j) == JudgedLedger(e, s.LedgerOf(j), payload);
      SettleHeads(s, JudgedState(s, j, payload), j);
    }
  }

  lemma RetriedHeads(s: State, j: JobId, count: Byte)
    requires j in s.escrows && JobInv(s.escrows[j], s.LedgerOf(j)) && Consistent(s.escrows[j])
    requires Retryable(s.escrows[j])
    ensures var e := s.escrows[j].(retryCount := count);
      AfterSettle(s.Put(j, e), j).Some? && Heads(s, AfterSettle(s.Put(j, e), j).value, j)
  {
    RetriedJob(s.escrows[j], s.LedgerOf(j), count);
    SettleHeads(s, s.Put(j, s.escrows[j].(retryCount := count)), j);
  }

  lemma GivenUpHeads(s: State, j: JobId, count: Byte)
    requires j in s.escrows && Consistent(s.escrows[j]) && Retryable(s.escrows[j])
    ensures Heads(s, GivenUp(s, j, s.escrows[j].(retryCount := count)), j)
  {
  }

  lemma RetryHeads(s: State, env: Env, j: JobId)
    requires j in s.escrows && JobInv(s.escrows[j], s.LedgerOf(j)) && Consistent(s.escrows[j])
    requires AfterRetry(s, env, j).Some?
    ensures Heads(s, AfterRetry(s, env, j).value, j)
  {
    hide AfterRetry;
    RetryIs(s, env, j);
    RetriedHeads(s, j, (s.escrows[j].retryCount + 1) % 256);
    GivenUpHeads(s, j, (s.escrows[j].retryCount + 1) % 256);
  }

  lemma UnfundedHeads(s: State, j: JobId)
    requires j in s.escrows && Consistent(s.escrows[j]) && s.escrows[j].status == PendingFunding
    ensures Heads(s, CancelledUnfunded(s, j), j)
  {
  }

  lemma OpenHeads(s: State, j: JobId)
    requires j in s.escrows && JobInv(s.escrows[j], s.LedgerOf(j))
    requires s.escrows[j].status == Open && s.escrows[j].verdict.None?
    ensures FullyRefunding(s, j).Some? && Heads(s, FullyRefunding(s, j).value, j)
  {
    FullRefundIsReady(s.escrows[j], s.LedgerOf(j), None, Open);
    RefundHeads(s, s, j, s.LedgerOf(j));
  }

  lemma CancelHeads(s: State, env: Env, j: JobId)
    requires j in s.escrows && JobInv(s.escrows[j], s.LedgerOf(j)) && Consistent(s.escrows[j]) && Idle(s.escrows[j])
    requires AfterCancel(s, env, j).Some?
    ensures Heads(s, AfterCancel(s, env, j).value, j)
  {
    if s.escrows[j].status == Open {
      OpenHeads(s, j);
    } else {
      UnfundedHeads(s, j);
    }
  }

  lemma CalledOffHeads(s: State, j: JobId)
    requires j in s.escrows && JobInv(s.escrows[j], s.LedgerOf(j))
    requires s.escrows[j].status == Verifying && s.escrows[j].verdict.None?
    ensures FullyRefunding(CalledOff(s, j), j).Some? && Heads(s, FullyRefunding(CalledOff(s, j), j).value, j)
  {
    var e := s.escrows[j];
    CallingOffSends(s, j);
    CalledOffJob(s, j);
    ReleaseBooks(s, j, e.worker);
    FullRefundIsReady(e, s.LedgerOf(j), e.worker, Cancelled);
    RefundHeads(s, CalledOff(s, j), j, ReleasedLedger(e, s.LedgerOf(j), e.worker));
  }

  lemma ForceCancelHeads(s: State, env: Env, j: JobId)
    requires j in s.escrows && JobInv(s.escrows[j], s.LedgerOf(j)) && Consistent(s.escrows[j]) && Idle(s.escrows[j])
    requires AfterForceCancel(s, env, j).Some?
    ensures Heads(s, AfterForceCancel(s, env, j).value, j)
  {
    CalledOffHeads(s, j);
  }

  lemma ForfeitHeads(s: State, j: JobId, to: Option<AccountId>)
    requires j in s.escrows && JobInv(s.escrows[j], s.LedgerOf(j))
    requires s.escrows[j].status == InProgress && s.escrows[j].verdict.None?
    ensures FullyRefunding(Released(s, j, to), j).Some? && Heads(s, FullyRefunding(Released(s, j, to), j).value, j)
  {
    ReleaseSendsTo(s, j, to);
    ReleaseBooks(s, j, to);
    FullRefundIsReady(s.escrows[j], s.LedgerOf(j), to, InProgress);
    RefundHeads(s, Released(s, j, to), j, ReleasedLedger(s.escrows[j], s.LedgerOf(j), to));
  }

  lemma AbandonedHeads(s: State, j: JobId, to: Option<AccountId>)
    requires j in s.escrows && JobInv(s.escrows[j], s.LedgerOf(j))
    requires s.escrows[j].status == Verifying && s.escrows[j].verdict.None?
    ensures FullyRefunding(Abandoned(s, j, to), j).Some? && Heads(s, FullyRefunding(Abandoned(s, j, to), j).value, j)
  {
    AbandonSendsTo(s, j, to);
    AbandonedJob(s, j, to);
    ReleaseBooks(s, j, to);
    FullRefundIsReady(s.escrows[j], s.LedgerOf(j), to, Verifying);
    RefundHeads(s, Abandoned(s, j, to), j, ReleasedLedger(s.escrows[j], s.LedgerOf(j), to));
  }

  lemma ExpiryHeads(s: State, env: Env, j: JobId)
    requires j in s.escrows && JobInv(s.escrows[j], s.LedgerOf(j)) && Consistent(s.escrows[j]) && Idle(s.escrows[j])
    requires AfterRefundExpired(s, env, j).Some?
    ensures Heads(s, AfterRefundExpired(s, env, j).value, j)
  {
    RefundExpiredIs(s, env, j);
    match s.escrows[j].status
    case PendingFunding => UnfundedHeads(s, j);
    case Open => OpenHeads(s, j);
    case InProgress => ForfeitHeads(s, j, Some(s.escrows[j].terms.agent));
    case Verifying => AbandonedHeads(s, j, LegacyWorker(s.escrows[j]));
    case SettlementFailed => SettleHeads(s, s, j);
  }

  lemma SettlingHeads(s: State, env: Env, op: Op)
    requires JobsInv(s) && SettlingOp(op) && Attempt(s, env, op).Some?
    requires JobOf(op).value in s.escrows
    requires Consistent(s.escrows[JobOf(op).value]) && Idle(s.escrows[JobOf(op).value])
    ensures Heads(s, Attempt(s, env, op).value, JobOf(op).value)
  {
    assert JobOk(s, JobOf(op).value);
    hide AfterRetry, AfterCancel, AfterForceCancel, AfterRefundExpired, AfterVerification, Heads;
    hide JobsInv, JobInv, Consistent, Idle;
    match op
    case VerificationCallback(j, payload) => VerificationHeads(s, j, payload);
    case RetrySettlement(j) => RetryHeads(s, env, j);
    case Cancel(j) => CancelHeads(s, env, j);
    case ForceCancelVerifying(j) => ForceCancelHeads(s, env, j);
    case RefundExpired(j) => ExpiryHeads(s, env, j);
  }

  // ---- tokens received ----

  /** What a list of transfers has for one account. */
  function For(ts: seq<Transfer>, a: AccountId): nat {
    if ts == [] then 0
    else For(ts[..|ts| - 1], a) + if ts[|ts| - 1].receiver == a then ts[|ts| - 1].amount else 0
  }

  lemma {:induction false} ForWithout(ts: seq<Transfer>, p: nat, a: AccountId)
    requires p < |ts|
    ensures For(Without(ts, p), a) + (if ts[p].receiver == a then ts[p].amount else 0) == For(ts, a)
  {
    var n := |ts| - 1;
    if p == n {
      assert Without(ts, p) == ts[..n];
    } else {
      ForWithout(ts[..n], p, a);
      assert Without(ts, p)[..n - 1] == Without(ts[..n], p) && Without(ts, p)[n - 1] == ts[n];
    }
  }

  /** What the account `a` gains in tokens when a transfer of the batch of `j` is made. */
  ghost function Gain(w: World, step: Step, j: JobId, a: AccountId): int {
    if step.RunTransfer? && step.job == j then Next(w, step).token.BalanceOf(a) - w.token.BalanceOf(a) else 0
  }

  /** What it gained in this way over a run. */
  ghost function Gained(w: World, steps: seq<Step>, j: JobId, a: AccountId): int {
    if steps == [] then 0
    else
      var before := steps[..|steps| - 1];
      Gained(w, before, j, a) + Gain(RunWorld(w, before), steps[|steps| - 1], j, a)
  }

  /** What each account got so far, and who was owner meanwhile. */
  datatype Receipts = Receipts(gain: AccountId -> int, owners: set<AccountId>)

  ghost predicate GotNothing(self: AccountId, got: Receipts) {
    forall a :: a != self ==> got.gain(a) == 0
  }

  /** Each account other than the escrow itself got what the transfers have for it. */
  ghost predicate Got(self: AccountId, ts: seq<Transfer>, got: Receipts) {
    forall a :: a != self ==> got.gain(a) == For(ts, a)
  }

  ghost predicate GotSoFar(self: AccountId, f: Flight, got: Receipts) {
    forall a :: a != self ==> got.gain(a) + For(f.left, a) == For(f.transfers, a)
  }

  /** What a settled job was to pay. */
  function Final(e: Escrow, owner: AccountId): seq<Transfer> {
    if e.status == Claimed then WorkersPay(e, owner)
    else if e.verdict.Some? then AgentsRefund(e, owner)
    else AgentsMoney(e)
  }

  /** The batch in flight has what is due for the job's target, and so much of it was paid as is made. */
  ghost predicate Underway(self: AccountId, e: Escrow, f: Flight, got: Receipts) {
    && !f.orphan && e.target.Some? && GotSoFar(self, f, got)
    && exists owner :: owner in got.owners && f.transfers == Due(e, e.target.value, owner)
  }

  ghost predicate PaidOff(self: AccountId, e: Escrow, got: Receipts) {
    exists owner :: owner in got.owners && Got(self, Final(e, owner), got)
  }

  /** What the batches of `j` have paid so far, in every situation the job can be in. */
  ghost predicate OnTheBooks(w: World, j: JobId, got: Receipts) {
    if j !in w.escrow.escrows || w.escrow.escrows[j].terms.token != w.id then
      j !in w.flights && GotNothing(Self(w), got)
    else
      var e := w.escrow.escrows[j];
      && Consistent(e)
      && if j in w.flights then Underway(Self(w), e, w.flights[j], got)
         else Idle(e) && if Settled(e) then PaidOff(Self(w), e, got) else GotNothing(Self(w), got)
  }

  // ---- the steps of the batch ----

  lemma TransferGains(w: World, j: JobId, place: nat, a: AccountId)
    requires WorldInv(w) && AfterRunTransfer(w, j, place) != w && a != Self(w)
    ensures var p := w.flights[j].left[place];
      AfterRunTransfer(w, j, place).token.BalanceOf(a) - w.token.BalanceOf(a) == if p.receiver == a then p.amount else 0
  {
    var p := w.flights[j].left[place];
    Solvency.MovedBalances(w.token, Self(w), p.receiver, p.amount, a);
  }

  lemma TransferOnTheBooks(w: World, j: JobId, place: nat, got: Receipts, got': Receipts)
    requires WorldInv(w) && OnTheBooks(w, j, got) && AfterRunTransfer(w, j, place) != w
    requires got.owners <= got'.owners
    requires forall a ::
      got'.gain(a) == got.gain(a) + AfterRunTransfer(w, j, place).token.BalanceOf(a) - w.token.BalanceOf(a)
    ensures OnTheBooks(AfterRunTransfer(w, j, place), j, got')
  {
    var w', f := AfterRunTransfer(w, j, place), w.flights[j];
    forall a | a != Self(w)
      ensures got'.gain(a) + For(w'.flights[j].left, a) == For(w'.flights[j].transfers, a)
    {
      TransferGains(w, j, place, a);
      ForWithout(f.left, place, a);
    }
    var e := w.escrow.escrows[j];
    var owner :| owner in got.owners && f.transfers == Due(e, e.target.value, owner);
    assert w'.flights[j].transfers == Due(e, e.target.value, owner);
  }

  lemma FailedOnTheBooks(w: World, j: JobId, got: Receipts)
    requires OnTheBooks(w, j, got)
    ensures OnTheBooks(AfterFailBatch(w, j), j, got)
  {
    if AfterFailBatch(w, j) != w {
      var e, f := w.escrow.escrows[j], w.flights[j];
      var owner :| owner in got.owners && f.transfers == Due(e, e.target.value, owner);
      assert AfterFailBatch(w, j).flights[j].transfers == Due(e, e.target.value, owner);
    }
  }

  /** What the callback of a batch finds and leaves. */
  lemma CallbackLeaves(s: State, env: Env, j: JobId, results: seq<bool>)
    requires j in s.escrows && s.escrows[j].target.Some? && results != []
    ensures var u, e := Apply(s, Call(env, SettleCallback(j, results))), s.escrows[j];
      && j in u.escrows && u.cfg == s.cfg && u.escrows[j].terms == e.terms && u.escrows[j].verdict == e.verdict
      && u.escrows[j].worker == e.worker && u.escrows[j].workerPubkey == e.workerPubkey
      && (false in results ==> u.escrows[j].target == e.target && u.escrows[j].status == SettlementFailed)
      && (false !in results ==>
            u.escrows[j].target.None? && u.escrows[j].status == if e.target == Some(Claim) then Claimed else Refunded)
  {
    assert AllOk(results) <==> false !in results;
  }

  /** All transfers were made, and the job is settled. */
  lemma LandedIs(e: Escrow, e': Escrow, owner: AccountId)
    requires e.target.Some? && Consistent(e)
    requires e'.status == (if e.target == Some(Claim) then Claimed else Refunded)
    requires e'.terms == e.terms && e'.verdict == e.verdict
    requires e'.worker == e.worker && e'.workerPubkey == e.workerPubkey
    ensures Final(e', owner) == Due(e, e.target.value, owner)
  {
  }

  lemma Landed(self: AccountId, e: Escrow, e': Escrow, f: Flight, got: Receipts)
    requires Underway(self, e, f, got) && f.left == [] && Consistent(e)
    requires e'.target.None? && e'.status == (if e.target == Some(Claim) then Claimed else Refunded)
    requires e'.terms == e.terms && e'.verdict == e.verdict
    requires e'.worker == e.worker && e'.workerPubkey == e.workerPubkey
    ensures PaidOff(self, e', got)
  {
    hide Final, Due, Consistent, Got, GotSoFar;
    var owner :| owner in got.owners && f.transfers == Due(e, e.target.value, owner);
    LandedIs(e, e', owner);
    AllGot(self, f, got);
  }

  lemma AllGot(self: AccountId, f: Flight, got: Receipts)
    requires GotSoFar(self, f, got) && f.left == []
    ensures Got(self, f.transfers, got)
  {
  }

  lemma CallbackGoesOn(w: World, j: JobId, e': Escrow, got: Receipts)
    requires FlightsOk(w) && OnTheBooks(w, j, got) && j in w.flights
    requires w.flights[j].failed || w.flights[j].left == []
    requires var e := w.escrow.escrows[j];
      && e'.terms == e.terms && e'.verdict == e.verdict && e'.worker == e.worker && e'.workerPubkey == e.workerPubkey
      && (w.flights[j].failed ==> e'.target == e.target && e'.status == SettlementFailed)
      && (!w.flights[j].failed ==>
            e'.target.None? && e'.status == if e.target == Some(Claim) then Claimed else Refunded)
    ensures Consistent(e') && Idle(e')
    ensures if Settled(e') then PaidOff(Self(w), e', got) else GotNothing(Self(w), got)
  {
    assert FlightOk(w.escrow.escrows, w.flights[j], w.id, j);
    if !w.flights[j].failed {
      Landed(Self(w), w.escrow.escrows[j], e', w.flights[j], got);
    }
  }

  /** A batch that is through, or that failed, as its job's callback sees it. */
  lemma BatchReports(w: World, env: Env, j: JobId)
    requires FlightsOk(w) && j in w.flights && !w.flights[j].orphan
    requires w.flights[j].failed || w.flights[j].left == []
    ensures j in w.escrow.escrows && j in AfterBatchCallback(w, env, j).escrow.escrows
    ensures Self(AfterBatchCallback(w, env, j)) == Self(w)
    ensures var e, e' := w.escrow.escrows[j], AfterBatchCallback(w, env, j).escrow.escrows[j];
      && e'.terms == e.terms && e'.verdict == e.verdict && e'.worker == e.worker && e'.workerPubkey == e.workerPubkey
      && (w.flights[j].failed ==> e'.target == e.target && e'.status == SettlementFailed)
      && (!w.flights[j].failed ==>
            e'.target.None? && e'.status == if e.target == Some(Claim) then Claimed else Refunded)
  {
    var f := w.flights[j];
    var results := seq(|f.transfers|, _ => !f.failed);
    assert FlightOk(w.escrow.escrows, f, w.id, j);
    assert results[0] == !f.failed;
    CallbackLeaves(w.escrow, env, j, results);
  }

  lemma CallbackOnTheBooks(w: World, env: Env, j: JobId, got: Receipts)
    requires FlightsOk(w) && OnTheBooks(w, j, got)
    ensures OnTheBooks(AfterBatchCallback(w, env, j), j, got)
  {
    if j in w.flights && (w.flights[j].failed || w.flights[j].left == []) {
      BatchReports(w, env, j);
      CallbackGoesOn(w, j, AfterBatchCallback(w, env, j).escrow.escrows[j], got);
    }
  }

  // ---- the calls on the job ----

  predicate SameFlight(w: World, w': World, j: JobId) {
    (j in w'.flights <==> j in w.flights) && (j in w.flights ==> w'.flights[j] == w.flights[j])
  }

  predicate SameJob(w: World, w': World, j: JobId) {
    && (j in w'.escrow.escrows <==> j in w.escrow.escrows)
    && (j in w.escrow.escrows ==> w'.escrow.escrows[j] == w.escrow.escrows[j])
  }

  lemma NotedBatch(w: World, u: State, j: JobId)
    requires NewPromise(w.escrow, u).Some? && NewPromise(w.escrow, u).value.Batch?
    ensures var p, w' := NewPromise(w.escrow, u).value, Noted(w, u);
      && w'.id == w.id && w'.escrow == u
      && (if p.job == j && p.token == w.id && j !in w.flights
          then w'.flights == w.flights[j := Flight(p.transfers, p.transfers, false, false)]
          else SameFlight(w, w', j))
  {
  }

  lemma NotedNoBatch(w: World, u: State)
    requires NewPromise(w.escrow, u).Some? ==> !NewPromise(w.escrow, u).value.Batch?
    ensures var w' := Noted(w, u); w'.id == w.id && w'.escrow == u && w'.flights == w.flights
  {
  }

  lemma NotedFlight(w: World, u: State, j: JobId)
    ensures var p, w' := NewPromise(w.escrow, u), Noted(w, u);
      && w'.id == w.id && w'.escrow == u
      && (if p.Some? && p.value.Batch? && p.value.job == j && p.value.token == w.id && j !in w.flights
          then w'.flights == w.flights[j := Flight(p.value.transfers, p.value.transfers, false, false)]
          else SameFlight(w, w', j))
  {
    if NewPromise(w.escrow, u).Some? && NewPromise(w.escrow, u).value.Batch? {
      NotedBatch(w, u, j);
    } else {
      NotedNoBatch(w, u);
    }
  }

  lemma HeadsOnTheBooks(w: World, u: State, j: JobId, got: Receipts)
    requires w.escrow.cfg.owner in got.owners
    requires OnTheBooks(w, j, got) && j !in w.flights && Heads(w.escrow, u, j) && u.cfg.self == Self(w)
    requires JobInv(u.escrows[j], u.LedgerOf(j)) && Evolves(w.escrow.escrows[j], u.escrows[j])
    ensures OnTheBooks(Noted(w, u), j, got)
  {
    NotedFlight(w, u, j);
    var e, e', owner := w.escrow.escrows[j], u.escrows[j], w.escrow.cfg.owner;
    if e.terms.token == w.id && j in Noted(w, u).flights {
      assert Noted(w, u).flights[j].transfers == Due(e', e'.target.value, owner);
    } else if e.terms.token == w.id && Settled(e') && e' != e {
      assert Final(e', owner) == [];
      assert Got(Self(w), Final(e', owner), got);
    }
  }

  lemma SettlingOnTheBooks(w: World, call: Call, got: Receipts)
    requires WorldInv(w) && SettlingOp(call.op) && EscrowMay(w, call) && Attempt(w.escrow, call.env, call.op).Some?
    requires JobOf(call.op).value in w.escrow.escrows && w.escrow.escrows[JobOf(call.op).value].terms.token == w.id
    requires OnTheBooks(w, JobOf(call.op).value, got) && w.escrow.cfg.owner in got.owners
    ensures OnTheBooks(AfterEscrow(w, call), JobOf(call.op).value, got)
  {
    var s, u, j := w.escrow, Attempt(w.escrow, call.env, call.op).value, JobOf(call.op).value;
    assert JobOk(s, j);
    SettlingHeads(s, call.env, call.op);
    CallTouches(s, call.env, call.op);
    Solvency.SelfStays(s, call.env, call.op);
    HeadsOnTheBooks(w, u, j, got);
    Solvency.NotedIsAfter(w, call);
  }

  /** A call after which the job aims where it did. */
  lemma AimOnTheBooks(w: World, w': World, j: JobId, got: Receipts)
    requires OnTheBooks(w, j, got) && SameAim(w.escrow, w'.escrow, j) && w'.id == w.id && Self(w') == Self(w)
    requires SameFlight(w, w', j)
    requires j in w'.escrow.escrows ==> JobInv(w'.escrow.escrows[j], w'.escrow.LedgerOf(j))
    requires j in w.escrow.escrows ==> JobInv(w.escrow.escrows[j], w.escrow.LedgerOf(j))
    requires j in w.escrow.escrows ==> Evolves(w.escrow.escrows[j], w'.escrow.escrows[j])
    ensures OnTheBooks(w', j, got)
  {
    if j in w.escrow.escrows && w.escrow.escrows[j].terms.token == w.id {
      var e, e' := w.escrow.escrows[j], w'.escrow.escrows[j];
      if j in w.flights {
        var owner :| owner in got.owners && w.flights[j].transfers == Due(e, e.target.value, owner);
        assert w'.flights[j].transfers == Due(e', e'.target.value, owner);
      }
    }
  }

  /** Nothing happened to the job and its batch. */
  lemma AsideOnTheBooks(w: World, w': World, j: JobId, got: Receipts)
    requires OnTheBooks(w, j, got) && w'.id == w.id && Self(w') == Self(w)
    requires SameFlight(w, w', j) && SameJob(w, w', j)
    ensures OnTheBooks(w', j, got)
  {
  }

  /** A batch at the end of the call is one for the call's own job, in its token. */
  predicate OwnBatch(s: State, u: State, job: Option<JobId>) {
    var p := NewPromise(s, u);
    p.Some? && p.value.Batch? ==>
      job == Some(p.value.job) && p.value.job in u.escrows && p.value.token == u.escrows[p.value.job].terms.token
  }

  lemma CalmHasNoBatch(s: State, u: State, job: Option<JobId>)
    requires Calm(s.outbox, u.outbox)
    ensures OwnBatch(s, u, job)
  {
    if |u.outbox| > |s.outbox| {
      assert Minor(u.outbox[|u.outbox| - 1]);
    }
  }

  lemma SettlesOwnBatch(s: State, u: State, j: JobId)
    requires Settles(s, u, j)
    ensures OwnBatch(s, u, Some(j))
  {
    if !Launches(s, u, j) {
      CalmHasNoBatch(s, u, Some(j));
    }
  }

  lemma SettlingOwnBatch(s: State, env: Env, op: Op)
    requires JobsInv(s) && KeysOk(s) && SettlingOp(op) && Attempt(s, env, op).Some?
    ensures OwnBatch(s, Attempt(s, env, op).value, JobOf(op))
  {
    var u, j := Attempt(s, env, op).value, JobOf(op).value;
    hide Settles, JobsInv;
    SettlingTraffic(s, env, op);
    SettlesOwnBatch(s, u, j);
  }

  lemma WalletOwnBatch(s: State, env: Env, op: Op)
    requires JobOf(op).None? && Attempt(s, env, op).Some?
    ensures OwnBatch(s, Attempt(s, env, op).value, None)
  {
    if op.Withdraw? {
      EscrowStakes.WithdrawalSends(s, env, op);
    } else {
      EscrowStakes.OtherWalletCallsSendNothing(s, env, op, "");
    }
  }

  /** Only a settling call may end with a batch. */
  lemma BatchIsOwn(w: World, call: Call)
    requires WorldInv(w) && EscrowMay(w, call) && Attempt(w.escrow, call.env, call.op).Some?
    requires call.op.FtOnTransfer? ==> call.op.job in w.escrow.escrows
    ensures OwnBatch(w.escrow, Attempt(w.escrow, call.env, call.op).value, JobOf(call.op))
  {
    var s, env, op := w.escrow, call.env, call.op;
    if SettlingOp(op) {
      SettlingOwnBatch(s, env, op);
    } else if JobOf(op).Some? {
      Solvency.HonestIsStill(w, call);
      Solvency.StillIsCalled(w, call);
      CalmHasNoBatch(s, Attempt(s, env, op).value, JobOf(op));
    } else {
      WalletOwnBatch(s, env, op);
    }
  }

  lemma HarmlessIsCalm(w: World, call: Call, j: JobId)
    requires WorldInv(w) && EscrowMay(w, call) && JobOf(call.op) == Some(j) && HarmlessOp(call.op)
    requires Attempt(w.escrow, call.env, call.op).Some? && (call.op.FtOnTransfer? ==> j in w.escrow.escrows)
    ensures var u := Attempt(w.escrow, call.env, call.op).value;
      Noted(w, u) == w.(escrow := u) && u.cfg.self == Self(w)
  {
    hide Attempt;
    Solvency.SelfStays(w.escrow, call.env, call.op);
    Solvency.HonestIsStill(w, call);
    Solvency.StillIsCalled(w, call);
    Solvency.CalmIsNotNoted(w, Attempt(w.escrow, call.env, call.op).value);
  }

  lemma HarmlessMoves(s: State, call: Call, j: JobId)
    requires JobsInv(s) && JobOf(call.op) == Some(j) && HarmlessOp(call.op)
    requires Attempt(s, call.env, call.op).Some? && (call.op.FtOnTransfer? ==> j in s.escrows)
    ensures var u := Attempt(s, call.env, call.op).value;
      && SameAim(s, u, j) && j in u.escrows && JobInv(u.escrows[j], u.LedgerOf(j))
      && (j in s.escrows ==> JobInv(s.escrows[j], s.LedgerOf(j)) && Evolves(s.escrows[j], u.escrows[j]))
  {
    CallTouches(s, call.env, call.op);
    HarmlessKeepsAim(s, call.env, call.op);
    assert j in s.escrows ==> JobOk(s, j);
  }

  lemma HarmlessOnTheBooks(w: World, call: Call, j: JobId, got: Receipts)
    requires WorldInv(w) && EscrowMay(w, call) && JobOf(call.op) == Some(j) && HarmlessOp(call.op)
    requires Attempt(w.escrow, call.env, call.op).Some? && (call.op.FtOnTransfer? ==> j in w.escrow.escrows)
    requires OnTheBooks(w, j, got)
    ensures OnTheBooks(Noted(w, Attempt(w.escrow, call.env, call.op).value), j, got)
  {
    HarmlessIsCalm(w, call, j);
    HarmlessMoves(w.escrow, call, j);
    AimOnTheBooks(w, w.(escrow := Attempt(w.escrow, call.env, call.op).value), j, got);
  }

  /** A job in another token has no batch here. */
  lemma ForeignOnTheBooks(w: World, call: Call, j: JobId, got: Receipts)
    requires WorldInv(w) && EscrowMay(w, call) && JobOf(call.op) == Some(j)
    requires j in w.escrow.escrows && w.escrow.escrows[j].terms.token != w.id
    requires Attempt(w.escrow, call.env, call.op).Some? && OnTheBooks(w, j, got)
    ensures OnTheBooks(Noted(w, Attempt(w.escrow, call.env, call.op).value), j, got)
  {
    CallTouches(w.escrow, call.env, call.op);
    Solvency.SelfStays(w.escrow, call.env, call.op);
    BatchIsOwn(w, call);
    NotedFlight(w, Attempt(w.escrow, call.env, call.op).value, j);
  }

  /** A call on the job itself. */
  lemma OwnCallOnTheBooks(w: World, call: Call, j: JobId, got: Receipts)
    requires WorldInv(w) && EscrowMay(w, call) && JobOf(call.op) == Some(j)
    requires Attempt(w.escrow, call.env, call.op).Some? && (call.op.FtOnTransfer? ==> j in w.escrow.escrows)
    requires OnTheBooks(w, j, got) && w.escrow.cfg.owner in got.owners
    ensures OnTheBooks(AfterEscrow(w, call), j, got)
  {
    Solvency.NotedIsAfter(w, call);
    if HarmlessOp(call.op) {
      HarmlessOnTheBooks(w, call, j, got);
    } else if w.escrow.escrows[j].terms.token == w.id {
      SettlingOnTheBooks(w, call, got);
    } else {
      ForeignOnTheBooks(w, call, j, got);
    }
  }

  lemma RemovalLeaves(w: World, call: Call, j: JobId)
    requires call.op.CleanupCompleted? && j !in call.op.gone && Attempt(w.escrow, call.env, call.op).Some?
    ensures var w' := AfterEscrow(w, call);
      w'.id == w.id && Self(w') == Self(w) && SameFlight(w, w', j) && SameJob(w, w', j)
  {
  }

  lemma OtherCallLeaves(w: World, call: Call, j: JobId)
    requires WorldInv(w) && EscrowMay(w, call) && JobOf(call.op) != Some(j) && !call.op.CleanupCompleted?
    requires Attempt(w.escrow, call.env, call.op).Some? && (call.op.FtOnTransfer? ==> call.op.job in w.escrow.escrows)
    ensures var w' := Noted(w, Attempt(w.escrow, call.env, call.op).value);
      w'.id == w.id && Self(w') == Self(w) && SameFlight(w, w', j) && SameJob(w, w', j)
  {
    Solvency.SelfStays(w.escrow, call.env, call.op);
    if JobOf(call.op).Some? {
      CallTouches(w.escrow, call.env, call.op);
    } else {
      WalletCallsKeepJobs(w.escrow, call.env, call.op);
    }
    BatchIsOwn(w, call);
    NotedFlight(w, Attempt(w.escrow, call.env, call.op).value, j);
  }

  /** Any other call. */
  lemma OtherCallOnTheBooks(w: World, call: Call, j: JobId, got: Receipts)
    requires WorldInv(w) && EscrowMay(w, call) && JobOf(call.op) != Some(j)
    requires Attempt(w.escrow, call.env, call.op).Some? && (call.op.FtOnTransfer? ==> call.op.job in w.escrow.escrows)
    requires call.op.CleanupCompleted? ==> j !in call.op.gone
    requires OnTheBooks(w, j, got)
    ensures OnTheBooks(AfterEscrow(w, call), j, got)
  {
    if call.op.CleanupCompleted? {
      RemovalLeaves(w, call, j);
    } else {
      OtherCallLeaves(w, call, j);
      Solvency.NotedIsAfter(w, call);
    }
    AsideOnTheBooks(w, AfterEscrow(w, call), j, got);
  }

  lemma CallOnTheBooks(w: World, call: Call, j: JobId, got: Receipts)
    requires WorldInv(w) && OnTheBooks(w, j, got) && w.escrow.cfg.owner in got.owners
    requires call.op.CleanupCompleted? ==> j !in call.op.gone
    ensures OnTheBooks(Next(w, Step.Escrow(call)), j, got)
  {
    if EscrowMay(w, call) && Attempt(w.escrow, call.env, call.op).Some? {
      if call.op.FtOnTransfer? && call.op.job !in w.escrow.escrows {
        Solvency.UnknownDeposit(w, call);
      } else if JobOf(call.op) == Some(j) {
        OwnCallOnTheBooks(w, call, j, got);
      } else {
        OtherCallOnTheBooks(w, call, j, got);
      }
    }
  }

  // ---- the other steps ----

  lemma DeliveredAim(s: State, env: Env, sender: AccountId, amount: nat, j: JobId, k: JobId)
    requires JobsInv(s)
    ensures var u := AfterFtOnTransfer(s, env, sender, amount, j).0;
      && u.cfg == s.cfg && SameAim(s, u, k) && JobsInv(u)
      && (k in s.escrows <==> k in u.escrows) && (k in s.escrows ==> Evolves(s.escrows[k], u.escrows[k]))
  {
    DeliveredKeeps(s, env, sender, amount, j, k);
    DeliveredSame(s, env, sender, amount, j, k);
  }

  lemma DeliveredKeeps(s: State, env: Env, sender: AccountId, amount: nat, j: JobId, k: JobId)
    requires JobsInv(s)
    ensures var u := AfterFtOnTransfer(s, env, sender, amount, j).0;
      JobsInv(u) && (k in s.escrows && k in u.escrows ==> Evolves(s.escrows[k], u.escrows[k]))
  {
    var call := Call(env, FtOnTransfer(sender, amount, j));
    assert Apply(s, call) == AfterFtOnTransfer(s, env, sender, amount, j).0;
    hide AfterFtOnTransfer, Apply, Evolves;
    StepKeepsJobs(s, call);
  }

  lemma DeliveredSame(s: State, env: Env, sender: AccountId, amount: nat, j: JobId, k: JobId)
    ensures var u := AfterFtOnTransfer(s, env, sender, amount, j).0;
      u.cfg == s.cfg && SameAim(s, u, k) && (k in s.escrows <==> k in u.escrows)
  {
  }

  lemma DeliveryOnTheBooks(w: World, ticket: nat, env: Env, crashed: bool, j: JobId, got: Receipts)
    requires WorldInv(w) && OnTheBooks(w, j, got)
    ensures OnTheBooks(AfterDeliver(w, ticket, env, crashed), j, got)
  {
    var w' := AfterDeliver(w, ticket, env, crashed);
    if w'.escrow == w.escrow {
      AsideOnTheBooks(w, w', j, got);
    } else {
      var d := w.deposits[ticket];
      DeliveredAim(w.escrow, env, d.sender, d.amount, d.job, j);
      assert j in w.escrow.escrows ==> JobOk(w.escrow, j) && JobOk(w'.escrow, j);
      AimOnTheBooks(w, w', j, got);
    }
  }

  lemma OtherCallback(s: State, env: Env, k: JobId, results: seq<bool>, j: JobId)
    requires k != j
    ensures var u := Apply(s, Call(env, SettleCallback(k, results)));
      && u.cfg == s.cfg && (j in u.escrows <==> j in s.escrows) && (j in s.escrows ==> u.escrows[j] == s.escrows[j])
  {
  }

  lemma OtherBatchReports(w: World, env: Env, k: JobId, j: JobId)
    requires k != j
    ensures var w' := AfterBatchCallback(w, env, k);
      w'.id == w.id && Self(w') == Self(w) && SameFlight(w, w', j) && SameJob(w, w', j)
  {
    if k in w.flights {
      OtherCallback(w.escrow, env, k, seq(|w.flights[k].transfers|, _ => !w.flights[k].failed), j);
    }
  }

  lemma OtherBatchMoves(w: World, k: JobId, place: nat, j: JobId)
    requires k != j
    ensures var w' := AfterRunTransfer(w, k, place); w'.escrow == w.escrow && w'.id == w.id && SameFlight(w, w', j)
    ensures var w' := AfterFailBatch(w, k); w'.escrow == w.escrow && w'.id == w.id && SameFlight(w, w', j)
  {
  }

  /** Steps on other batches, and of the token. */
  lemma AsideStep(w: World, step: Step, j: JobId, got: Receipts)
    requires OnTheBooks(w, j, got)
    requires !step.Escrow? && !step.Deliver?
    requires step.RunTransfer? || step.FailBatch? || step.BatchCallback? ==> step.job != j
    ensures OnTheBooks(Next(w, step), j, got)
  {
    match step {
      case RunTransfer(k, place) => OtherBatchMoves(w, k, place, j);
      case FailBatch(k) => OtherBatchMoves(w, k, 0, j);
      case BatchCallback(env, k) => OtherBatchReports(w, env, k, j);
      case _ => OtherHops(w, step, j);
    }
    AsideOnTheBooks(w, Next(w, step), j, got);
  }

  lemma OtherHops(w: World, step: Step, j: JobId)
    requires !step.Escrow? && !step.Deliver? && !step.RunTransfer? && !step.FailBatch? && !step.BatchCallback?
    ensures var w' := Next(w, step); w'.escrow == w.escrow && w'.id == w.id && w'.flights == w.flights
  {
  }

  lemma SameGot(w: World, j: JobId, got: Receipts, got': Receipts)
    requires OnTheBooks(w, j, got) && got.owners <= got'.owners && forall a :: got'.gain(a) == got.gain(a)
    ensures OnTheBooks(w, j, got')
  {
    if j in w.escrow.escrows && w.escrow.escrows[j].terms.token == w.id && j !in w.flights
       && Settled(w.escrow.escrows[j]) {
      var e := w.escrow.escrows[j];
      var owner :| owner in got.owners && Got(Self(w), Final(e, owner), got);
      assert Got(Self(w), Final(e, owner), got');
    }
  }

  lemma OwnTransfer(w: World, place: nat, j: JobId, got: Receipts, got': Receipts)
    requires WorldInv(w) && OnTheBooks(w, j, got)
    requires got.owners <= got'.owners
    requires forall a ::
      got'.gain(a) == got.gain(a) + AfterRunTransfer(w, j, place).token.BalanceOf(a) - w.token.BalanceOf(a)
    ensures OnTheBooks(AfterRunTransfer(w, j, place), j, got')
  {
    if AfterRunTransfer(w, j, place) == w {
      SameGot(w, j, got, got');
    } else {
      TransferOnTheBooks(w, j, place, got, got');
    }
  }

  lemma StepOnTheBooks(w: World, step: Step, j: JobId, got: Receipts, got': Receipts)
    requires WorldInv(w) && OnTheBooks(w, j, got) && w.escrow.cfg.owner in got.owners
    requires step.Escrow? && step.call.op.CleanupCompleted? ==> j !in step.call.op.gone
    requires got.owners <= got'.owners
    requires forall a :: got'.gain(a) == got.gain(a) + Gain(w, step, j, a)
    ensures OnTheBooks(Next(w, step), j, got')
  {
    if step.RunTransfer? && step.job == j {
      OwnTransfer(w, step.place, j, got, got');
    } else {
      match step {
        case Escrow(call) => CallOnTheBooks(w, call, j, got);
        case Deliver(ticket, env, crashed) => DeliveryOnTheBooks(w, ticket, env, crashed, j, got);
        case FailBatch(k) => if k == j { FailedOnTheBooks(w, j, got); } else { AsideStep(w, step, j, got); }
        case BatchCallback(env, k) =>
          if k == j { CallbackOnTheBooks(w, env, j, got); } else { AsideStep(w, step, j, got); }
        case _ => AsideStep(w, step, j, got);
      }
      SameGot(Next(w, step), j, got, got');
    }
  }

  // ---- every run ----

  /** No clean-up of the run removes the job. */
  predicate Keeps(steps: seq<Step>, j: JobId) {
    forall i :: 0 <= i < |steps| && steps[i].Escrow? && steps[i].call.op.CleanupCompleted? ==>
      j !in steps[i].call.op.gone
  }

  /** Everybody who was owner at some point of the run. */
  ghost function OwnersOf(w: World, steps: seq<Step>): set<AccountId> {
    (if steps == [] then {} else OwnersOf(w, steps[..|steps| - 1])) + {RunWorld(w, steps).escrow.cfg.owner}
  }

  ghost function ReceiptsOf(w: World, steps: seq<Step>, j: JobId): Receipts {
    Receipts(a => Gained(w, steps, j, a), OwnersOf(w, steps))
  }

  lemma {:induction false} RunOnTheBooks(w: World, steps: seq<Step>, j: JobId)
    requires WorldInv(w) && j !in w.escrow.escrows && j !in w.flights && Keeps(steps, j)
    ensures OnTheBooks(RunWorld(w, steps), j, ReceiptsOf(w, steps, j))
  {
    if steps != [] {
      var n := |steps| - 1;
      var before := steps[..n];
      RunOnTheBooks(w, before, j);
      Solvency.RunStaysSolvent(w, before);
      StepOnTheBooks(RunWorld(w, before), steps[n], j, ReceiptsOf(w, before, j), ReceiptsOf(w, steps, j));
    }
  }

  lemma ForTwo(p: Transfer, q: Transfer, a: AccountId)
    ensures For([], a) == 0 && For([p], a) == if p.receiver == a then p.amount else 0
    ensures For([p, q], a) == (if p.receiver == a then p.amount else 0) + if q.receiver == a then q.amount else 0
  {
    assert [p, q][..1] == [p] && [p][..0] == [];
  }

  /** One account's part of what is transferred for a job. */
  function Share(due: bool, amount: nat): nat {
    if due then amount else 0
  }

  /** What an account gets for a settled job: by transfer, so nothing for an internal worker. */
  predicate Earned(e: Escrow, feeTo: AccountId, a: AccountId, sum: int) {
    var net, fee := Net(e), e.terms.fee;
    && (e.status == Claimed ==>
          sum == Share(e.workerPubkey.None? && e.worker == Some(a), net) + Share(a == feeTo, fee))
    && (e.status == Refunded && e.verdict.Some? ==> sum == Share(a == e.terms.agent, net) + Share(a == feeTo, fee))
    && (e.status == Refunded && e.verdict.None? ==> sum == Share(a == e.terms.agent, e.terms.amount))
  }

  /** Everybody got what the settlement was to pay, the fee going to someone who was owner
      meanwhile. */
  ghost predicate PaidRightly(self: AccountId, e: Escrow, got: Receipts) {
    exists feeTo :: feeTo in got.owners && AllEarned(self, e, feeTo, got)
  }

  ghost predicate AllEarned(self: AccountId, e: Escrow, feeTo: AccountId, got: Receipts) {
    forall a :: a != self ==> Earned(e, feeTo, a, got.gain(a))
  }

  lemma FinalShares(e: Escrow, l: Ledger, owner: AccountId, a: AccountId)
    requires JobInv(e, l) && Settled(e)
    ensures Earned(e, owner, a, For(Final(e, owner), a))
  {
    var net, fee := Net(e), Transfer(owner, e.terms.fee);
    ForTwo(fee, fee, a);
    ForTwo(Transfer(e.terms.agent, net), fee, a);
    ForTwo(Transfer(e.terms.agent, e.terms.amount), fee, a);
    if e.worker.Some? {
      ForTwo(Transfer(e.worker.value, net), fee, a);
    }
  }

  lemma SettledIsPaid(self: AccountId, e: Escrow, l: Ledger, got: Receipts)
    requires JobInv(e, l) && Settled(e) && PaidOff(self, e, got)
    ensures PaidRightly(self, e, got)
  {
    var feeTo :| feeTo in got.owners && Got(self, Final(e, feeTo), got);
    forall a | a != self
      ensures Earned(e, feeTo, a, got.gain(a))
    {
      FinalShares(e, l, feeTo, a);
    }
    assert AllEarned(self, e, feeTo, got);
  }

  lemma BooksSayPaid(w: World, j: JobId, got: Receipts)
    requires WorldInv(w) && OnTheBooks(w, j, got) && j in w.escrow.escrows && w.escrow.escrows[j].terms.token == w.id
    ensures w.escrow.escrows[j].terms.fee < w.escrow.escrows[j].terms.amount
    ensures Settled(w.escrow.escrows[j]) ==> PaidRightly(Self(w), w.escrow.escrows[j], got)
    ensures !Settled(w.escrow.escrows[j]) && j !in w.flights ==> GotNothing(Self(w), got)
  {
    assert JobOk(w.escrow, j);
    if Settled(w.escrow.escrows[j]) {
      SettledIsPaid(Self(w), w.escrow.escrows[j], w.escrow.LedgerOf(j), got);
    }
  }

  /** In every run of the two contracts, for every job of the token, in tokens that reached accounts by the
      job's transfers, over all its batches and retries: if it ended Claimed, the worker with a NEAR account
      got the amount less the fee and the owner the fee; if it was refunded on a verdict, the agent and the
      owner did; if it was refunded without one, the agent got all of it; nobody else got anything. And
      nothing was paid as long as no settlement is under way. */
  lemma ExactlyOncePayroll(w: World, owner: AccountId, allowed: seq<AccountId>, steps: seq<Step>, j: JobId)
    requires Solvency.Start(w, owner, allowed) && Keeps(steps, j) && j in RunWorld(w, steps).escrow.escrows
    requires RunWorld(w, steps).escrow.escrows[j].terms.token == w.id
    ensures RunWorld(w, steps).escrow.escrows[j].terms.fee < RunWorld(w, steps).escrow.escrows[j].terms.amount
    ensures Settled(RunWorld(w, steps).escrow.escrows[j]) ==>
      PaidRightly(Self(w), RunWorld(w, steps).escrow.escrows[j], ReceiptsOf(w, steps, j))
    ensures !Settled(RunWorld(w, steps).escrow.escrows[j]) && j !in RunWorld(w, steps).flights ==>
      GotNothing(Self(w), ReceiptsOf(w, steps, j))
  {
    Solvency.StartOwesNothing(w, owner, allowed);
    RunOnTheBooks(w, steps, j);
    Solvency.RunStaysSolvent(w, steps);
    RunKeepsSelf(w, steps);
    BooksSayPaid(RunWorld(w, steps), j, ReceiptsOf(w, steps, j));
  }

  lemma {:induction false} RunKeepsSelf(w: World, steps: seq<Step>)
    requires WorldInv(w)
    ensures Self(RunWorld(w, steps)) == Self(w) && RunWorld(w, steps).id == w.id
  {
    if steps != [] {
      var before := steps[..|steps| - 1];
      RunKeepsSelf(w, before);
      Solvency.RunStaysSolvent(w, before);
      StepKeepsSelf(RunWorld(w, before), steps[|steps| - 1]);
    }
  }

  lemma CallKeepsSelf(w: World, call: Call)
    requires WorldInv(w)
    ensures Self(AfterEscrow(w, call)) == Self(w) && AfterEscrow(w, call).id == w.id
  {
    if Attempt(w.escrow, call.env, call.op).Some? {
      Solvency.SelfStays(w.escrow, call.env, call.op);
      NotedFlight(w, Attempt(w.escrow, call.env, call.op).value, "");
    }
  }

  lemma DeliveryKeepsSelf(w: World, ticket: nat, env: Env, crashed: bool)
    requires WorldInv(w)
    ensures Self(AfterDeliver(w, ticket, env, crashed)) == Self(w) && AfterDeliver(w, ticket, env, crashed).id == w.id
  {
    if AfterDeliver(w, ticket, env, crashed).escrow != w.escrow {
      var d := w.deposits[ticket];
      DeliveredAim(w.escrow, env, d.sender, d.amount, d.job, "");
    }
  }

  lemma StepKeepsSelf(w: World, step: Step)
    requires WorldInv(w)
    ensures Self(Next(w, step)) == Self(w) && Next(w, step).id == w.id
  {
    hide WorldInv;
    match step
    case Escrow(call) => CallKeepsSelf(w, call);
    case Deliver(ticket, env, crashed) => DeliveryKeepsSelf(w, ticket, env, crashed);
    case BatchCallback(env, k) => OtherBatchReports(w, env, k, k + "'");
    case RunTransfer(k, place) => OtherBatchMoves(w, k, place, k + "'");
    case FailBatch(k) => OtherBatchMoves(w, k, 0, k + "'");
    case _ => OtherHops(w, step, "");
  }
}

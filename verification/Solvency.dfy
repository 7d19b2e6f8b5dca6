/** The two contracts together stay solvent, in every run of `World`. */
module Solvency {
  import opened Basics
  import opened EscrowState
  import opened EscrowSpec
  import opened EscrowRuns
  import opened EscrowTraffic
  import opened World
  import EscrowWallet
  import Token

  // ---- what the escrow owes, and how it moves ----

  function ClaimsOf(w: World): map<JobId, nat> {
    Claims(w.escrow.escrows, w.flights, w.id)
  }

  function ClaimFor(w: World, j: JobId): nat {
    ClaimOn(w.escrow.escrows, w.flights, w.id, j)
  }

  /** The two worlds differ in no job and no flight but those of `j`. */
  ghost predicate OnlyAt(w: World, w': World, j: JobId) {
    && w'.id == w.id
    && (forall k :: k != j ==> (k in w'.escrow.escrows <==> k in w.escrow.escrows))
    && (forall k :: k in w.escrow.escrows && k != j ==> w'.escrow.escrows[k] == w.escrow.escrows[k])
    && (forall k :: k != j ==> (k in w'.flights <==> k in w.flights))
    && (forall k :: k in w.flights && k != j ==> w'.flights[k] == w.flights[k])
  }

  lemma ClaimsMove(w: World, w': World, j: JobId)
    requires OnlyAt(w, w', j)
    ensures MapSum(ClaimsOf(w')) - ClaimFor(w', j) == MapSum(ClaimsOf(w)) - ClaimFor(w, j)
  {
    var before, after := ClaimsOf(w), ClaimsOf(w');
    forall k | k in before && k != j
      ensures after[k] == before[k]
    {
      assert PaidOut(w'.flights, k) == PaidOut(w.flights, k) && Stray(w'.flights, k) == Stray(w.flights, k);
    }
    MapSumMove(before, after, j);
    assert ValueAt(before, j) == ClaimFor(w, j) && ValueAt(after, j) == ClaimFor(w', j);
  }

  /** All the escrow owes but for the jobs. */
  ghost function OtherLiabilities(w: World): nat {
    WalletSum(w.escrow.balances, w.id) + MapSum(PayoutAmounts(w.payouts)) + MapSum(DepositAmounts(w.deposits))
  }

  /** Solvency is kept if what changed at one job, in the wallets and under way is covered. */
  lemma SolventAt(w: World, w': World, j: JobId)
    requires Solvent(w) && OnlyAt(w, w', j) && MapSum(w'.token.accounts) <= U128_MAX && Self(w') == Self(w)
    requires w'.token.BalanceOf(Self(w)) + ClaimFor(w, j) + OtherLiabilities(w)
      >= w.token.BalanceOf(Self(w)) + ClaimFor(w', j) + OtherLiabilities(w')
    ensures Solvent(w')
  {
    ClaimsMove(w, w', j);
  }

  /** Deposits stay in order as long as accounts only get more. */
  lemma DepositsCarry(w: World, w': World)
    requires DepositsOk(w) && w'.deposits == w.deposits && Self(w') == Self(w)
    requires w.token.accounts.Keys <= w'.token.accounts.Keys
    ensures DepositsOk(w')
  {
    forall k | k in w'.deposits
      ensures DepositOk(w', w'.deposits[k])
    {
      assert DepositOk(w, w.deposits[k]);
    }
  }

  lemma FlightsCarry(w: World, w': World, j: JobId)
    requires FlightsOk(w) && OnlyAt(w, w', j)
    requires j in w'.flights ==> FlightOk(w'.escrow.escrows, w'.flights[j], w.id, j)
    ensures FlightsOk(w')
  {
    forall k | k in w'.flights && k != j
      ensures FlightOk(w'.escrow.escrows, w'.flights[k], w.id, k)
    {
      assert FlightOk(w.escrow.escrows, w.flights[k], w.id, k);
    }
  }

  /** What is left to show when job `j`, its flight, or what is under way changed. */
  lemma Assembled(w: World, w': World, j: JobId)
    requires w.id != NEAR_TOKEN_ID && Solvent(w) && PayoutsOk(w) && AttemptsOk(w)
    requires EscrowOk(w'.escrow) && FlightsOk(w') && DepositsOk(w') && OnlyAt(w, w', j)
    requires w'.payouts == w.payouts && w'.attempts == w.attempts && |w.escrow.outbox| <= |w'.escrow.outbox|
    requires MapSum(w'.token.accounts) <= U128_MAX && Self(w') == Self(w)
    requires w'.token.BalanceOf(Self(w)) + ClaimFor(w, j) + OtherLiabilities(w)
      >= w.token.BalanceOf(Self(w)) + ClaimFor(w', j) + OtherLiabilities(w')
    ensures WorldInv(w')
  {
    SolventAt(w, w', j);
  }

  lemma DepositWrite(deposits: map<nat, Deposit>, ticket: nat, d: Deposit)
    ensures MapSum(DepositAmounts(deposits[ticket := d]))
      == MapSum(DepositAmounts(deposits)) - (if ticket in deposits then BackOf(deposits[ticket]) else 0) + BackOf(d)
  {
    MapSumMove<nat>(DepositAmounts(deposits), DepositAmounts(deposits[ticket := d]), ticket);
  }

  lemma DepositRemove(deposits: map<nat, Deposit>, ticket: nat)
    requires ticket in deposits
    ensures MapSum(DepositAmounts(deposits - {ticket})) == MapSum(DepositAmounts(deposits)) - BackOf(deposits[ticket])
  {
    MapSumRemove<nat>(DepositAmounts(deposits), ticket);
    assert DepositAmounts(deposits - {ticket}) == DepositAmounts(deposits) - {ticket};
  }

  lemma PayoutWrite(payouts: map<nat, Transfer>, ticket: nat, p: Transfer)
    ensures MapSum(PayoutAmounts(payouts[ticket := p])) <= MapSum(PayoutAmounts(payouts)) + p.amount
    ensures ticket !in payouts ==>
      MapSum(PayoutAmounts(payouts[ticket := p])) == MapSum(PayoutAmounts(payouts)) + p.amount
  {
    MapSumMove<nat>(PayoutAmounts(payouts), PayoutAmounts(payouts[ticket := p]), ticket);
  }

  lemma PayoutRemove(payouts: map<nat, Transfer>, ticket: nat)
    ensures MapSum(PayoutAmounts(payouts - {ticket}))
      == MapSum(PayoutAmounts(payouts)) - if ticket in payouts then payouts[ticket].amount else 0
  {
    MapSumRemove<nat>(PayoutAmounts(payouts), ticket);
    assert PayoutAmounts(payouts - {ticket}) == PayoutAmounts(payouts) - {ticket};
  }

  // ---- settlement plans ----

  lemma SumOfTwo(a: Transfer, b: Transfer)
    ensures SumOf([a]) == a.amount && SumOf([a, b]) == a.amount + b.amount
  {
    assert [a, b][..1] == [a] && [a][..0] == [];
  }

  /** Every settlement plan hands out exactly the job's amount: to the parties, and by the deferred
      payout to an internal worker. */
  lemma PlanPaysOut(e: Escrow, l: Ledger, owner: AccountId)
    requires JobInv(e, l) && e.target.Some?
    ensures Plan(e, owner).Some?
    ensures var plan := Plan(e, owner).value;
      && SumOf(plan) + GetOr(e.pendingPayout, 0) == e.terms.amount
      && Positive(plan)
  {
    var net := e.terms.amount - e.terms.fee;
    var fee := Transfer(owner, e.terms.fee);
    SumOfTwo(fee, fee);
    SumOfTwo(Transfer(e.terms.agent, net), fee);
    SumOfTwo(Transfer(e.terms.agent, e.terms.amount), fee);
    if e.worker.Some? {
      SumOfTwo(Transfer(e.worker.value, net), fee);
    }
  }

  lemma TargetIsFunded(e: Escrow, l: Ledger)
    requires JobInv(e, l) && e.target.Some?
    ensures Funded(e)
  {
  }

  /** The batch a settling call launches pays out its job's amount. */
  lemma LaunchedPaysAll(s: State, u: State, j: JobId)
    requires Launches(s, u, j) && JobInv(u.escrows[j], u.LedgerOf(j))
    ensures var e := u.escrows[j];
      var plan := Plan(e, s.cfg.owner).value;
      && NewPromise(s, u) == Some(Batch(j, e.terms.token, plan))
      && plan != [] && Positive(plan) && PaysAll(e, plan, e.terms.token)
  {
    var e := u.escrows[j];
    PlanPaysOut(e, u.LedgerOf(j), s.cfg.owner);
    TargetIsFunded(e, u.LedgerOf(j));
  }

  lemma CalmIsNotNoted(w: World, u: State)
    requires Calm(w.escrow.outbox, u.outbox)
    ensures Noted(w, u) == w.(escrow := u)
  {
    if |u.outbox| > |w.escrow.outbox| {
      assert Minor(u.outbox[|u.outbox| - 1]);
    }
  }

  // ---- a call on the escrow ----

  /** What every successful call on job `j` brings along. */
  ghost predicate Called(w: World, u: State, j: JobId) {
    && EscrowOk(u) && OthersSame(w.escrow, u, j)
    && |w.escrow.outbox| <= |u.outbox| && u.cfg.self == Self(w)
    && WalletSum(u.balances, w.id) + OwedFor(u, j, w.id)
        <= WalletSum(w.escrow.balances, w.id) + OwedFor(w.escrow, j, w.id)
  }

  lemma CallAloft(w: World, u: State, j: JobId)
    requires WorldInv(w) && Called(w, u, j) && j !in w.flights
    ensures WorldInv(w.(escrow := u))
  {
    var w' := w.(escrow := u);
    FlightsCarry(w, w', j);
    DepositsCarry(w, w');
    Assembled(w, w', j);
  }

  lemma LaunchedOk(w: World, u: State, j: JobId, plan: seq<Transfer>)
    requires FlightsOk(w) && OthersSame(w.escrow, u, j) && j !in w.flights
    requires plan != [] && Positive(plan) && PaysAll(u.escrows[j], plan, w.id)
    ensures FlightsOk(w.(escrow := u, flights := w.flights[j := Flight(plan, plan, false, false)]))
  {
    FlightsCarry(w, w.(escrow := u, flights := w.flights[j := Flight(plan, plan, false, false)]), j);
  }

  lemma LaunchedClaim(w: World, u: State, j: JobId, plan: seq<Transfer>)
    requires j !in w.flights
    ensures ClaimOn(u.escrows, w.flights[j := Flight(plan, plan, false, false)], w.id, j) == OwedFor(u, j, w.id)
    ensures ClaimFor(w, j) == OwedFor(w.escrow, j, w.id)
  {
  }

  /** A call that launches its job's batch. */
  lemma CallLaunching(w: World, u: State, j: JobId, plan: seq<Transfer>)
    requires WorldInv(w) && Called(w, u, j) && j !in w.flights
    requires plan != [] && Positive(plan) && PaysAll(u.escrows[j], plan, w.id)
    ensures WorldInv(w.(escrow := u, flights := w.flights[j := Flight(plan, plan, false, false)]))
  {
    var w' := w.(escrow := u, flights := w.flights[j := Flight(plan, plan, false, false)]);
    LaunchedOk(w, u, j, plan);
    LaunchedClaim(w, u, j, plan);
    DepositsCarry(w, w');
    Assembled(w, w', j);
  }

  lemma BatchIsNoted(w: World, u: State, j: JobId, token: AccountId, plan: seq<Transfer>)
    requires NewPromise(w.escrow, u) == Some(Batch(j, token, plan)) && j !in w.flights
    ensures Noted(w, u)
      == if token == w.id then w.(escrow := u, flights := w.flights[j := Flight(plan, plan, false, false)])
         else w.(escrow := u)
  {
  }

  /** A call on a job without a batch in flight: it may launch one. */
  lemma GroundedCall(w: World, u: State, j: JobId)
    requires WorldInv(w) && Called(w, u, j) && j !in w.flights
    requires Calm(w.escrow.outbox, u.outbox) || Launches(w.escrow, u, j)
    ensures WorldInv(Noted(w, u)) && Noted(w, u).extras == w.extras
  {
    if Calm(w.escrow.outbox, u.outbox) {
      CalmIsNotNoted(w, u);
      CallAloft(w, u, j);
    } else {
      var e := u.escrows[j];
      var plan := Plan(e, w.escrow.cfg.owner).value;
      assert NewPromise(w.escrow, u) == Some(Batch(j, e.terms.token, plan))
        && plan != [] && Positive(plan) && PaysAll(e, plan, e.terms.token) by {
        assert JobOk(u, j);
        LaunchedPaysAll(w.escrow, u, j);
      }
      BatchIsNoted(w, u, j, e.terms.token, plan);
      if e.terms.token == w.id {
        CallLaunching(w, u, j, plan);
      } else {
        CallAloft(w, u, j);
      }
    }
  }

  /** A flight stands for the same when its job aims where it did. */
  lemma AimKeepsFlight(w: World, u: State, j: JobId)
    requires j in w.flights && FlightOk(w.escrow.escrows, w.flights[j], w.id, j) && SameAim(w.escrow, u, j)
    ensures FlightOk(u.escrows, w.flights[j], w.id, j)
    ensures ClaimOn(u.escrows, w.flights, w.id, j) + OwedFor(w.escrow, j, w.id) == ClaimFor(w, j) + OwedFor(u, j, w.id)
  {
  }

  /** A harmless call goes well with a batch in flight: the batch stands for the same as before. */
  lemma CallInFlight(w: World, u: State, j: JobId)
    requires WorldInv(w) && Called(w, u, j) && j in w.flights
    requires Calm(w.escrow.outbox, u.outbox) && SameAim(w.escrow, u, j)
    ensures WorldInv(Noted(w, u)) && Noted(w, u).extras == w.extras
  {
    var w' := w.(escrow := u);
    CalmIsNotNoted(w, u);
    AimKeepsFlight(w, u, j);
    FlightsCarry(w, w', j);
    DepositsCarry(w, w');
    Assembled(w, w', j);
  }

  lemma SelfStays(s: State, env: Env, op: Op)
    requires EscrowOk(s) && Attempt(s, env, op).Some?
    ensures Attempt(s, env, op).value.cfg.self == s.cfg.self
  {
    if EscrowWallet.SignerOf(op).Some? {
      EscrowWallet.SignedCallAccepts(s, env, op);
    } else {
      EscrowWallet.UnsignedCallIsSilent(s, env, op);
    }
  }

  lemma EscrowStaysOk(s: State, call: Call)
    requires EscrowOk(s) && Attempt(s, call.env, call.op).Some?
    ensures var u := Attempt(s, call.env, call.op).value; EscrowOk(u) && u.cfg.self == s.cfg.self
  {
    SelfStays(s, call.env, call.op);
    StepKeepsJobs(s, call);
    StepKeepsKeys(s, call);
  }

  lemma SettlingIsCalled(w: World, call: Call)
    requires w.id != NEAR_TOKEN_ID && EscrowOk(w.escrow) && SettlingOp(call.op)
    requires Attempt(w.escrow, call.env, call.op).Some?
    ensures var u, j := Attempt(w.escrow, call.env, call.op).value, JobOf(call.op).value;
      Called(w, u, j) && (Calm(w.escrow.outbox, u.outbox) || Launches(w.escrow, u, j))
  {
    var s, u, j := w.escrow, Attempt(w.escrow, call.env, call.op).value, JobOf(call.op).value;
    EscrowStaysOk(s, call);
    CallTouches(s, call.env, call.op);
    assert Settles(s, u, j) by { SettlingTraffic(s, call.env, call.op); }
    SettlingKeepsBond(s, u, j);
    SettlingOwes(s, u, j, w.id);
  }

  lemma StillIsCalled(w: World, call: Call)
    requires w.id != NEAR_TOKEN_ID && EscrowOk(w.escrow) && StillOp(w.escrow, call.env, call.op, w.id)
    requires Attempt(w.escrow, call.env, call.op).Some? && (call.op.FtOnTransfer? ==> call.op.job in w.escrow.escrows)
    ensures var u, j := Attempt(w.escrow, call.env, call.op).value, JobOf(call.op).value;
      Called(w, u, j) && Calm(w.escrow.outbox, u.outbox)
  {
    EscrowStaysOk(w.escrow, call);
    CallTouches(w.escrow, call.env, call.op);
    StillTraffic(w.escrow, call.env, call.op, w.id);
  }

  lemma NotedIsAfter(w: World, call: Call)
    requires Attempt(w.escrow, call.env, call.op).Some? && !call.op.CleanupCompleted?
    ensures AfterEscrow(w, call) == Noted(w, Attempt(w.escrow, call.env, call.op).value)
  {
  }

  lemma SettlingCall(w: World, call: Call)
    requires WorldInv(w) && EscrowMay(w, call) && SettlingOp(call.op) && Attempt(w.escrow, call.env, call.op).Some?
    ensures WorldInv(AfterEscrow(w, call)) && AfterEscrow(w, call).extras == w.extras
  {
    SettlingIsCalled(w, call);
    GroundedCall(w, Attempt(w.escrow, call.env, call.op).value, JobOf(call.op).value);
    NotedIsAfter(w, call);
  }

  lemma StillCall(w: World, u: State, j: JobId)
    requires WorldInv(w) && Called(w, u, j) && Calm(w.escrow.outbox, u.outbox)
    requires j in w.flights ==> SameAim(w.escrow, u, j)
    ensures WorldInv(Noted(w, u)) && Noted(w, u).extras == w.extras
  {
    if j !in w.flights {
      GroundedCall(w, u, j);
    } else {
      CallInFlight(w, u, j);
    }
  }

  /** The honest token does not report a batch out of turn. */
  lemma HonestIsStill(w: World, call: Call)
    requires Honest(w, call) && JobOf(call.op).Some? && !SettlingOp(call.op)
        && Attempt(w.escrow, call.env, call.op).Some?
    requires FlightsOk(w)
    ensures StillOp(w.escrow, call.env, call.op, w.id)
    ensures JobOf(call.op).value in w.flights ==>
      SameAim(w.escrow, Attempt(w.escrow, call.env, call.op).value, JobOf(call.op).value)
  {
    var j := JobOf(call.op).value;
    assert j in w.flights ==> FlightOk(w.escrow.escrows, w.flights[j], w.id, j);
    if HarmlessOp(call.op) {
      HarmlessKeepsAim(w.escrow, call.env, call.op);
    }
  }

  lemma OtherJobCall(w: World, call: Call)
    requires WorldInv(w) && Honest(w, call) && JobOf(call.op).Some? && !SettlingOp(call.op)
    requires Attempt(w.escrow, call.env, call.op).Some? && (call.op.FtOnTransfer? ==> call.op.job in w.escrow.escrows)
    ensures WorldInv(AfterEscrow(w, call)) && AfterEscrow(w, call).extras == w.extras
  {
    var u, j := Attempt(w.escrow, call.env, call.op).value, JobOf(call.op).value;
    HonestIsStill(w, call);
    StillIsCalled(w, call);
    StillCall(w, u, j);
    NotedIsAfter(w, call);
  }

  /** A call that leaves the jobs and the token alone. */
  lemma IdleCall(w: World, u: State)
    requires WorldInv(w) && EscrowOk(u) && u.escrows == w.escrow.escrows && u.outbox == w.escrow.outbox
    requires u.cfg.self == Self(w) && WalletSum(u.balances, w.id) <= WalletSum(w.escrow.balances, w.id)
    ensures WorldInv(w.(escrow := u))
  {
  }

  /** A withdrawal takes from a wallet what it launches. */
  lemma WithdrawalCall(w: World, u: State, to: AccountId, amount: nat)
    requires WorldInv(w) && EscrowOk(u) && u.escrows == w.escrow.escrows && u.cfg.self == Self(w)
    requires u.outbox == w.escrow.outbox + [Ft(w.id, Transfer(to, amount))]
    requires WalletSum(u.balances, w.id) + amount == WalletSum(w.escrow.balances, w.id)
    ensures WorldInv(w.(escrow := u, payouts := w.payouts[|u.outbox| := Transfer(to, amount)]))
  {
    PayoutWrite(w.payouts, |u.outbox|, Transfer(to, amount));
  }

  /** Another token's withdrawal. */
  lemma OtherWithdrawalCall(w: World, u: State, p: Promise)
    requires WorldInv(w) && EscrowOk(u) && u.escrows == w.escrow.escrows && u.cfg.self == Self(w)
    requires u.outbox == w.escrow.outbox + [p] && WalletSum(u.balances, w.id) == WalletSum(w.escrow.balances, w.id)
    ensures WorldInv(w.(escrow := u))
  {
  }

  lemma PayoutIsNoted(w: World, u: State, p: Promise)
    requires u.outbox == w.escrow.outbox + [p] && (p.Ft? || p.Near?)
    ensures Noted(w, u) == if p.Ft? && p.token == w.id
                           then w.(escrow := u, payouts := w.payouts[|u.outbox| := p.transfer]) else w.(escrow := u)
  {
  }

  lemma WithdrawCall(w: World, call: Call)
    requires WorldInv(w) && call.op.Withdraw? && Attempt(w.escrow, call.env, call.op).Some?
    ensures WorldInv(AfterEscrow(w, call)) && AfterEscrow(w, call).extras == w.extras
  {
    var s, env, op := w.escrow, call.env, call.op;
    var u := Attempt(s, env, op).value;
    EscrowStaysOk(s, call);
    WithdrawTraffic(s, env, op.pk, op.to, op.token, op.amount, op.sig, w.id);
    Withdrawn(w, u, op.to, op.token, op.amount);
  }

  lemma Withdrawn(w: World, u: State, to: AccountId, tok: string, amount: nat)
    requires WorldInv(w) && EscrowOk(u) && u.escrows == w.escrow.escrows && u.cfg.self == Self(w)
    requires u.outbox
      == w.escrow.outbox + [if tok == NEAR_TOKEN_ID then Near(to, amount, Wallet) else Ft(tok, Transfer(to, amount))]
    requires WalletSum(u.balances, w.id) + (if tok == w.id then amount else 0) == WalletSum(w.escrow.balances, w.id)
    ensures WorldInv(Noted(w, u)) && Noted(w, u).extras == w.extras
  {
    var p := if tok == NEAR_TOKEN_ID then Near(to, amount, Wallet) else Ft(tok, Transfer(to, amount));
    PayoutIsNoted(w, u, p);
    if tok == w.id {
      WithdrawalCall(w, u, to, amount);
    } else {
      OtherWithdrawalCall(w, u, p);
    }
  }

  lemma WalletCall(w: World, call: Call)
    requires WorldInv(w) && JobOf(call.op).None? && !call.op.CleanupCompleted? && !call.op.Withdraw?
    requires Attempt(w.escrow, call.env, call.op).Some?
    ensures WorldInv(AfterEscrow(w, call)) && AfterEscrow(w, call).extras == w.extras
  {
    var u := Attempt(w.escrow, call.env, call.op).value;
    EscrowStaysOk(w.escrow, call);
    WalletTraffic(w.escrow, call.env, call.op, w.id);
    IdleCall(w, u);
    CalmIsNotNoted(w, u);
  }

  /** Removing jobs can only lessen what is due: the rest of a batch is no more than the rest of its job. */
  lemma RemovalLessens(w: World, u: State, gone: set<JobId>, j: JobId)
    requires FlightsOk(w) && u.escrows == w.escrow.escrows - gone
    ensures ClaimOn(u.escrows, Orphaned(w.flights, gone), w.id, j) <= ClaimFor(w, j)
  {
    if j in w.flights {
      assert FlightOk(w.escrow.escrows, w.flights[j], w.id, j);
    }
  }

  lemma RemovalCall(w: World, u: State, gone: set<JobId>)
    requires WorldInv(w) && EscrowOk(u) && u.escrows == w.escrow.escrows - gone
    requires u.outbox == w.escrow.outbox && u.cfg.self == Self(w) && u.balances == w.escrow.balances
    ensures WorldInv(w.(escrow := u, flights := Orphaned(w.flights, gone)))
  {
    var w' := w.(escrow := u, flights := Orphaned(w.flights, gone));
    forall j | j in ClaimsOf(w')
      ensures j in ClaimsOf(w) && ClaimsOf(w')[j] <= ClaimsOf(w)[j]
    {
      RemovalLessens(w, u, gone, j);
    }
    MapSumBelow(ClaimsOf(w'), ClaimsOf(w));
    forall j | j in w'.flights
      ensures FlightOk(u.escrows, w'.flights[j], w.id, j)
    {
      assert FlightOk(w.escrow.escrows, w.flights[j], w.id, j);
    }
    DepositsCarry(w, w');
  }

  lemma CleanupCall(w: World, call: Call)
    requires WorldInv(w) && call.op.CleanupCompleted? && Attempt(w.escrow, call.env, call.op).Some?
    ensures WorldInv(AfterEscrow(w, call)) && AfterEscrow(w, call).extras == w.extras
  {
    EscrowStaysOk(w.escrow, call);
    RemovalCall(w, Attempt(w.escrow, call.env, call.op).value, call.op.gone);
  }

  lemma UnknownDeposit(w: World, call: Call)
    requires call.op.FtOnTransfer? && call.op.job !in w.escrow.escrows
    ensures AfterEscrow(w, call) == w
  {
  }

  lemma AnyEscrowCall(w: World, call: Call)
    requires WorldInv(w) && EscrowMay(w, call)
    ensures WorldInv(AfterEscrow(w, call)) && AfterEscrow(w, call).extras == w.extras
  {
    var s, env, op := w.escrow, call.env, call.op;
    if Attempt(s, env, op).Some? {
      if op.FtOnTransfer? && op.job !in s.escrows {
        UnknownDeposit(w, call);
      } else if SettlingOp(op) {
        SettlingCall(w, call);
      } else if JobOf(op).Some? {
        OtherJobCall(w, call);
      } else if op.CleanupCompleted? {
        CleanupCall(w, call);
      } else if op.Withdraw? {
        WithdrawCall(w, call);
      } else {
        WalletCall(w, call);
      }
    }
  }

  lemma EscrowStep(w: World, call: Call)
    requires WorldInv(w)
    ensures WorldInv(Next(w, Step.Escrow(call))) && Next(w, Step.Escrow(call)).extras == w.extras
  {
    if EscrowMay(w, call) {
      AnyEscrowCall(w, call);
    }
  }

  // ---- what the token does ----

  /** With all balances together below 2^128 nothing wraps: a transfer moves exactly its amount. */
  lemma MovedBalances(t: Token.State, from: AccountId, to: AccountId, amount: Token.Amount, a: AccountId)
    requires from in t.accounts && to in t.accounts && amount <= t.accounts[from] && MapSum(t.accounts) <= U128_MAX
    ensures var t' := Token.Moved(t, from, to, amount);
      && MapSum(t'.accounts) == MapSum(t.accounts) && t'.accounts.Keys == t.accounts.Keys
      && t'.BalanceOf(a) == t.BalanceOf(a) - (if a == from then amount else 0) + (if a == to then amount else 0)
  {
    Token.MovedKeepsSum(t, from, to, amount);
    var taken := t.accounts[from := t.accounts[from] - amount];
    MapSumWrite(t.accounts, from, t.accounts[from] - amount);
    MapSumAtLeast(taken, to);
    Token.WrappedIs(taken[to] + amount);
  }

  lemma OthersOnlyAdd(t: Token.State, op: Token.Op, self: AccountId)
    requires MapSum(t.accounts) <= U128_MAX
    requires op.Mint? ==> MapSum(t.accounts) + op.amount <= U128_MAX
    requires (op.Transfer? ==> op.from != self) && (op.Resolve? ==> op.receiver != self)
    ensures var t' := Token.Apply(t, op);
      && MapSum(t'.accounts) <= U128_MAX && t.accounts.Keys <= t'.accounts.Keys
      && t'.BalanceOf(self) >= t.BalanceOf(self)
  {
    match op
    case Mint(signer, account, amount) =>
      if signer == t.owner {
        Token.MintAddsToSum(t, account, amount);
        MapSumAtLeast(t.accounts, account);
        Token.WrappedIs(t.BalanceOf(account) + amount);
      }
    case StorageDeposit(account) =>
      if account !in t.accounts {
        MapSumWrite(t.accounts, account, 0);
      }
    case Transfer(from, to, deposit, amount) =>
      if Token.CanTransfer(t, from, to, deposit, amount) {
        MovedBalances(t, from, to, amount, self);
      }
    case Resolve(sender, receiver, amount, answer) =>
      if Token.Attempt(t, op).Some? && Token.Attempt(t, op).value != t {
        MovedBalances(t, receiver, sender, Token.DueBack(answer, amount), self);
      }
    case SetPaused(_, _) =>
  }

  // ---- the steps of the token and of the hops between ----

  /** Only the token's accounts moved. */
  lemma TokenOnly(w: World, t: Token.State)
    requires WorldInv(w) && w.token.accounts.Keys <= t.accounts.Keys
    requires MapSum(t.accounts) <= U128_MAX && t.BalanceOf(Self(w)) >= w.token.BalanceOf(Self(w))
    ensures WorldInv(w.(token := t))
  {
    var w' := w.(token := t);
    DepositsCarry(w, w');
  }

  lemma ElsewhereStep(w: World, op: Token.Op)
    requires WorldInv(w)
    ensures WorldInv(Next(w, Elsewhere(op)))
  {
    if ElsewhereMay(w, op) {
      OthersOnlyAdd(w.token, op, Self(w));
      TokenOnly(w, Token.Apply(w.token, op));
    }
  }

  lemma TransferCallHop(w: World, ticket: nat, sender: AccountId, deposit: nat, amount: Token.Amount, j: JobId)
    requires WorldInv(w)
    ensures WorldInv(AfterTransferCall(w, ticket, sender, deposit, amount, j))
  {
    var w' := AfterTransferCall(w, ticket, sender, deposit, amount, j);
    if w' != w {
      MovedBalances(w.token, sender, Self(w), amount, Self(w));
      DepositWrite(w.deposits, ticket, w'.deposits[ticket]);
      DepositsCarry(w, w'.(deposits := w.deposits));
    }
  }

  lemma TransferCallStep(w: World, ticket: nat, sender: AccountId, deposit: nat, amount: Token.Amount, j: JobId)
    requires WorldInv(w)
    ensures WorldInv(Next(w, TransferCall(ticket, sender, deposit, amount, j)))
  {
    TransferCallHop(w, ticket, sender, deposit, amount, j);
  }

  /** An answer that leaves what is to be given back as it was. */
  lemma Refused(w: World, ticket: nat, answer: Token.Answer)
    requires WorldInv(w) && ticket in w.deposits && w.deposits[ticket].answer.None?
    requires answer == Token.Failed || answer == Token.Returned(w.deposits[ticket].amount)
    ensures WorldInv(w.(deposits := w.deposits[ticket := w.deposits[ticket].(answer := Some(answer))]))
  {
    var w' := w.(deposits := w.deposits[ticket := w.deposits[ticket].(answer := Some(answer))]);
    DepositWrite(w.deposits, ticket, w'.deposits[ticket]);
    assert DepositOk(w, w.deposits[ticket]);
  }

  /** What taking a deposit does inside the escrow. */
  lemma TakenInside(s: State, env: Env, sender: AccountId, amount: nat, j: JobId)
    requires EscrowOk(s) && Fundable(s, env.predecessor, sender, amount, j)
    ensures var u := AfterFtOnTransfer(s, env, sender, amount, j).0;
      && AfterFtOnTransfer(s, env, sender, amount, j).1 == 0
      && EscrowOk(u) && OthersSame(s, u, j) && u.cfg == s.cfg && u.balances == s.balances && u.outbox == s.outbox
      && !Funded(s.escrows[j]) && OwedFor(u, j, env.predecessor) == amount && u.escrows[j].target.None?
  {
    var call := Call(env, FtOnTransfer(sender, amount, j));
    assert Apply(s, call) == AfterFtOnTransfer(s, env, sender, amount, j).0;
    CallTouches(s, env, call.op);
    StepKeepsJobs(s, call);
    StepKeepsKeys(s, call);
    assert JobOk(s, j);
  }

  /** The deposit is taken: what was to be given back is now owed for the job. */
  lemma Taken(w: World, ticket: nat, env: Env)
    requires WorldInv(w) && ticket in w.deposits && w.deposits[ticket].answer.None? && env.predecessor == w.id
    requires var d := w.deposits[ticket]; Fundable(w.escrow, w.id, d.sender, d.amount, d.job)
    ensures WorldInv(AfterDeliver(w, ticket, env, false))
  {
    var d := w.deposits[ticket];
    var u := AfterFtOnTransfer(w.escrow, env, d.sender, d.amount, d.job).0;
    TakenInside(w.escrow, env, d.sender, d.amount, d.job);
    TakenOutside(w, u, ticket);
  }

  lemma AnsweredSum(deposits: map<nat, Deposit>, ticket: nat)
    requires ticket in deposits && deposits[ticket].answer.None?
    ensures MapSum(DepositAmounts(deposits[ticket := deposits[ticket].(answer := Some(Token.Returned(0)))]))
      + deposits[ticket].amount == MapSum(DepositAmounts(deposits))
  {
    DepositWrite(deposits, ticket, deposits[ticket].(answer := Some(Token.Returned(0))));
  }

  /** Nothing was due on an unfunded job but what an earlier job's batch still has to pay. */
  lemma ClaimStarts(w: World, u: State, j: JobId)
    requires FlightsOk(w) && j in w.escrow.escrows && j in u.escrows && !Funded(w.escrow.escrows[j])
    ensures ClaimOn(u.escrows, w.flights, w.id, j) == ClaimFor(w, j) + Owed(u.escrows[j], w.id)
    ensures j in w.flights ==> w.flights[j].orphan && BatchOk(w.flights[j])
  {
    assert j in w.flights ==> FlightOk(w.escrow.escrows, w.flights[j], w.id, j);
  }

  lemma TakenFlights(w: World, u: State, j: JobId)
    requires FlightsOk(w) && OthersSame(w.escrow, u, j) && j in w.escrow.escrows && !Funded(w.escrow.escrows[j])
    requires u.escrows[j].target.None?
    ensures FlightsOk(w.(escrow := u))
  {
    ClaimStarts(w, u, j);
    FlightsCarry(w, w.(escrow := u), j);
  }

  lemma AnsweredOk(w: World, w': World, ticket: nat)
    requires DepositsOk(w) && ticket in w.deposits && w.deposits[ticket].answer.None?
    requires w'.deposits == w.deposits[ticket := w.deposits[ticket].(answer := Some(Token.Returned(0)))]
    requires w'.token == w.token && Self(w') == Self(w)
    ensures DepositsOk(w')
  {
    forall k | k in w'.deposits
      ensures DepositOk(w', w'.deposits[k])
    {
      assert DepositOk(w, w.deposits[k]);
    }
  }

  lemma TakenBalances(w: World, w': World, ticket: nat)
    requires FlightsOk(w) && ticket in w.deposits && w.deposits[ticket].answer.None?
    requires var d := w.deposits[ticket];
      && w' == w.(escrow := w'.escrow, deposits := w.deposits[ticket := d.(answer := Some(Token.Returned(0)))])
      && w'.escrow.balances == w.escrow.balances && d.job in w.escrow.escrows && d.job in w'.escrow.escrows
      && !Funded(w.escrow.escrows[d.job]) && OwedFor(w'.escrow, d.job, w.id) == d.amount
    ensures ClaimFor(w', w.deposits[ticket].job) + OtherLiabilities(w')
      == ClaimFor(w, w.deposits[ticket].job) + OtherLiabilities(w)
  {
    AnsweredSum(w.deposits, ticket);
    ClaimStarts(w, w'.escrow, w.deposits[ticket].job);
  }

  lemma TakenOutside(w: World, u: State, ticket: nat)
    requires WorldInv(w) && ticket in w.deposits && w.deposits[ticket].answer.None?
    requires EscrowOk(u) && OthersSame(w.escrow, u, w.deposits[ticket].job)
    requires u.cfg == w.escrow.cfg && u.balances == w.escrow.balances && u.outbox == w.escrow.outbox
    requires var j := w.deposits[ticket].job;
      && j in w.escrow.escrows && !Funded(w.escrow.escrows[j]) && u.escrows[j].target.None?
      && OwedFor(u, j, w.id) == w.deposits[ticket].amount
    ensures WorldInv(w.(escrow := u,
                        deposits := w.deposits[ticket := w.deposits[ticket].(answer := Some(Token.Returned(0)))]))
  {
    var d := w.deposits[ticket];
    var w' := w.(escrow := u, deposits := w.deposits[ticket := d.(answer := Some(Token.Returned(0)))]);
    assert FlightsOk(w') by {
      TakenFlights(w, u, d.job);
    }
    AnsweredOk(w, w', ticket);
    TakenBalances(w, w', ticket);
    Assembled(w, w', d.job);
  }

  lemma DeliverHop(w: World, ticket: nat, env: Env, crashed: bool)
    requires WorldInv(w)
    ensures WorldInv(AfterDeliver(w, ticket, env, crashed))
  {
    if AfterDeliver(w, ticket, env, crashed) != w {
      var d := w.deposits[ticket];
      if crashed {
        Refused(w, ticket, Token.Failed);
      } else if Fundable(w.escrow, w.id, d.sender, d.amount, d.job) {
        Taken(w, ticket, env);
      } else {
        Refused(w, ticket, Token.Returned(d.amount));
      }
    }
  }

  lemma DeliverStep(w: World, ticket: nat, env: Env, crashed: bool)
    requires WorldInv(w)
    ensures WorldInv(Next(w, Deliver(ticket, env, crashed)))
  {
    hide WorldInv, AfterDeliver;
    DeliverHop(w, ticket, env, crashed);
  }

  /** The refund is always there to be paid: the sender gets back exactly what is due. */
  lemma RefundIsPaid(w: World, ticket: nat)
    requires WorldInv(w) && ticket in w.deposits && w.deposits[ticket].answer.Some?
    ensures var d, w' := w.deposits[ticket], AfterResolveDeposit(w, ticket);
      var due := Token.DueBack(d.answer.value, d.amount);
      && w'.token.BalanceOf(d.sender) == w.token.BalanceOf(d.sender) + due
      && w'.token.BalanceOf(Self(w)) == w.token.BalanceOf(Self(w)) - due
      && MapSum(w'.token.accounts) == MapSum(w.token.accounts) && w'.token.accounts.Keys == w.token.accounts.Keys
      && (Token.UnusedOf(d.answer.value, d.amount) == 0 <==> due == 0) && (due == 0 || due == d.amount)
  {
    var d := w.deposits[ticket];
    var due := Token.DueBack(d.answer.value, d.amount);
    assert DepositOk(w, d);
    DepositRemove(w.deposits, ticket);
    if due > 0 {
      MovedBalances(w.token, Self(w), d.sender, due, Self(w));
      MovedBalances(w.token, Self(w), d.sender, due, d.sender);
    }
  }

  /** The deposit is off the books, with what was due on it. */
  lemma Resolved(w: World, t: Token.State, ticket: nat, x: Attempted)
    requires WorldInv(w) && ticket in w.deposits
    requires MapSum(t.accounts) == MapSum(w.token.accounts) && t.accounts.Keys == w.token.accounts.Keys
    requires t.BalanceOf(Self(w)) == w.token.BalanceOf(Self(w)) - BackOf(w.deposits[ticket])
    requires x.netDebit == if x.accepted then x.deposit.amount else 0
    ensures WorldInv(w.(token := t, deposits := w.deposits - {ticket}, attempts := w.attempts + [x]))
  {
    var w' := w.(token := t, deposits := w.deposits - {ticket}, attempts := w.attempts + [x]);
    DepositsCarry(w.(deposits := w.deposits - {ticket}), w');
    DepositRemove(w.deposits, ticket);
  }

  lemma ResolveHop(w: World, ticket: nat)
    requires WorldInv(w)
    ensures WorldInv(AfterResolveDeposit(w, ticket))
  {
    var w' := AfterResolveDeposit(w, ticket);
    if ticket in w.deposits && w.deposits[ticket].answer.Some? {
      RefundIsPaid(w, ticket);
      Resolved(w, w'.token, ticket, w'.attempts[|w.attempts|]);
    }
  }

  lemma ResolveStep(w: World, ticket: nat)
    requires WorldInv(w)
    ensures WorldInv(Next(w, ResolveDeposit(ticket)))
  {
    ResolveHop(w, ticket);
  }

  // ---- settlement batches and withdrawals ----

  lemma {:induction false} SumOfWithout(s: seq<Transfer>, p: nat)
    requires p < |s|
    ensures SumOf(Without(s, p)) == SumOf(s) - s[p].amount
  {
    var n := |s| - 1;
    if p == n {
      assert Without(s, p) == s[..n];
    } else {
      SumOfWithout(s[..n], p);
      assert Without(s, p)[..n - 1] == Without(s[..n], p) && Without(s, p)[n - 1] == s[n];
    }
  }

  /** The escrow can make any transfer that it owes, unless the token is paused or the receiver is not
      registered. */
  lemma SentGoesThrough(w: World, p: Transfer)
    requires MapSum(w.token.accounts) <= U128_MAX && 0 < p.amount <= w.token.BalanceOf(Self(w))
    ensures Sent(w, p).Some? <==> !w.token.paused && p.receiver in w.token.accounts
  {
    MapSumAtLeast(w.token.accounts, Self(w));
  }

  lemma SentMoves(w: World, p: Transfer)
    requires MapSum(w.token.accounts) <= U128_MAX && Sent(w, p).Some?
    ensures var t := Sent(w, p).value;
      && MapSum(t.accounts) == MapSum(w.token.accounts) && t.accounts.Keys == w.token.accounts.Keys
      && t.BalanceOf(Self(w)) + p.amount
           == w.token.BalanceOf(Self(w)) + if p.receiver == Self(w) then p.amount else 0
  {
    MovedBalances(w.token, Self(w), p.receiver, p.amount, Self(w));
  }

  /** Only the flight of `j` changed, and the money it moved is what is no longer due. */
  lemma FlightMoves(w: World, w': World, j: JobId, f: Flight, paid: nat)
    requires WorldInv(w) && j in w.flights && w' == w.(token := w'.token, flights := w.flights[j := f])
    requires BatchOk(f) && f.transfers == w.flights[j].transfers && f.orphan == w.flights[j].orphan
    requires ClaimFor(w', j) + paid <= ClaimFor(w, j)
    requires MapSum(w'.token.accounts) <= U128_MAX && w.token.accounts.Keys <= w'.token.accounts.Keys
    requires w'.token.BalanceOf(Self(w)) + paid >= w.token.BalanceOf(Self(w))
    ensures WorldInv(w')
  {
    assert FlightOk(w.escrow.escrows, w.flights[j], w.id, j);
    FlightsCarry(w, w', j);
    DepositsCarry(w, w');
    Assembled(w, w', j);
  }

  /** One transfer less to make is so much less due. */
  lemma OneTransferLess(w: World, j: JobId, place: nat)
    requires FlightsOk(w) && j in w.flights && !w.flights[j].failed && place < |w.flights[j].left|
    ensures var f := w.flights[j];
      var f' := f.(left := Without(f.left, place));
      && BatchOk(f') && f.left[place].amount > 0
      && ClaimOn(w.escrow.escrows, w.flights[j := f'], w.id, j) + f.left[place].amount == ClaimFor(w, j)
  {
    var f := w.flights[j];
    assert FlightOk(w.escrow.escrows, f, w.id, j);
    SumOfWithout(f.left, place);
  }

  lemma RunTransferHop(w: World, j: JobId, place: nat)
    requires WorldInv(w)
    ensures WorldInv(AfterRunTransfer(w, j, place))
  {
    var w' := AfterRunTransfer(w, j, place);
    if w' != w {
      var f := w.flights[j];
      OneTransferLess(w, j, place);
      SentMoves(w, f.left[place]);
      FlightMoves(w, w', j, f.(left := Without(f.left, place)), f.left[place].amount);
    }
  }

  lemma RunTransferStep(w: World, j: JobId, place: nat)
    requires WorldInv(w)
    ensures WorldInv(Next(w, RunTransfer(j, place)))
  {
    RunTransferHop(w, j, place);
  }

  lemma FailBatchHop(w: World, j: JobId)
    requires WorldInv(w)
    ensures WorldInv(AfterFailBatch(w, j))
  {
    if AfterFailBatch(w, j) != w {
      assert FlightOk(w.escrow.escrows, w.flights[j], w.id, j);
      FlightMoves(w, AfterFailBatch(w, j), j, w.flights[j].(failed := true), 0);
    }
  }

  lemma FailBatchStep(w: World, j: JobId)
    requires WorldInv(w)
    ensures WorldInv(Next(w, FailBatch(j)))
  {
    FailBatchHop(w, j);
  }

  lemma CallbackKeepsOk(s: State, env: Env, j: JobId, results: seq<bool>)
    requires EscrowOk(s) && AfterSettleCallback(s, j, results).Some?
    ensures var u := AfterSettleCallback(s, j, results).value; EscrowOk(u) && OthersSame(s, u, j)
  {
    var call := Call(env, SettleCallback(j, results));
    assert Apply(s, call) == AfterSettleCallback(s, j, results).value;
    CallTouches(s, env, call.op);
    StepKeepsJobs(s, call);
    CallbackKeepsKeys(s, j, results);
  }

  /** Everything went through: what the batch did not pay is credited inside. */
  lemma GoodCallback(s: State, j: JobId, paid: nat, token: AccountId)
    requires j in s.escrows && JobInv(s.escrows[j], s.LedgerOf(j)) && KeyOk(s.escrows[j]) && token != NEAR_TOKEN_ID
    requires s.escrows[j].target.Some? && s.escrows[j].terms.token == token && Funded(s.escrows[j])
    requires paid + GetOr(s.escrows[j].pendingPayout, 0) == s.escrows[j].terms.amount
    ensures var u := Finished(s, j);
      && u.cfg == s.cfg && |s.outbox| <= |u.outbox|
      && WalletSum(u.balances, token) + OwedFor(u, j, token) + paid
           <= WalletSum(s.balances, token) + s.escrows[j].terms.amount
  {
    PendingSum(s.balances, s.escrows[j], token);
  }

  lemma BadCallback(s: State, j: JobId, token: AccountId)
    requires j in s.escrows && JobInv(s.escrows[j], s.LedgerOf(j)) && s.escrows[j].target.Some?
    ensures var u := s.Put(j, s.escrows[j].(status := SettlementFailed)).Moved(s.escrows[j].status, SettlementFailed);
      && u.cfg == s.cfg && |s.outbox| <= |u.outbox|
      && WalletSum(u.balances, token) + OwedFor(u, j, token) <= WalletSum(s.balances, token) + s.escrows[j].terms.amount
  {
  }

  /** What a batch paid when its callback comes: all or nothing. */
  ghost predicate Reported(e: Escrow, results: seq<bool>, paid: nat, token: AccountId) {
    && results != [] && e.target.Some? && e.terms.token == token && Funded(e)
    && paid + (if AllOk(results) then GetOr(e.pendingPayout, 0) else e.terms.amount) == e.terms.amount
  }

  /** What the callback of a whole batch does inside the escrow. */
  lemma CallbackInside(s: State, env: Env, j: JobId, results: seq<bool>, paid: nat, token: AccountId)
    requires EscrowOk(s) && j in s.escrows && Reported(s.escrows[j], results, paid, token) && token != NEAR_TOKEN_ID
    ensures AfterSettleCallback(s, j, results).Some?
    ensures var u := AfterSettleCallback(s, j, results).value;
      && EscrowOk(u) && OthersSame(s, u, j) && u.cfg == s.cfg && |s.outbox| <= |u.outbox|
      && WalletSum(u.balances, token) + OwedFor(u, j, token) + paid
           <= WalletSum(s.balances, token) + s.escrows[j].terms.amount
  {
    CallbackKeepsOk(s, env, j, results);
    assert JobInv(s.escrows[j], s.LedgerOf(j)) && KeyOk(s.escrows[j]) by {
      assert JobOk(s, j);
    }
    if AllOk(results) {
      GoodCallback(s, j, paid, token);
    } else {
      BadCallback(s, j, token);
    }
  }

  lemma FlightReports(e: Escrow, f: Flight, token: AccountId)
    requires BatchOk(f) && PaysAll(e, f.transfers, token)
    ensures Reported(e, seq(|f.transfers|, _ => !f.failed), PaidBy(f), token)
  {
    var results := seq(|f.transfers|, _ => !f.failed);
    assert results[0] == !f.failed;
  }

  /** A removed job's batch reports to nobody. */
  lemma OrphanCallback(s: State, env: Env, j: JobId, results: seq<bool>)
    requires j in s.escrows ==> s.escrows[j].target.None?
    ensures Apply(s, Call(env, SettleCallback(j, results))) == s
  {
  }

  lemma CallbackOutside(w: World, u: State, j: JobId)
    requires WorldInv(w) && j in w.flights && EscrowOk(u) && u.cfg == w.escrow.cfg && |w.escrow.outbox| <= |u.outbox|
    requires u == w.escrow || OthersSame(w.escrow, u, j)
    requires WalletSum(u.balances, w.id) + OwedFor(u, j, w.id) <= WalletSum(w.escrow.balances, w.id) + ClaimFor(w, j)
    ensures WorldInv(w.(escrow := u, flights := w.flights - {j}))
  {
    var w' := w.(escrow := u, flights := w.flights - {j});
    FlightsCarry(w, w', j);
    DepositsCarry(w, w');
    Assembled(w, w', j);
  }

  lemma CallbackApplies(s: State, env: Env, j: JobId, results: seq<bool>)
    ensures Apply(s, Call(env, SettleCallback(j, results)))
      == if AfterSettleCallback(s, j, results).Some? then AfterSettleCallback(s, j, results).value else s
  {
  }

  function PaidBy(f: Flight): nat {
    if f.failed then 0 else SumOf(f.transfers)
  }

  lemma CallbackClaim(w: World, j: JobId)
    requires j in w.flights && FlightOk(w.escrow.escrows, w.flights[j], w.id, j) && !w.flights[j].orphan
    requires w.flights[j].failed || w.flights[j].left == []
    ensures ClaimFor(w, j) + PaidBy(w.flights[j]) == w.escrow.escrows[j].terms.amount
  {
  }

  lemma JobCallback(w: World, env: Env, j: JobId)
    requires WorldInv(w) && j in w.flights && !w.flights[j].orphan && (w.flights[j].failed || w.flights[j].left == [])
    ensures WorldInv(AfterBatchCallback(w, env, j))
  {
    var f := w.flights[j];
    var results := seq(|f.transfers|, _ => !f.failed);
    assert FlightOk(w.escrow.escrows, f, w.id, j);
    FlightReports(w.escrow.escrows[j], f, w.id);
    CallbackClaim(w, j);
    CallbackInside(w.escrow, env, j, results, PaidBy(f), w.id);
    CallbackApplies(w.escrow, env, j, results);
    CallbackOutside(w, AfterSettleCallback(w.escrow, j, results).value, j);
  }

  lemma BatchCallbackHop(w: World, env: Env, j: JobId)
    requires WorldInv(w)
    ensures WorldInv(AfterBatchCallback(w, env, j))
  {
    if j in w.flights && (w.flights[j].failed || w.flights[j].left == []) {
      if w.flights[j].orphan {
        assert FlightOk(w.escrow.escrows, w.flights[j], w.id, j);
        OrphanCallback(w.escrow, env, j, seq(|w.flights[j].transfers|, _ => !w.flights[j].failed));
        CallbackOutside(w, w.escrow, j);
      } else {
        JobCallback(w, env, j);
      }
    }
  }

  lemma BatchCallbackStep(w: World, env: Env, j: JobId)
    requires WorldInv(w)
    ensures WorldInv(Next(w, BatchCallback(env, j)))
  {
    BatchCallbackHop(w, env, j);
  }

  lemma PayoutStep(w: World, ticket: nat)
    requires WorldInv(w)
    ensures WorldInv(Next(w, RunPayout(ticket))) && WorldInv(Next(w, FailPayout(ticket)))
  {
    PayoutGone(w, w.token, ticket, 0);
    if AfterRunPayout(w, ticket) != w {
      SentMoves(w, w.payouts[ticket]);
      PayoutGone(w, AfterRunPayout(w, ticket).token, ticket, w.payouts[ticket].amount);
    }
  }

  lemma PayoutGone(w: World, t: Token.State, ticket: nat, paid: nat)
    requires WorldInv(w) && (paid == 0 || (ticket in w.payouts && paid == w.payouts[ticket].amount))
    requires MapSum(t.accounts) <= U128_MAX && w.token.accounts.Keys <= t.accounts.Keys
    requires t.BalanceOf(Self(w)) + paid >= w.token.BalanceOf(Self(w))
    ensures WorldInv(w.(token := t, payouts := w.payouts - {ticket}))
  {
    var w' := w.(token := t, payouts := w.payouts - {ticket});
    PayoutRemove(w.payouts, ticket);
    DepositsCarry(w, w');
  }

  // ---- every run ----

  lemma StepStaysSolvent(w: World, step: Step)
    requires WorldInv(w)
    ensures WorldInv(Next(w, step))
  {
    match step
    case Escrow(call) => EscrowStep(w, call);
    case Elsewhere(op) => ElsewhereStep(w, op);
    case TransferCall(ticket, sender, deposit, amount, j) => TransferCallStep(w, ticket, sender, deposit, amount, j);
    case Deliver(ticket, env, crashed) => DeliverStep(w, ticket, env, crashed);
    case ResolveDeposit(ticket) => ResolveStep(w, ticket);
    case RunTransfer(j, place) => RunTransferStep(w, j, place);
    case FailBatch(j) => FailBatchStep(w, j);
    case BatchCallback(env, j) => BatchCallbackStep(w, env, j);
    case RunPayout(ticket) => PayoutStep(w, ticket);
    case FailPayout(ticket) => PayoutStep(w, ticket);
  }

  lemma HopKeepsExtras(w: World, step: Step)
    requires !step.Escrow?
    ensures Next(w, step).extras == w.extras
  {
  }

  /** No job ever has a second batch in flight. */
  lemma StepKeepsExtras(w: World, step: Step)
    requires WorldInv(w)
    ensures Next(w, step).extras == w.extras
  {
    match step
    case Escrow(call) => EscrowStep(w, call);
    case _ => HopKeepsExtras(w, step);
  }

  /** Deployment: any token state whose balances fit into 128 bits, and a new escrow. */
  ghost predicate Start(w: World, owner: AccountId, allowed: seq<AccountId>) {
    && w.id != NEAR_TOKEN_ID && w.escrow == Initial(Self(w), owner, allowed) && MapSum(w.token.accounts) <= U128_MAX
    && w.flights == map[] && w.extras == map[] && w.deposits == map[] && w.payouts == map[] && w.attempts == []
  }

  lemma {:induction false} RunStaysSolvent(w: World, steps: seq<Step>)
    requires WorldInv(w)
    ensures WorldInv(RunWorld(w, steps)) && RunWorld(w, steps).extras == w.extras
  {
    if steps != [] {
      RunStaysSolvent(w, steps[..|steps| - 1]);
      StepStaysSolvent(RunWorld(w, steps[..|steps| - 1]), steps[|steps| - 1]);
      StepKeepsExtras(RunWorld(w, steps[..|steps| - 1]), steps[|steps| - 1]);
    }
  }

  ghost predicate ReachableWorld(w: World) {
    exists w0, owner, allowed, steps :: Start(w0, owner, allowed) && w == RunWorld(w0, steps)
  }

  lemma StartOwesNothing(w: World, owner: AccountId, allowed: seq<AccountId>)
    requires Start(w, owner, allowed)
    ensures Liabilities(w) == 0 && WorldInv(w)
  {
    assert TokenBalances(w.escrow.balances, w.id) == map[];
    assert ClaimsOf(w) == map[];
  }

  lemma ReachableWorldInv(w: World)
    requires ReachableWorld(w)
    ensures WorldInv(w) && w.extras == map[]
  {
    var w0, owner, allowed, steps :| Start(w0, owner, allowed) && w == RunWorld(w0, steps);
    StartOwesNothing(w0, owner, allowed);
    RunStaysSolvent(w0, steps);
  }

  /** In every run: the escrow holds at least what it owes: for funded unsettled jobs less what their
      batches have paid, for batches of removed jobs, to the workers' wallets, for withdrawals on their
      way, and for deposits not yet taken or to be given back. No job has two batches in flight. */
  lemma EscrowIsSolvent(w: World)
    requires ReachableWorld(w)
    ensures w.token.BalanceOf(Self(w)) >=
      MapSum(Claims(w.escrow.escrows, w.flights, w.id)) + WalletSum(w.escrow.balances, w.id)
      + MapSum(PayoutAmounts(w.payouts)) + MapSum(DepositAmounts(w.deposits))
    ensures forall j :: j in w.escrow.escrows && j !in w.flights ==> ClaimFor(w, j) == Owed(w.escrow.escrows[j], w.id)
    ensures forall j :: j in w.flights && !w.flights[j].orphan ==>
      && j in w.escrow.escrows && PaysAll(w.escrow.escrows[j], w.flights[j].transfers, w.id)
      && ClaimFor(w, j) == SumOf(w.flights[j].left) + GetOr(w.escrow.escrows[j].pendingPayout, 0)
    ensures w.extras == map[]
  {
    ReachableWorldInv(w);
    assert forall j :: j in w.flights ==> FlightOk(w.escrow.escrows, w.flights[j], w.id, j);
  }

  /** So no settlement fails for want of money: whatever ran in between, each transfer of a batch goes
      through exactly when the token is not paused and its receiver is registered. */
  lemma BatchIsNeverShort(w: World, j: JobId, place: nat)
    requires ReachableWorld(w) && j in w.flights && !w.flights[j].failed && place < |w.flights[j].left|
    ensures Sent(w, w.flights[j].left[place]).Some? <==>
      !w.token.paused && w.flights[j].left[place].receiver in w.token.accounts
  {
    ReachableWorldInv(w);
    OneTransferLess(w, j, place);
    MapSumAtLeast(ClaimsOf(w), j);
    SentGoesThrough(w, w.flights[j].left[place]);
  }

  /** Nor does a withdrawal. */
  lemma PayoutIsNeverShort(w: World, ticket: nat)
    requires ReachableWorld(w) && ticket in w.payouts && w.payouts[ticket].amount > 0
    ensures Sent(w, w.payouts[ticket]).Some? <==> !w.token.paused && w.payouts[ticket].receiver in w.token.accounts
  {
    ReachableWorldInv(w);
    PayoutRemove(w.payouts, ticket);
    SentGoesThrough(w, w.payouts[ticket]);
  }

  /** Funding: an accepted attempt costs its sender exactly the amount, a rejected one exactly nothing,
      and no job is opened twice. */
  lemma FundingIsExact(w: World)
    requires ReachableWorld(w)
    ensures forall i :: 0 <= i < |w.attempts| ==>
      w.attempts[i].netDebit == if w.attempts[i].accepted then w.attempts[i].deposit.amount else 0
    ensures forall j :: w.escrow.LedgerOf(j).openings <= 1
  {
    ReachableWorldInv(w);
    forall j
      ensures w.escrow.LedgerOf(j).openings <= 1
    {
      assert JobOk(w.escrow, j);
    }
  }

  // ---- the supply of the token ----

  ghost predicate Backed(t: Token.State) {
    t.totalSupply == MapSum(t.accounts)
  }

  lemma SentBacked(w: World, p: Transfer)
    requires Backed(w.token) && Sent(w, p).Some?
    ensures Backed(Sent(w, p).value)
  {
    Token.MovedKeepsSum(w.token, Self(w), p.receiver, p.amount);
  }

  lemma ElsewhereBacked(w: World, op: Token.Op)
    requires Backed(w.token) && ElsewhereMay(w, op)
    ensures Backed(Token.Apply(w.token, op))
  {
    Token.SmallResidue(MapSum(w.token.accounts), Token.AMOUNTS);
    Token.StepKeepsSupply(w.token, op);
    OthersOnlyAdd(w.token, op, Self(w));
    Token.SmallResidue(MapSum(Token.Apply(w.token, op).accounts), Token.AMOUNTS);
  }

  lemma ResolveBacked(w: World, d: Deposit)
    requires Backed(w.token) && d.answer.Some?
    ensures var r := Token.AfterResolve(w.token, d.sender, Self(w), d.amount, d.answer.value);
      r.Some? ==> Backed(r.value)
  {
    var r := Token.AfterResolve(w.token, d.sender, Self(w), d.amount, d.answer.value);
    if r.Some? && r.value != w.token {
      Token.MovedKeepsSum(w.token, Self(w), d.sender, Token.DueBack(d.answer.value, d.amount));
    }
  }

  lemma TransferCallBacked(w: World, ticket: nat, sender: AccountId, deposit: nat, amount: Token.Amount, j: JobId)
    requires Backed(w.token)
    ensures Backed(AfterTransferCall(w, ticket, sender, deposit, amount, j).token)
  {
    if Token.CanTransfer(w.token, sender, Self(w), deposit, amount) {
      Token.MovedKeepsSum(w.token, sender, Self(w), amount);
    }
  }

  lemma ResolveDepositBacked(w: World, ticket: nat)
    requires Backed(w.token)
    ensures Backed(AfterResolveDeposit(w, ticket).token)
  {
    if ticket in w.deposits && w.deposits[ticket].answer.Some? {
      ResolveBacked(w, w.deposits[ticket]);
    }
  }

  lemma TransferBacked(w: World, j: JobId, place: nat, ticket: nat)
    requires Backed(w.token)
    ensures Backed(AfterRunTransfer(w, j, place).token) && Backed(AfterRunPayout(w, ticket).token)
  {
    if AfterRunTransfer(w, j, place) != w {
      SentBacked(w, w.flights[j].left[place]);
    }
    if AfterRunPayout(w, ticket) != w {
      SentBacked(w, w.payouts[ticket]);
    }
  }

  /** Through all hops of funding and settlement the token's supply is the sum of its balances. */
  lemma StepStaysBacked(w: World, step: Step)
    requires Backed(w.token)
    ensures Backed(Next(w, step).token)
  {
    match step
    case Elsewhere(op) => if ElsewhereMay(w, op) { ElsewhereBacked(w, op); }
    case TransferCall(ticket, sender, deposit, amount, j) => TransferCallBacked(w, ticket, sender, deposit, amount, j);
    case ResolveDeposit(ticket) => ResolveDepositBacked(w, ticket);
    case RunTransfer(j, place) => TransferBacked(w, j, place, 0);
    case RunPayout(ticket) => TransferBacked(w, "", 0, ticket);
    case Escrow(call) => CallsKeepToken(w, call);
    case _ => OtherHopsKeepToken(w, step);
  }

  lemma NotedKeepsToken(w: World, u: State)
    ensures Noted(w, u).token == w.token
  {
  }

  lemma CallsKeepToken(w: World, call: Call)
    ensures AfterEscrow(w, call).token == w.token
  {
    var r := Attempt(w.escrow, call.env, call.op);
    if r.Some? {
      NotedKeepsToken(w, r.value);
    }
  }

  lemma OtherHopsKeepToken(w: World, step: Step)
    requires step.Deliver? || step.FailBatch? || step.BatchCallback? || step.FailPayout?
    ensures Next(w, step).token == w.token
  {
  }

  lemma {:induction false} SupplyIsBacked(w: World, steps: seq<Step>)
    requires Backed(w.token)
    ensures Backed(RunWorld(w, steps).token)
  {
    if steps != [] {
      var before := steps[..|steps| - 1];
      SupplyIsBacked(w, before);
      StepStaysBacked(RunWorld(w, before), steps[|steps| - 1]);
    }
  }
}

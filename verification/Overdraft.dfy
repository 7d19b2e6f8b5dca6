/** What the assumptions of the solvency theorem are for: with a second settling call on a job whose batch
    is in flight, or a batch that fails after a part of it went through, the escrow can owe more than it
    has. Here is how; `Surplus` has the exact condition for every run. */
module Overdraft {
  import opened Basics
  import opened EscrowState
  import opened EscrowSpec
  import opened EscrowRuns
  import opened EscrowTraffic
  import opened World
  import opened Solvency
  import EscrowTheorems
  import Token

  /** The steps of `World`; any call on the escrow at any time; a batch that fails whatever it has already
      paid; and all that can happen to a second batch. */
  datatype FreeStep =
    | Kept(step: Step)
    | AnyCall(call: Call)
    | FailPartly(job: JobId)
    | RunExtra(ticket: nat, place: nat)
    | FailExtra(ticket: nat)
    | ExtraCallback(env: Env, ticket: nat)

  /** A transfer of a job's second batch is made. */
  function AfterRunExtra(w: World, ticket: nat, place: nat): World {
    if ticket !in w.extras || w.extras[ticket].failed || place >= |w.extras[ticket].left| then w
    else
      var x := w.extras[ticket];
      var t := Sent(w, x.left[place]);
      if t.None? then w
      else w.(token := t.value, extras := w.extras[ticket := x.(left := Without(x.left, place))])
  }

  function AfterFailExtra(w: World, ticket: nat): World {
    if ticket !in w.extras then w
    else w.(extras := w.extras[ticket := w.extras[ticket].(failed := true)])
  }

  /** A second batch reports, for the same job. */
  function AfterExtraCallback(w: World, env: Env, ticket: nat): World {
    if ticket !in w.extras || !(w.extras[ticket].failed || w.extras[ticket].left == []) then w
    else
      var x := w.extras[ticket];
      var results := seq(|x.transfers|, _ => !x.failed);
      w.(escrow := Apply(w.escrow, Call(env, SettleCallback(x.job, results))), extras := w.extras - {ticket})
  }

  function AfterFailPartly(w: World, j: JobId): World {
    if j !in w.flights then w else w.(flights := w.flights[j := w.flights[j].(failed := true)])
  }

  ghost function FreeNext(w: World, step: FreeStep): World {
    match step
    case Kept(step) => Next(w, step)
    case AnyCall(call) => if Honest(w, call) then AfterEscrow(w, call) else w
    case FailPartly(j) => AfterFailPartly(w, j)
    case RunExtra(ticket, place) => AfterRunExtra(w, ticket, place)
    case FailExtra(ticket) => AfterFailExtra(w, ticket)
    case ExtraCallback(env, ticket) => AfterExtraCallback(w, env, ticket)
  }

  ghost function FreeRun(w: World, steps: seq<FreeStep>): World {
    if steps == [] then w else FreeNext(FreeRun(w, steps[..|steps| - 1]), steps[|steps| - 1])
  }

  // ---- the exact conditions ----

  /** A second batch's transfer pays what nobody is owed: the escrow stays solvent if and only if what it
      has beyond its liabilities covers the transfer. */
  lemma ExtraNeedsSurplus(w: World, ticket: nat, place: nat)
    requires MapSum(w.token.accounts) <= U128_MAX && ticket in w.extras && !w.extras[ticket].failed
    requires place < |w.extras[ticket].left|
    requires w.extras[ticket].left[place].receiver != Self(w) && Sent(w, w.extras[ticket].left[place]).Some?
    ensures Solvent(AfterRunExtra(w, ticket, place))
      <==> w.token.BalanceOf(Self(w)) >= Liabilities(w) + w.extras[ticket].left[place].amount
    ensures Liabilities(AfterRunExtra(w, ticket, place)) == Liabilities(w)
    ensures MapSum(AfterRunExtra(w, ticket, place).token.accounts) == MapSum(w.token.accounts)
  {
    SentMoves(w, w.extras[ticket].left[place]);
  }

  lemma CallbackFails(s: State, env: Env, j: JobId, results: seq<bool>)
    requires j in s.escrows && s.escrows[j].target.Some? && results != [] && !AllOk(results)
    ensures var e := s.escrows[j];
      Apply(s, Call(env, SettleCallback(j, results)))
        == s.Put(j, e.(status := SettlementFailed)).Moved(e.status, SettlementFailed)
  {
    CallbackApplies(s, env, j, results);
  }

  lemma FailedBooks(w: World, u: State, j: JobId)
    requires j in w.flights && FlightOk(w.escrow.escrows, w.flights[j], w.id, j) && !w.flights[j].orphan
    requires u.escrows == w.escrow.escrows[j := w.escrow.escrows[j].(status := SettlementFailed)]
    requires u.balances == w.escrow.balances
    ensures Liabilities(w.(escrow := u, flights := w.flights - {j})) == Liabilities(w) + PaidOut(w.flights, j)
  {
    ClaimsMove(w, w.(escrow := u, flights := w.flights - {j}), j);
  }

  /** A batch that fails after a part of it went through: its callback makes the whole amount due again.
      The escrow stays solvent if and only if its surplus covers the part that was paid. */
  lemma PartialFailureNeedsSurplus(w: World, env: Env, j: JobId)
    requires ReachableWorld(w) && j in w.flights && !w.flights[j].orphan && !w.flights[j].failed
    ensures Solvent(FreeNext(FreeNext(w, FailPartly(j)), Kept(BatchCallback(env, j))))
      <==> w.token.BalanceOf(Self(w)) >= Liabilities(w) + PaidOut(w.flights, j)
  {
    ReachableWorldInv(w);
    var f, e := w.flights[j], w.escrow.escrows[j];
    assert FlightOk(w.escrow.escrows, f, w.id, j);
    var results := seq(|f.transfers|, _ => false);
    assert !results[0];
    CallbackFails(w.escrow, env, j, results);
    var u := w.escrow.Put(j, e.(status := SettlementFailed)).Moved(e.status, SettlementFailed);
    FailedBooks(w, u, j);
    AfterPartialFailure(w, env, j, u);
  }

  lemma AfterPartialFailure(w: World, env: Env, j: JobId, u: State)
    requires j in w.flights
    requires Apply(w.escrow, Call(env, SettleCallback(j, seq(|w.flights[j].transfers|, _ => false)))) == u
    ensures FreeNext(FreeNext(w, FailPartly(j)), Kept(BatchCallback(env, j)))
      == w.(escrow := u, flights := w.flights - {j})
  {
    var f, w' := w.flights[j], AfterFailPartly(w, j);
    assert seq(|f.transfers|, _ => !w'.flights[j].failed) == seq(|f.transfers|, _ => false);
    assert w'.flights - {j} == w.flights - {j};
  }

  // ---- cancelling twice ----

  function RefundOf(e: Escrow): Transfer {
    Transfer(e.terms.agent, e.terms.amount)
  }

  function Refunding(e: Escrow): Escrow {
    e.(target := Some(FullRefund))
  }

  lemma CancelOnce(s: State, env: Env, j: JobId)
    requires j in s.escrows && s.escrows[j].status == Open && env.signer == s.escrows[j].terms.agent
    requires s.escrows[j].terms.amount > 0 && s.escrows[j].workerPubkey.None?
    ensures var e := s.escrows[j];
      AfterCancel(s, env, j) == Some(s.Put(j, Refunding(e)).Send(Batch(j, e.terms.token, [RefundOf(e)])))
  {
    var e := s.escrows[j];
    var t := s.Put(j, Refunding(e));
    SettleLaunches(t, j, [RefundOf(e)]);
    assert t.Put(j, Refunding(e)) == t;
  }

  lemma OpenJob(s: State, j: JobId)
    requires JobsInv(s) && j in s.escrows && s.escrows[j].status == Open
    ensures s.escrows[j].terms.amount > 0 && s.escrows[j].workerPubkey.None? && Funded(s.escrows[j])
  {
    assert JobOk(s, j);
  }

  /** Nothing stops an agent from cancelling a second time while the first refund is in flight. */
  lemma CancelTwicePaysTwice(s: State, env: Env, j: JobId)
    requires EscrowTheorems.Reachable(s) && j in s.escrows
    requires s.escrows[j].status == Open && env.signer == s.escrows[j].terms.agent
    ensures AfterCancel(s, env, j).Some? && AfterCancel(AfterCancel(s, env, j).value, env, j).Some?
    ensures var e := s.escrows[j];
      var batch := Batch(j, e.terms.token, [RefundOf(e)]);
      AfterCancel(AfterCancel(s, env, j).value, env, j).value.outbox == s.outbox + [batch, batch]
  {
    EscrowTheorems.ReachableInv(s);
    OpenJob(s, j);
    CancelOnce(s, env, j);
    CancelOnce(AfterCancel(s, env, j).value, env, j);
    var e := s.escrows[j];
    var batch := Batch(j, e.terms.token, [RefundOf(e)]);
    assert s.outbox + [batch] + [batch] == s.outbox + [batch, batch];
  }

  /** And after any failed result a retry sends the whole plan again, with the transfers that went
      through. */
  lemma RetrySendsEverything(s: State, env: Env, j: JobId, results: seq<bool>)
    requires EscrowTheorems.Reachable(s) && j in s.escrows && s.escrows[j].target.Some?
    requires results != [] && !AllOk(results)
    requires env.predecessor == s.cfg.owner && s.escrows[j].retryCount < MAX_SETTLEMENT_RETRIES
    ensures AfterSettleCallback(s, j, results).Some?
    ensures var t := AfterSettleCallback(s, j, results).value;
      && AfterRetry(t, env, j).Some?
      && var plan := Plan(s.escrows[j], s.cfg.owner);
         plan.Some? && (plan.value != [] ==>
           AfterRetry(t, env, j).value.outbox == s.outbox + [Batch(j, s.escrows[j].terms.token, plan.value)])
  {
    EscrowTheorems.ReachableInv(s);
    assert JobOk(s, j);
    PlanPaysOut(s.escrows[j], s.LedgerOf(j), s.cfg.owner);
    var t := AfterSettleCallback(s, j, results).value;
    RetrySends(t, env, j, Plan(s.escrows[j], s.cfg.owner).value);
  }

  lemma RetrySends(t: State, env: Env, j: JobId, plan: seq<Transfer>)
    requires j in t.escrows && t.escrows[j].status == SettlementFailed && Plan(t.escrows[j], t.cfg.owner) == Some(plan)
    requires env.predecessor == t.cfg.owner && t.escrows[j].retryCount < MAX_SETTLEMENT_RETRIES
    ensures AfterRetry(t, env, j).Some?
    ensures plan != [] ==> AfterRetry(t, env, j).value.outbox == t.outbox + [Batch(j, t.escrows[j].terms.token, plan)]
  {
    var e := t.escrows[j].(retryCount := (t.escrows[j].retryCount + 1) % 256);
    assert AfterRetry(t, env, j) == AfterSettle(t.Put(j, e), j);
    assert Plan(e, t.cfg.owner) == Some(plan);
    if plan != [] {
      SettleLaunches(t.Put(j, e), j, plan);
    } else {
      SettleShape(t.Put(j, e), j);
    }
  }

  /** The four steps: cancel, cancel again, and both refunds are made. */
  function TwoRefunds(w: World, env: Env, j: JobId): seq<FreeStep> {
    var cancel := Call(env, Cancel(j));
    [Kept(Step.Escrow(cancel)), AnyCall(cancel), Kept(RunTransfer(j, 0)), RunExtra(|w.escrow.outbox| + 2, 0)]
  }

  lemma OneStepMore(w: World, steps: seq<FreeStep>, step: FreeStep)
    ensures FreeRun(w, steps + [step]) == FreeNext(FreeRun(w, steps), step)
  {
    assert (steps + [step])[..|steps|] == steps;
  }

  /** Both refunds are launched: one batch in flight, another one beside it. */
  ghost predicate BothAloft(w: World, w2: World, j: JobId, ticket: nat) {
    && j in w.escrow.escrows && j !in w.flights
    && var p := RefundOf(w.escrow.escrows[j]);
      && w2.escrow.escrows == w.escrow.escrows[j := Refunding(w.escrow.escrows[j])]
      && w2.escrow.balances == w.escrow.balances && w2.escrow.cfg == w.escrow.cfg
      && w2 == w.(escrow := w2.escrow, flights := w.flights[j := Flight([p], [p], false, false)],
                  extras := w.extras[ticket := Extra(j, [p], [p], false)])
  }

  lemma TwoBatches(w: World, env: Env, j: JobId)
    requires JobsInv(w.escrow) && j in w.escrow.escrows && j !in w.flights
    requires w.escrow.escrows[j].status == Open && w.escrow.escrows[j].terms.token == w.id
    requires env.signer == w.escrow.escrows[j].terms.agent
    ensures var cancel := Call(env, Cancel(j));
      BothAloft(w, AfterEscrow(AfterEscrow(w, cancel), cancel), j, |w.escrow.outbox| + 2)
  {
    var s, e, cancel := w.escrow, w.escrow.escrows[j], Call(env, Cancel(j));
    OpenJob(s, j);
    CancelOnce(s, env, j);
    var t := AfterCancel(s, env, j).value;
    var w1 := Noted(w, t);
    assert NewPromise(s, t) == Some(Batch(j, w.id, [RefundOf(e)]));
    assert w1 == w.(escrow := t, flights := w.flights[j := Flight([RefundOf(e)], [RefundOf(e)], false, false)]);
    CancelOnce(t, env, j);
    var u := AfterCancel(t, env, j).value;
    assert NewPromise(t, u) == Some(Batch(j, w.id, [RefundOf(e)]));
    assert u.escrows == t.escrows;
  }

  lemma FourSteps(w: World, a: FreeStep, b: FreeStep, c: FreeStep, d: FreeStep)
    ensures FreeRun(w, [a, b, c, d]) == FreeNext(FreeNext(FreeNext(FreeNext(w, a), b), c), d)
  {
    OneStepMore(w, [], a);
    OneStepMore(w, [a], b);
    OneStepMore(w, [a, b], c);
    OneStepMore(w, [a, b, c], d);
    assert [] + [a] == [a] && [a] + [b] == [a, b] && [a, b] + [c] == [a, b, c] && [a, b, c] + [d] == [a, b, c, d];
  }

  lemma RunTwoRefunds(w: World, env: Env, j: JobId)
    requires j !in w.flights
    ensures var cancel := Call(env, Cancel(j));
      var w2 := AfterEscrow(AfterEscrow(w, cancel), cancel);
      FreeRun(w, TwoRefunds(w, env, j)) == AfterRunExtra(AfterRunTransfer(w2, j, 0), |w.escrow.outbox| + 2, 0)
  {
    var cancel := Call(env, Cancel(j));
    FourSteps(w, Kept(Step.Escrow(cancel)), AnyCall(cancel), Kept(RunTransfer(j, 0)),
              RunExtra(|w.escrow.outbox| + 2, 0));
  }

  lemma RefundMade(w: World, w2: World, j: JobId, t: Token.State)
    requires j in w.escrow.escrows && j !in w.flights && w2.id == w.id
    requires var e := w.escrow.escrows[j];
      && Funded(e) && e.terms.token == w.id
      && w2.escrow.escrows == w.escrow.escrows[j := Refunding(e)] && w2.escrow.balances == w.escrow.balances
      && w2.flights == w.flights[j := Flight([RefundOf(e)], [], false, false)]
      && w2.payouts == w.payouts && w2.deposits == w.deposits
    ensures Liabilities(w2) + w.escrow.escrows[j].terms.amount == Liabilities(w)
  {
    SumOfTwo(RefundOf(w.escrow.escrows[j]), RefundOf(w.escrow.escrows[j]));
    ClaimsMove(w, w2, j);
  }

  /** Two settling calls on one job: from any reachable world the escrow is solvent in the end if and only
      if it had the job's amount to spare. */
  lemma TwoRefundsNeedSurplus(w: World, env: Env, j: JobId)
    requires ReachableWorld(w) && j in w.escrow.escrows && j !in w.flights
    requires w.escrow.escrows[j].status == Open && w.escrow.escrows[j].terms.token == w.id
    requires var agent := w.escrow.escrows[j].terms.agent;
      env.signer == agent && agent != Self(w) && agent in w.token.accounts && !w.token.paused
    requires w.token.BalanceOf(Self(w)) >= 2 * w.escrow.escrows[j].terms.amount
    ensures var w' := FreeRun(w, TwoRefunds(w, env, j));
      && Self(w') == Self(w) && MapSum(w'.token.accounts) <= U128_MAX
      && (Solvent(w') <==> w.token.BalanceOf(Self(w)) >= Liabilities(w) + w.escrow.escrows[j].terms.amount)
  {
    ReachableWorldInv(w);
    OpenJob(w.escrow, j);
    TwoBatches(w, env, j);
    RunTwoRefunds(w, env, j);
    var cancel := Call(env, Cancel(j));
    BothMade(w, AfterEscrow(AfterEscrow(w, cancel), cancel), j, |w.escrow.outbox| + 2);
  }

  lemma BothMade(w: World, w2: World, j: JobId, ticket: nat)
    requires MapSum(w.token.accounts) <= U128_MAX && BothAloft(w, w2, j, ticket)
    requires var e := w.escrow.escrows[j];
      && Funded(e) && e.terms.token == w.id && e.terms.amount > 0 && e.terms.agent != Self(w)
      && e.terms.agent in w.token.accounts && !w.token.paused && w.token.BalanceOf(Self(w)) >= 2 * e.terms.amount
    ensures var w' := AfterRunExtra(AfterRunTransfer(w2, j, 0), ticket, 0);
      && Self(w') == Self(w) && MapSum(w'.token.accounts) <= U128_MAX
      && (Solvent(w') <==> w.token.BalanceOf(Self(w)) >= Liabilities(w) + w.escrow.escrows[j].terms.amount)
  {
    var p := RefundOf(w.escrow.escrows[j]);
    SentGoesThrough(w2, p);
    SentMoves(w2, p);
    var w3 := AfterRunTransfer(w2, j, 0);
    assert Without([p], 0) == [];
    RefundMade(w, w3, j, w3.token);
    SentKeepsGoing(w2, p);
    SentGoesThrough(w3, p);
    ExtraNeedsSurplus(w3, ticket, 0);
  }

  lemma SentKeepsGoing(w: World, p: Transfer)
    requires Sent(w, p).Some?
    ensures Sent(w, p).value.paused == w.token.paused && Sent(w, p).value.accounts.Keys == w.token.accounts.Keys
  {
  }

  // ---- a run that gets there ----

  const ESCROW_ID: AccountId := "escrow"
  const TOKEN_ID: AccountId := "token"
  const AGENT: AccountId := "agent"

  function Asked(who: AccountId): Env {
    Env(who, who, STORAGE_DEPOSIT_YOCTO, 0, 0, seq(32, _ => 0), (key, message, sig) => false)
  }

  function TaskOf(j: JobId): CreateArgs {
    CreateArgs(j, 1, TOKEN_ID, 0, "", "criteria", None, None, None, None)
  }

  /** Deployment: the agent has two units of the token, the escrow none. */
  function Deployed(): World {
    World(TOKEN_ID, Token.State("owner", map[ESCROW_ID := 0, AGENT := 2], 2, false),
          Initial(ESCROW_ID, "owner", []), map[], map[], map[], map[], [])
  }

  lemma DeployedIsStart()
    ensures ReachableWorld(Deployed())
  {
    var w := Deployed();
    MapSumSplit(w.token.accounts, ESCROW_ID);
    assert w.token.accounts - {ESCROW_ID} == map[AGENT := 2];
    MapSumSplit(map[AGENT := 2], AGENT);
    assert map[AGENT := 2] - {AGENT} == map[];
    assert Start(w, "owner", []) && w == RunWorld(w, []);
  }

  lemma StepReaches(w: World, step: Step)
    requires ReachableWorld(w)
    ensures ReachableWorld(Next(w, step))
  {
    var w0, owner, allowed, steps :| Start(w0, owner, allowed) && w == RunWorld(w0, steps);
    assert (steps + [step])[..|steps|] == steps;
    assert Next(w, step) == RunWorld(w0, steps + [step]);
  }

  /** The agent creates a job of one unit. */
  lemma Creates(w: World, j: JobId) returns (w': World)
    requires ReachableWorld(w) && Creatable(w.escrow, Asked(AGENT), TaskOf(j))
    ensures ReachableWorld(w')
    ensures w' == w.(escrow := AfterCreate(w.escrow, Asked(AGENT), TaskOf(j)).value)
  {
    var call := Call(Asked(AGENT), CreateEscrow(TaskOf(j)));
    StepReaches(w, Step.Escrow(call));
    NotedIsAfter(w, call);
    CalmIsNotNoted(w, AfterCreate(w.escrow, Asked(AGENT), TaskOf(j)).value);
    w' := Next(w, Step.Escrow(call));
  }

  lemma Sends(w: World, ticket: nat, j: JobId) returns (w': World)
    requires ReachableWorld(w) && Self(w) == ESCROW_ID && ticket !in w.deposits
    requires Token.CanTransfer(w.token, AGENT, ESCROW_ID, 1, 1)
    ensures ReachableWorld(w')
    ensures w' == w.(token := Token.Moved(w.token, AGENT, ESCROW_ID, 1),
                     deposits := w.deposits[ticket := Deposit(AGENT, 1, j, None)])
  {
    StepReaches(w, TransferCall(ticket, AGENT, 1, 1, j));
    w' := Next(w, TransferCall(ticket, AGENT, 1, 1, j));
  }

  lemma Delivers(w: World, ticket: nat) returns (w': World)
    requires ReachableWorld(w) && ticket in w.deposits && w.deposits[ticket].answer.None? && w.id == TOKEN_ID
    requires var d := w.deposits[ticket]; Fundable(w.escrow, TOKEN_ID, d.sender, d.amount, d.job)
    ensures ReachableWorld(w') && w'.id == w.id && w'.token == w.token && w'.flights == w.flights
    ensures w'.deposits.Keys == w.deposits.Keys && w'.escrow.cfg == w.escrow.cfg
    ensures var j := w.deposits[ticket].job;
      w'.escrow.escrows == w.escrow.escrows[j := w.escrow.escrows[j].(status := Open)]
  {
    StepReaches(w, Deliver(ticket, Asked(TOKEN_ID), false));
    w' := Next(w, Deliver(ticket, Asked(TOKEN_ID), false));
  }

  /** And funds it. */
  lemma Funds(w: World, ticket: nat, j: JobId) returns (w': World)
    requires ReachableWorld(w) && w.id == TOKEN_ID && Self(w) == ESCROW_ID && ticket !in w.deposits
    requires Token.CanTransfer(w.token, AGENT, ESCROW_ID, 1, 1) && Fundable(w.escrow, TOKEN_ID, AGENT, 1, j)
    ensures ReachableWorld(w') && w'.id == w.id && w'.flights == w.flights
    ensures w'.token == Token.Moved(w.token, AGENT, ESCROW_ID, 1)
    ensures w'.deposits.Keys == w.deposits.Keys + {ticket} && w'.escrow.cfg == w.escrow.cfg
    ensures w'.escrow.escrows == w.escrow.escrows[j := w.escrow.escrows[j].(status := Open)]
  {
    w' := Sends(w, ticket, j);
    w' := Delivers(w', ticket);
  }

  lemma OneMoved(t: Token.State, e: Token.Amount, a: Token.Amount)
    requires t.accounts == map[ESCROW_ID := e, AGENT := a] && 0 < a && e < 2 && !t.paused
    ensures Token.CanTransfer(t, AGENT, ESCROW_ID, 1, 1)
    ensures Token.Moved(t, AGENT, ESCROW_ID, 1).accounts == map[ESCROW_ID := e + 1, AGENT := a - 1]
    ensures !Token.Moved(t, AGENT, ESCROW_ID, 1).paused
  {
    Token.WrappedIs(t.accounts[ESCROW_ID] + 1);
  }

  lemma BothDue(w: World, j: JobId, k: JobId)
    requires j != k && j in w.escrow.escrows && k in w.escrow.escrows && w.flights == map[]
    requires w.escrow.escrows[j].status == Open && w.escrow.escrows[k].status == Open
    requires w.escrow.escrows[j].terms.token == w.id == w.escrow.escrows[k].terms.token
    ensures Liabilities(w) >= w.escrow.escrows[j].terms.amount + w.escrow.escrows[k].terms.amount
  {
    MapSumSplit(ClaimsOf(w), j);
    MapSumAtLeast(ClaimsOf(w) - {j}, k);
    assert ClaimsOf(w)[j] == ClaimFor(w, j) && ClaimsOf(w)[k] == ClaimFor(w, k);
  }

  function OpenTask(j: JobId): Escrow {
    NewEscrow(Asked(AGENT), TaskOf(j)).(status := Open)
  }

  lemma TwoTasks() returns (w: World)
    ensures ReachableWorld(w) && w.flights == map[] && w.deposits == map[] && w.id == TOKEN_ID
    ensures w.token == Deployed().token && w.escrow.cfg == Deployed().escrow.cfg
    ensures w.escrow.escrows
      == map["a" := NewEscrow(Asked(AGENT), TaskOf("a")), "b" := NewEscrow(Asked(AGENT), TaskOf("b"))]
  {
    DeployedIsStart();
    w := Creates(Deployed(), "a");
    w := Creates(w, "b");
  }

  lemma WriteFirst(x: Escrow, y: Escrow, z: Escrow)
    ensures map["a" := x, "b" := y]["a" := z] == map["a" := z, "b" := y]
    ensures map["a" := x, "b" := y]["b" := z] == map["a" := x, "b" := z]
  {
  }

  lemma TaskIsFundable(s: State, j: JobId)
    requires s.cfg == Deployed().escrow.cfg && j in s.escrows && s.escrows[j] == NewEscrow(Asked(AGENT), TaskOf(j))
    ensures Fundable(s, TOKEN_ID, AGENT, 1, j)
  {
  }

  lemma FirstFunded() returns (w: World)
    ensures ReachableWorld(w) && w.flights == map[] && w.deposits.Keys == {0} && w.id == TOKEN_ID
    ensures w.escrow.cfg == Deployed().escrow.cfg
    ensures w.token.accounts == map[ESCROW_ID := 1, AGENT := 1] && !w.token.paused
    ensures w.escrow.escrows == map["a" := OpenTask("a"), "b" := NewEscrow(Asked(AGENT), TaskOf("b"))]
  {
    hide Fundable, Token.CanTransfer, Token.Moved, ReachableWorld;
    w := TwoTasks();
    WriteFirst(w.escrow.escrows["a"], w.escrow.escrows["b"], OpenTask("a"));
    TaskIsFundable(w.escrow, "a");
    OneMoved(w.token, 0, 2);
    w := Funds(w, 0, "a");
  }

  /** Two funded jobs of one unit, and two units to cover them. */
  lemma TwoJobs() returns (w: World)
    ensures ReachableWorld(w) && w.flights == map[] && Self(w) == ESCROW_ID && w.id == TOKEN_ID
    ensures w.token.accounts == map[ESCROW_ID := 2, AGENT := 0] && !w.token.paused
    ensures w.escrow.escrows == map["a" := OpenTask("a"), "b" := OpenTask("b")]
  {
    hide Fundable, Token.CanTransfer, Token.Moved, ReachableWorld;
    w := FirstFunded();
    WriteFirst(w.escrow.escrows["a"], w.escrow.escrows["b"], OpenTask("b"));
    TaskIsFundable(w.escrow, "b");
    OneMoved(w.token, 1, 1);
    w := Funds(w, 1, "b");
  }

  /** The escrow owes more than it has. */
  ghost predicate Overdrawn(w: World) {
    w.token.BalanceOf(Self(w)) < Liabilities(w)
  }

  /** Within reach: a world from which the second refund leaves the escrow with less than it owes. */
  lemma OverdraftIsReachable()
    ensures exists w, env, j :: ReachableWorld(w) && Overdrawn(FreeRun(w, TwoRefunds(w, env, j)))
  {
    var w := TwoJobs();
    var env := Asked(AGENT);
    BothDue(w, "a", "b");
    TwoRefundsNeedSurplus(w, env, "a");
    assert Overdrawn(FreeRun(w, TwoRefunds(w, env, "a")));
  }
}

/** Every job that was opened by the token was paid for, once: accepted attempts match openings. */
module Funding {
  import opened Basics
  import opened EscrowState
  import opened EscrowSpec
  import opened EscrowRuns
  import opened World
  import opened Solvency
  import Token

  /** Resolved attempts for a job id that were accepted. */
  function AcceptedBefore(attempts: seq<Attempted>, j: JobId): nat {
    if attempts == [] then 0
    else
      var last := attempts[|attempts| - 1];
      AcceptedBefore(attempts[..|attempts| - 1], j) + if last.accepted && last.deposit.job == j then 1 else 0
  }

  function Accepts(d: Deposit, j: JobId): nat {
    if d.job == j && d.answer == Some(Token.Returned(0)) then 1 else 0
  }

  /** Deposits that were accepted and are still to be resolved. */
  function AcceptedNow(deposits: map<nat, Deposit>, j: JobId): map<nat, nat> {
    map k | k in deposits :: Accepts(deposits[k], j)
  }

  ghost function AcceptedFor(w: World, j: JobId): nat {
    AcceptedBefore(w.attempts, j) + MapSum(AcceptedNow(w.deposits, j))
  }

  /** What a step of the token adds to the openings on a job's ledger. */
  ghost function Opens(w: World, step: Step, j: JobId): nat {
    if step.Deliver? then SatSub(Next(w, step).escrow.LedgerOf(j).openings, w.escrow.LedgerOf(j).openings) else 0
  }

  ghost function Openings(w: World, steps: seq<Step>, j: JobId): nat {
    if steps == [] then 0
    else
      var before := steps[..|steps| - 1];
      Openings(w, before, j) + Opens(RunWorld(w, before), steps[|steps| - 1], j)
  }

  lemma AcceptedWrite(deposits: map<nat, Deposit>, ticket: nat, d: Deposit, j: JobId)
    ensures MapSum(AcceptedNow(deposits[ticket := d], j))
      == MapSum(AcceptedNow(deposits, j)) + Accepts(d, j)
           - (if ticket in deposits then Accepts(deposits[ticket], j) else 0)
  {
    MapSumMove<nat>(AcceptedNow(deposits, j), AcceptedNow(deposits[ticket := d], j), ticket);
  }

  lemma AcceptedRemove(deposits: map<nat, Deposit>, ticket: nat, j: JobId)
    requires ticket in deposits
    ensures MapSum(AcceptedNow(deposits - {ticket}, j)) + Accepts(deposits[ticket], j)
      == MapSum(AcceptedNow(deposits, j))
  {
    MapSumRemove<nat>(AcceptedNow(deposits, j), ticket);
    assert AcceptedNow(deposits - {ticket}, j) == AcceptedNow(deposits, j) - {ticket};
  }

  /** An opening is one acceptance. */
  lemma OpeningIsOne(s: State, env: Env, sender: AccountId, amount: nat, job: JobId, j: JobId)
    ensures var (u, unused) := AfterFtOnTransfer(s, env, sender, amount, job);
      u.LedgerOf(j).openings
        == s.LedgerOf(j).openings + if Fundable(s, env.predecessor, sender, amount, job) && job == j then 1 else 0
  {
  }

  lemma DeliverAccepts(w: World, ticket: nat, env: Env, crashed: bool, j: JobId)
    requires DepositsOk(w)
    ensures var w' := AfterDeliver(w, ticket, env, crashed);
      AcceptedFor(w', j) - AcceptedFor(w, j) == w'.escrow.LedgerOf(j).openings - w.escrow.LedgerOf(j).openings
    ensures AfterDeliver(w, ticket, env, crashed).escrow.LedgerOf(j).openings >= w.escrow.LedgerOf(j).openings
  {
    var w' := AfterDeliver(w, ticket, env, crashed);
    if w' != w {
      var d := w.deposits[ticket];
      assert DepositOk(w, d);
      AcceptedWrite(w.deposits, ticket, w'.deposits[ticket], j);
      OpeningIsOne(w.escrow, env, d.sender, d.amount, d.job, j);
    }
  }

  lemma OneMoreAttempt(attempts: seq<Attempted>, x: Attempted, j: JobId)
    ensures AcceptedBefore(attempts + [x], j)
      == AcceptedBefore(attempts, j) + if x.accepted && x.deposit.job == j then 1 else 0
  {
    assert (attempts + [x])[..|attempts|] == attempts;
  }

  lemma AnswerDecides(w: World, d: Deposit, j: JobId)
    requires DepositOk(w, d) && d.answer.Some?
    ensures Accepts(d, j) == if Token.UnusedOf(d.answer.value, d.amount) == 0 && d.job == j then 1 else 0
  {
  }

  lemma ResolveAccepts(w: World, ticket: nat, j: JobId)
    requires DepositsOk(w)
    ensures AcceptedFor(AfterResolveDeposit(w, ticket), j) == AcceptedFor(w, j)
  {
    if ticket in w.deposits && w.deposits[ticket].answer.Some? {
      var w' := AfterResolveDeposit(w, ticket);
      AnswerDecides(w, w.deposits[ticket], j);
      AcceptedRemove(w.deposits, ticket, j);
      OneMoreAttempt(w.attempts, w'.attempts[|w.attempts|], j);
    }
  }

  lemma TransferCallAccepts(
    w: World, ticket: nat, sender: AccountId, deposit: nat, amount: Token.Amount, job: JobId, j: JobId)
    ensures AcceptedFor(AfterTransferCall(w, ticket, sender, deposit, amount, job), j) == AcceptedFor(w, j)
  {
    var w' := AfterTransferCall(w, ticket, sender, deposit, amount, job);
    if w' != w {
      AcceptedWrite(w.deposits, ticket, w'.deposits[ticket], j);
    }
  }

  lemma OthersAcceptNothing(w: World, step: Step)
    requires !step.Deliver? && !step.ResolveDeposit? && !step.TransferCall?
    ensures Next(w, step).deposits == w.deposits && Next(w, step).attempts == w.attempts
  {
    match step
    case Escrow(call) => CallsKeepDeposits(w, call);
    case _ =>
  }

  lemma NotedKeepsDeposits(w: World, u: State)
    ensures Noted(w, u).deposits == w.deposits && Noted(w, u).attempts == w.attempts
  {
  }

  lemma CallsKeepDeposits(w: World, call: Call)
    ensures AfterEscrow(w, call).deposits == w.deposits && AfterEscrow(w, call).attempts == w.attempts
  {
    var r := Attempt(w.escrow, call.env, call.op);
    if r.Some? {
      NotedKeepsDeposits(w, r.value);
    }
  }

  lemma StepAccepts(w: World, step: Step, j: JobId)
    requires DepositsOk(w)
    ensures AcceptedFor(Next(w, step), j) == AcceptedFor(w, j) + Opens(w, step, j)
  {
    match step
    case Deliver(ticket, env, crashed) => DeliverAccepts(w, ticket, env, crashed, j);
    case ResolveDeposit(ticket) => ResolveAccepts(w, ticket, j);
    case TransferCall(ticket, sender, deposit, amount, job) =>
      TransferCallAccepts(w, ticket, sender, deposit, amount, job, j);
    case _ => OthersAcceptNothing(w, step);
  }

  lemma {:induction false} RunAccepts(w: World, steps: seq<Step>, j: JobId)
    requires WorldInv(w)
    ensures AcceptedFor(RunWorld(w, steps), j) == AcceptedFor(w, j) + Openings(w, steps, j)
  {
    if steps != [] {
      var before := steps[..|steps| - 1];
      RunAccepts(w, before, j);
      RunStaysSolvent(w, before);
      StepAccepts(RunWorld(w, before), steps[|steps| - 1], j);
    }
  }

  /** In every run, for every job id: as many attempts were accepted, resolved or about to be, as the token
      opened jobs by that id. With `FundingIsExact`, every opening was paid for with the amount, once. */
  lemma AcceptedAreOpenings(w: World, owner: AccountId, allowed: seq<AccountId>, steps: seq<Step>, j: JobId)
    requires Start(w, owner, allowed)
    ensures AcceptedFor(RunWorld(w, steps), j) == Openings(w, steps, j)
  {
    StartOwesNothing(w, owner, allowed);
    RunAccepts(w, steps, j);
    assert AcceptedNow(w.deposits, j) == map[];
  }
}

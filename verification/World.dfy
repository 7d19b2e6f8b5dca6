/** The escrow and one honest token contract together: funding by transfer-call, settlement by batches
    of transfers, withdrawals; every asynchronous hop is a step of its own. */
module World {
  import opened Basics
  import opened EscrowState
  import opened EscrowSpec
  import opened EscrowRuns
  import opened EscrowTraffic
  import Token

  /** A settlement batch on its way: all its transfers, those still to be made (in any order), and
      whether it failed. `orphan` once its job was cleaned up. */
  datatype Flight = Flight(transfers: seq<Transfer>, left: seq<Transfer>, failed: bool, orphan: bool)

  /** A batch launched while another one of its job was in flight. The assumptions rule it out. */
  datatype Extra = Extra(job: JobId, transfers: seq<Transfer>, left: seq<Transfer>, failed: bool)

  /** A transfer-call to the escrow: on its way, or answered and waiting to be resolved. */
  datatype Deposit = Deposit(sender: AccountId, amount: Token.Amount, job: JobId, answer: Option<Token.Answer>)

  /** A resolved transfer-call: was it accepted, and what did it cost the sender in the end? */
  datatype Attempted = Attempted(deposit: Deposit, accepted: bool, netDebit: int)

  datatype World = World(
    id: AccountId,
    token: Token.State,
    escrow: State,
    flights: map<JobId, Flight>,
    extras: map<nat, Extra>,
    deposits: map<nat, Deposit>,
    payouts: map<nat, Transfer>,
    attempts: seq<Attempted>)

  /** What can happen next, every hop by itself. The assumptions of the theorem are in `EscrowMay`,
      `ElsewhereMay` and `AfterFailBatch`: no settling call on a job whose batch is in flight, an honest
      token that mints no more than 128 bits hold, and no batch that fails after a part of it went
      through. */
  datatype Step =
    | Escrow(call: Call)
    | Elsewhere(op: Token.Op)
    | TransferCall(ticket: nat, sender: AccountId, deposit: nat, amount: Token.Amount, job: JobId)
    | Deliver(ticket: nat, env: Env, crashed: bool)
    | ResolveDeposit(ticket: nat)
    | RunTransfer(job: JobId, place: nat)
    | FailBatch(job: JobId)
    | BatchCallback(env: Env, job: JobId)
    | RunPayout(ticket: nat)
    | FailPayout(ticket: nat)

  function Self(w: World): AccountId {
    w.escrow.cfg.self
  }

  // ---- what the steps do ----

  function Last(ps: seq<Promise>): Option<Promise> {
    if ps == [] then None else Some(ps[|ps| - 1])
  }

  /** The promise a call may end with. */
  function NewPromise(s: State, u: State): Option<Promise> {
    if |u.outbox| > |s.outbox| then Last(u.outbox) else None
  }

  /** The token reports its own deposits and transfers only. */
  predicate Honest(w: World, call: Call) {
    && (call.op.FtOnTransfer? ==> call.env.predecessor != w.id)
    && (call.op.SettleCallback? && call.op.job in w.escrow.escrows ==>
          w.escrow.escrows[call.op.job].terms.token != w.id)
  }

  predicate EscrowMay(w: World, call: Call) {
    Honest(w, call) && (SettlingOp(call.op) ==> JobOf(call.op).value !in w.flights)
  }

  /** A clean-up leaves the batches of removed jobs to themselves. */
  function Orphaned(flights: map<JobId, Flight>, gone: set<JobId>): map<JobId, Flight> {
    map j | j in flights :: if j in gone then flights[j].(orphan := true) else flights[j]
  }

  function Noted(w: World, u: State): World {
    var p := NewPromise(w.escrow, u);
    if p.None? then w.(escrow := u)
    else
      match p.value
      case Batch(j, token, transfers) =>
        if token != w.id then w.(escrow := u)
        else if j in w.flights then
          w.(escrow := u, extras := w.extras[|u.outbox| := Extra(j, transfers, transfers, false)])
        else w.(escrow := u, flights := w.flights[j := Flight(transfers, transfers, false, false)])
      case Ft(token, transfer) =>
        if token != w.id then w.(escrow := u) else w.(escrow := u, payouts := w.payouts[|u.outbox| := transfer])
      case _ => w.(escrow := u)
  }

  /** A call on the escrow; what it sends to the honest token is noted. */
  function AfterEscrow(w: World, call: Call): World {
    var r := Attempt(w.escrow, call.env, call.op);
    if r.None? then w
    else if call.op.CleanupCompleted? then w.(escrow := r.value, flights := Orphaned(w.flights, call.op.gone))
    else Noted(w, r.value)
  }

  /** The token is used by others: minting, registering, pausing, transfers not by the escrow, and
      refunds of transfer-calls that went elsewhere. */
  ghost predicate ElsewhereMay(w: World, op: Token.Op) {
    match op
    case Mint(_, _, amount) => MapSum(w.token.accounts) + amount <= U128_MAX
    case Transfer(from, _, _, _) => from != Self(w)
    case Resolve(_, receiver, _, _) => receiver != Self(w)
    case _ => true
  }

  function AfterTransferCall(w: World, ticket: nat, sender: AccountId, deposit: nat, amount: Token.Amount,
      j: JobId): World
  {
    var moved := Token.AfterTransfer(w.token, sender, Self(w), deposit, amount);
    if ticket in w.deposits || sender == Self(w) || moved.None? then w
    else w.(token := moved.value, deposits := w.deposits[ticket := Deposit(sender, amount, j, None)])
  }

  /** The token calls `ft_on_transfer` on the escrow; should that crash, it counts as failed. */
  function AfterDeliver(w: World, ticket: nat, env: Env, crashed: bool): World {
    if ticket !in w.deposits || w.deposits[ticket].answer.Some? || env.predecessor != w.id then w
    else
      var d := w.deposits[ticket];
      var (u, unused) := AfterFtOnTransfer(w.escrow, env, d.sender, d.amount, d.job);
      if crashed then w.(deposits := w.deposits[ticket := d.(answer := Some(Token.Failed))])
      else w.(escrow := u, deposits := w.deposits[ticket := d.(answer := Some(Token.Returned(unused)))])
  }

  function AfterResolveDeposit(w: World, ticket: nat): World {
    if ticket !in w.deposits || w.deposits[ticket].answer.None? then w
    else
      var d := w.deposits[ticket];
      var r := Token.AfterResolve(w.token, d.sender, Self(w), d.amount, d.answer.value);
      var t := if r.Some? then r.value else w.token;
      var cost := d.amount + w.token.BalanceOf(d.sender) - t.BalanceOf(d.sender);
      w.(token := t, deposits := w.deposits - {ticket},
         attempts := w.attempts + [Attempted(d, Token.UnusedOf(d.answer.value, d.amount) == 0, cost)])
  }

  function Without<T>(s: seq<T>, p: nat): seq<T>
    requires p < |s|
  {
    s[..p] + s[p + 1..]
  }

  /** The escrow's own transfer, on its way to the token. */
  function Sent(w: World, p: Transfer): Option<Token.State> {
    if p.amount > U128_MAX then None else Token.AfterTransfer(w.token, Self(w), p.receiver, 1, p.amount)
  }

  /** One of a batch's transfers is made. */
  function AfterRunTransfer(w: World, j: JobId, place: nat): World {
    if j !in w.flights || w.flights[j].failed || place >= |w.flights[j].left| then w
    else
      var f := w.flights[j];
      var t := Sent(w, f.left[place]);
      if t.None? then w else w.(token := t.value, flights := w.flights[j := f.(left := Without(f.left, place))])
  }

  function AfterFailBatch(w: World, j: JobId): World {
    if j !in w.flights || w.flights[j].failed || w.flights[j].left != w.flights[j].transfers then w
    else w.(flights := w.flights[j := w.flights[j].(failed := true)])
  }

  /** The callback sees one result per transfer of the batch. */
  function AfterBatchCallback(w: World, env: Env, j: JobId): World {
    if j !in w.flights || !(w.flights[j].failed || w.flights[j].left == []) then w
    else
      var results := seq(|w.flights[j].transfers|, _ => !w.flights[j].failed);
      w.(escrow := Apply(w.escrow, Call(env, SettleCallback(j, results))), flights := w.flights - {j})
  }

  function AfterRunPayout(w: World, ticket: nat): World {
    if ticket !in w.payouts then w
    else
      var t := Sent(w, w.payouts[ticket]);
      if t.None? then w else w.(token := t.value, payouts := w.payouts - {ticket})
  }

  ghost function Next(w: World, step: Step): World {
    match step
    case Escrow(call) => if EscrowMay(w, call) then AfterEscrow(w, call) else w
    case Elsewhere(op) => if ElsewhereMay(w, op) then w.(token := Token.Apply(w.token, op)) else w
    case TransferCall(ticket, sender, deposit, amount, j) => AfterTransferCall(w, ticket, sender, deposit, amount, j)
    case Deliver(ticket, env, crashed) => AfterDeliver(w, ticket, env, crashed)
    case ResolveDeposit(ticket) => AfterResolveDeposit(w, ticket)
    case RunTransfer(j, place) => AfterRunTransfer(w, j, place)
    case FailBatch(j) => AfterFailBatch(w, j)
    case BatchCallback(env, j) => AfterBatchCallback(w, env, j)
    case RunPayout(ticket) => AfterRunPayout(w, ticket)
    case FailPayout(ticket) => w.(payouts := w.payouts - {ticket})
  }

  ghost function RunWorld(w: World, steps: seq<Step>): World {
    if steps == [] then w else Next(RunWorld(w, steps[..|steps| - 1]), steps[|steps| - 1])
  }

  // ---- what the escrow owes ----

  function SumOf(transfers: seq<Transfer>): nat {
    if transfers == [] then 0 else SumOf(transfers[..|transfers| - 1]) + transfers[|transfers| - 1].amount
  }

  /** What a batch has already paid out of a job whose callback is still to come. */
  function PaidOut(flights: map<JobId, Flight>, j: JobId): nat {
    if j in flights && !flights[j].orphan then SatSub(SumOf(flights[j].transfers), SumOf(flights[j].left)) else 0
  }

  /** What is still on its way for a job that was removed. */
  function Stray(flights: map<JobId, Flight>, j: JobId): nat {
    if j in flights && flights[j].orphan && !flights[j].failed then SumOf(flights[j].left) else 0
  }

  /** What is due on a job id: the amount of a funded unsettled job, less what its batch has paid, and
      the rest of a batch whose job was removed. */
  function ClaimOn(escrows: map<JobId, Escrow>, flights: map<JobId, Flight>, token: AccountId, j: JobId): nat {
    (if j in escrows then SatSub(Owed(escrows[j], token), PaidOut(flights, j)) else 0) + Stray(flights, j)
  }

  function Claims(escrows: map<JobId, Escrow>, flights: map<JobId, Flight>, token: AccountId): map<JobId, nat> {
    map j | j in escrows.Keys + flights.Keys :: ClaimOn(escrows, flights, token, j)
  }

  function PayoutAmounts(payouts: map<nat, Transfer>): map<nat, nat> {
    map k | k in payouts :: payouts[k].amount
  }

  function BackOf(d: Deposit): nat {
    if d.answer.None? then d.amount else Token.DueBack(d.answer.value, d.amount)
  }

  function DepositAmounts(deposits: map<nat, Deposit>): map<nat, nat> {
    map k | k in deposits :: BackOf(deposits[k])
  }

  /** Jobs, worker balances, withdrawals on their way, and deposits not yet taken. */
  ghost function Liabilities(w: World): nat {
    MapSum(Claims(w.escrow.escrows, w.flights, w.id)) + WalletSum(w.escrow.balances, w.id)
    + MapSum(PayoutAmounts(w.payouts)) + MapSum(DepositAmounts(w.deposits))
  }

  predicate Positive(transfers: seq<Transfer>) {
    forall i :: 0 <= i < |transfers| ==> transfers[i].amount > 0
  }

  predicate BatchOk(f: Flight) {
    && f.transfers != [] && Positive(f.transfers) && Positive(f.left)
    && SumOf(f.left) <= SumOf(f.transfers) && (f.failed ==> f.left == f.transfers)
  }

  /** A job's batch hands out, together with the deferred payout, exactly the job's amount. */
  predicate PaysAll(e: Escrow, transfers: seq<Transfer>, token: AccountId) {
    && e.terms.token == token && e.target.Some? && Funded(e)
    && SumOf(transfers) + GetOr(e.pendingPayout, 0) == e.terms.amount
  }

  /** A batch in flight belongs to its job; or the job was removed, and a new one by that id has not
      been settled. */
  predicate FlightOk(escrows: map<JobId, Escrow>, f: Flight, token: AccountId, j: JobId) {
    && BatchOk(f)
    && if f.orphan then j in escrows ==> escrows[j].target.None?
       else j in escrows && PaysAll(escrows[j], f.transfers, token)
  }

  predicate DepositOk(w: World, d: Deposit) {
    && d.amount > 0 && d.sender != Self(w) && d.sender in w.token.accounts && Self(w) in w.token.accounts
    && (d.answer.Some? ==> d.answer.value == Token.Failed || d.answer.value == Token.Returned(0)
                           || d.answer.value == Token.Returned(d.amount))
  }

  predicate FlightsOk(w: World) {
    forall j :: j in w.flights ==> FlightOk(w.escrow.escrows, w.flights[j], w.id, j)
  }

  predicate DepositsOk(w: World) {
    forall k :: k in w.deposits ==> DepositOk(w, w.deposits[k])
  }

  predicate PayoutsOk(w: World) {
    forall k :: k in w.payouts ==> k <= |w.escrow.outbox|
  }

  /** An accepted attempt costs its sender the amount, a rejected one nothing. */
  predicate AttemptsOk(w: World) {
    forall i :: 0 <= i < |w.attempts| ==>
      w.attempts[i].netDebit == if w.attempts[i].accepted then w.attempts[i].deposit.amount else 0
  }

  ghost predicate EscrowOk(s: State) {
    JobsInv(s) && KeysOk(s)
  }

  ghost predicate Solvent(w: World) {
    MapSum(w.token.accounts) <= U128_MAX && w.token.BalanceOf(Self(w)) >= Liabilities(w)
  }

  ghost predicate WorldInv(w: World) {
    && w.id != NEAR_TOKEN_ID && EscrowOk(w.escrow)
    && FlightsOk(w) && DepositsOk(w) && PayoutsOk(w) && AttemptsOk(w) && Solvent(w)
  }
}

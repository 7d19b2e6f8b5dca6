/** What the escrow holds beyond what it owes, followed through every step, with or without the two
    assumptions of the solvency theorem: each step changes it by an amount that can be read off before the
    step, and the escrow is solvent exactly as long as these amounts do not add up below zero. */
module Surplus {
  import opened Basics
  import opened EscrowState
  import opened EscrowSpec
  import opened EscrowRuns
  import opened EscrowTraffic
  import opened EscrowInside
  import opened World
  import opened Solvency
  import opened Overdraft
  import Token

  ghost function Slack(w: World): int {
    w.token.BalanceOf(Self(w)) - Liabilities(w)
  }

  // ---- how much each step changes it ----

  /** What is due on a job beyond what its batch has paid. */
  function Due(w: World, j: JobId): nat {
    if j in w.escrow.escrows then SatSub(Owed(w.escrow.escrows[j], w.id), PaidOut(w.flights, j)) else 0
  }

  /** A transfer to the escrow itself costs it nothing. */
  function Cost(w: World, p: Transfer): nat {
    if p.receiver == Self(w) then 0 else p.amount
  }

  /** A job credited at once: what was due on it is settled, and the wallet holds the amount. */
  function CreditChange(w: World, j: JobId): int
    requires j in w.escrow.escrows && w.escrow.escrows[j].workerPubkey.Some?
  {
    var e := w.escrow.escrows[j];
    Due(w, j) - if e.terms.token == w.id
                then CreditGain(w.escrow.balances, e.workerPubkey.value, w.id, e.terms.amount) else 0
  }

  /** The dues of removed jobs are forgotten, and the rest of their batches is still to be paid. */
  function Forgotten(w: World, gone: set<JobId>): map<JobId, nat> {
    map j | j in gone :: Due(w, j)
  }

  function StillComing(w: World, gone: set<JobId>): map<JobId, nat> {
    map j | j in gone ::
      if j in w.flights && !w.flights[j].orphan && !w.flights[j].failed then SumOf(w.flights[j].left) else 0
  }

  ghost function CallChange(w: World, call: Call): int {
    var op := call.op;
    if Attempt(w.escrow, call.env, op).None? then 0
    else if op.CleanupCompleted? then MapSum(Forgotten(w, op.gone)) - MapSum(StillComing(w, op.gone))
    else if SettlingOp(op) && JobOf(op).value in w.escrow.escrows && PaysNow(op, w.escrow.escrows[JobOf(op).value])
    then CreditChange(w, JobOf(op).value)
    else 0
  }

  /** What others give the escrow outside funding. */
  function Gift(t: Token.State, op: Token.Op, self: AccountId): nat {
    match op
    case Mint(signer, account, amount) => if signer == t.owner && account == self then amount else 0
    case Transfer(from, to, deposit, amount) =>
      if Token.CanTransfer(t, from, to, deposit, amount) && to == self then amount else 0
    case Resolve(sender, receiver, amount, answer) =>
      var due := Token.DueBack(answer, amount);
      if sender == self && sender in t.accounts && receiver in t.accounts && t.accounts[receiver] >= due then due else 0
    case _ => 0
  }

  /** A refund the escrow cannot pay is dropped. */
  function RefundChange(w: World, ticket: nat): int {
    if ticket !in w.deposits || w.deposits[ticket].answer.None? then 0
    else
      var due := BackOf(w.deposits[ticket]);
      if w.token.BalanceOf(Self(w)) < due then due else 0
  }

  /** One of a batch's transfers: it is covered as far as its job is still due anything. */
  function TransferChange(w: World, j: JobId, place: nat): int {
    if j !in w.flights || w.flights[j].failed || place >= |w.flights[j].left| then 0
    else
      var p := w.flights[j].left[place];
      if Sent(w, p).None? then 0
      else
        var covered := if w.flights[j].orphan || p.amount <= Due(w, j) then p.amount else Due(w, j);
        covered - Cost(w, p)
  }

  /** A batch of a removed job that fails need not be paid any more. */
  function FailureChange(w: World, j: JobId): int {
    if j in w.flights then Stray(w.flights, j) else 0
  }

  /** A batch reports: what its job was still due is settled by the deferred payout, if all went well; and
      due again as a whole, if not. */
  function CallbackChange(w: World, j: JobId): int {
    if j !in w.flights || !(w.flights[j].failed || w.flights[j].left == []) then 0
    else if w.flights[j].failed || j !in w.escrow.escrows || w.escrow.escrows[j].target.None?
    then ClaimFor(w, j) - OwedFor(w.escrow, j, w.id)
    else ClaimFor(w, j) - PendingGain(w.escrow.balances, w.escrow.escrows[j], w.id)
  }

  function PayoutChange(w: World, ticket: nat): int {
    if ticket !in w.payouts || Sent(w, w.payouts[ticket]).None? then 0
    else w.payouts[ticket].amount - Cost(w, w.payouts[ticket])
  }

  ghost function KeptChange(w: World, step: Step): int {
    match step
    case Escrow(call) => if EscrowMay(w, call) then CallChange(w, call) else 0
    case Elsewhere(op) => if ElsewhereMay(w, op) then Gift(w.token, op, Self(w)) else 0
    case ResolveDeposit(ticket) => RefundChange(w, ticket)
    case RunTransfer(j, place) => TransferChange(w, j, place)
    case FailBatch(j) => if AfterFailBatch(w, j) == w then 0 else FailureChange(w, j)
    case BatchCallback(_, j) => CallbackChange(w, j)
    case RunPayout(ticket) => PayoutChange(w, ticket)
    case FailPayout(ticket) => if ticket in w.payouts then w.payouts[ticket].amount else 0
    case _ => 0
  }

  /** A transfer of a second batch: nobody is owed it. */
  function ExtraChange(w: World, ticket: nat, place: nat): int {
    if ticket !in w.extras || w.extras[ticket].failed || place >= |w.extras[ticket].left| then 0
    else
      var p := w.extras[ticket].left[place];
      if Sent(w, p).None? then 0 else 0 - Cost(w, p)
  }

  /** Its callback settles the job, if all its transfers went through. */
  function ExtraReportChange(w: World, ticket: nat): int {
    if ticket !in w.extras || w.extras[ticket].failed || w.extras[ticket].left != [] then 0
    else
      var j := w.extras[ticket].job;
      if j !in w.escrow.escrows || w.escrow.escrows[j].target.None? then 0
      else Due(w, j) - PendingGain(w.escrow.balances, w.escrow.escrows[j], w.id)
  }

  ghost function Change(w: World, step: FreeStep): int {
    match step
    case Kept(step) => KeptChange(w, step)
    case AnyCall(call) => if Honest(w, call) then CallChange(w, call) else 0
    case FailPartly(j) => FailureChange(w, j)
    case RunExtra(ticket, place) => ExtraChange(w, ticket, place)
    case FailExtra(_) => 0
    case ExtraCallback(_, ticket) => ExtraReportChange(w, ticket)
  }

  // ---- what every step keeps ----

  predicate FreeFlightOk(escrows: map<JobId, Escrow>, f: Flight, j: JobId) {
    && f.transfers != [] && SumOf(f.left) <= SumOf(f.transfers)
    && (!f.orphan ==> j in escrows && escrows[j].status != PendingFunding)
  }

  predicate FreeFlights(w: World) {
    forall j :: j in w.flights ==> FreeFlightOk(w.escrow.escrows, w.flights[j], j)
  }

  predicate ExtrasOk(extras: map<nat, Extra>) {
    forall k :: k in extras ==> extras[k].transfers != []
  }

  ghost predicate FreeInv(w: World) {
    && w.id != NEAR_TOKEN_ID && EscrowOk(w.escrow) && MapSum(w.token.accounts) <= U128_MAX
    && FreeFlights(w) && ExtrasOk(w.extras) && DepositsOk(w) && PayoutsOk(w)
  }

  lemma SurplusMoves(w: World, w': World, j: JobId)
    requires OnlyAt(w, w', j) && Self(w') == Self(w)
    ensures Slack(w') - Slack(w) == w'.token.BalanceOf(Self(w)) - w.token.BalanceOf(Self(w))
      - (ClaimFor(w', j) - ClaimFor(w, j)) - (OtherLiabilities(w') - OtherLiabilities(w))
  {
    ClaimsMove(w, w', j);
  }

  lemma FreeFlightsCarry(w: World, w': World, j: JobId)
    requires FreeFlights(w) && OnlyAt(w, w', j)
    requires j in w'.flights ==> FreeFlightOk(w'.escrow.escrows, w'.flights[j], j)
    ensures FreeFlights(w')
  {
    forall k | k in w'.flights && k != j
      ensures FreeFlightOk(w'.escrow.escrows, w'.flights[k], k)
    {
      assert FreeFlightOk(w.escrow.escrows, w.flights[k], k);
    }
  }

  /** Only the escrow and the flight of one job changed. */
  lemma FreeAssembled(w: World, w': World, j: JobId)
    requires FreeInv(w) && OnlyAt(w, w', j) && Self(w') == Self(w)
    requires w'.deposits == w.deposits && w'.payouts == w.payouts && w'.extras == w.extras && EscrowOk(w'.escrow)
    requires |w.escrow.outbox| <= |w'.escrow.outbox|
    requires MapSum(w'.token.accounts) <= U128_MAX && w.token.accounts.Keys <= w'.token.accounts.Keys
    requires j in w'.flights ==> FreeFlightOk(w'.escrow.escrows, w'.flights[j], j)
    ensures FreeInv(w')
    ensures Slack(w') - Slack(w) == w'.token.BalanceOf(Self(w)) - w.token.BalanceOf(Self(w))
      - (ClaimFor(w', j) - ClaimFor(w, j))
      - (WalletSum(w'.escrow.balances, w.id) - WalletSum(w.escrow.balances, w.id))
  {
    SurplusMoves(w, w', j);
    FreeFlightsCarry(w, w', j);
    DepositsCarry(w, w');
  }

  // ---- calls on the escrow ----

  /** What every successful call on job `j` brings along. */
  ghost predicate FreeCalled(w: World, u: State, j: JobId) {
    && EscrowOk(u) && OthersSame(w.escrow, u, j) && |w.escrow.outbox| <= |u.outbox| && u.cfg.self == Self(w)
    && (j in w.escrow.escrows && w.escrow.escrows[j].status != PendingFunding ==> u.escrows[j].status != PendingFunding)
  }

  lemma CallIsFree(w: World, call: Call)
    requires EscrowOk(w.escrow) && JobOf(call.op).Some? && Attempt(w.escrow, call.env, call.op).Some?
    requires call.op.FtOnTransfer? ==> call.op.job in w.escrow.escrows
    requires |w.escrow.outbox| <= |Attempt(w.escrow, call.env, call.op).value.outbox|
    ensures FreeCalled(w, Attempt(w.escrow, call.env, call.op).value, JobOf(call.op).value)
  {
    EscrowStaysOk(w.escrow, call);
    CallTouches(w.escrow, call.env, call.op);
  }

  /** The call changes nothing but the escrow. */
  lemma FreeCall(w: World, u: State, j: JobId)
    requires FreeInv(w) && FreeCalled(w, u, j)
    ensures FreeInv(w.(escrow := u))
    ensures Slack(w.(escrow := u)) - Slack(w) == ClaimFor(w, j) - ClaimOn(u.escrows, w.flights, w.id, j)
      - (WalletSum(u.balances, w.id) - WalletSum(w.escrow.balances, w.id))
  {
    var w' := w.(escrow := u);
    assert j in w.flights ==> FreeFlightOk(w.escrow.escrows, w.flights[j], j);
    FreeAssembled(w, w', j);
  }

  /** It launches a batch, which is noted. */
  lemma FreeLaunch(w: World, u: State, j: JobId, plan: seq<Transfer>)
    requires FreeInv(w) && FreeCalled(w, u, j) && j !in w.flights && plan != []
    requires u.escrows[j].status != PendingFunding && OwedFor(u, j, w.id) == OwedFor(w.escrow, j, w.id)
    requires u.balances == w.escrow.balances
    ensures var w' := w.(escrow := u, flights := w.flights[j := Flight(plan, plan, false, false)]);
      FreeInv(w') && Slack(w') == Slack(w)
  {
    LaunchedClaim(w, u, j, plan);
    FreeAssembled(w, w.(escrow := u, flights := w.flights[j := Flight(plan, plan, false, false)]), j);
  }

  lemma SameOwedSameClaim(w: World, u: State, j: JobId)
    requires OwedFor(u, j, w.id) == OwedFor(w.escrow, j, w.id)
    ensures ClaimOn(u.escrows, w.flights, w.id, j) == ClaimFor(w, j)
  {
  }

  /** Extras are promises nobody has a claim on. */
  lemma ExtrasDoNotMatter(w: World, extras: map<nat, Extra>)
    requires FreeInv(w) && ExtrasOk(extras)
    ensures Slack(w.(extras := extras)) == Slack(w) && FreeInv(w.(extras := extras))
  {
    assert ClaimsOf(w.(extras := extras)) == ClaimsOf(w);
    DepositsCarry(w, w.(extras := extras));
  }

  lemma LaunchedBatch(s: State, u: State, j: JobId)
    requires Launches(s, u, j) && JobInv(u.escrows[j], u.LedgerOf(j))
    ensures NewPromise(s, u).Some? && NewPromise(s, u).value.Batch? && NewPromise(s, u).value.job == j
    ensures NewPromise(s, u).value.transfers != [] && u.escrows[j].status != PendingFunding
    ensures |s.outbox| <= |u.outbox|
  {
    LaunchedPaysAll(s, u, j);
  }

  lemma LaunchingCall(w: World, u: State, j: JobId)
    requires FreeInv(w) && FreeCalled(w, u, j) && SameBond(w.escrow, u, j) && Launches(w.escrow, u, j)
    requires FreeInv(w.(escrow := u)) && Slack(w.(escrow := u)) == Slack(w)
    ensures FreeInv(Noted(w, u)) && Slack(Noted(w, u)) == Slack(w)
  {
    assert JobOk(u, j);
    LaunchedBatch(w.escrow, u, j);
    var p := NewPromise(w.escrow, u).value;
    BatchNoted(w, u, j, p.token, p.transfers);
    if p.token == w.id {
      if j in w.flights {
        ExtrasDoNotMatter(w.(escrow := u), w.extras[|u.outbox| := Extra(j, p.transfers, p.transfers, false)]);
      } else {
        FreeLaunch(w, u, j, p.transfers);
      }
    }
  }

  lemma BatchNoted(w: World, u: State, j: JobId, token: AccountId, plan: seq<Transfer>)
    requires NewPromise(w.escrow, u) == Some(Batch(j, token, plan))
    ensures Noted(w, u)
      == if token != w.id then w.(escrow := u)
         else if j in w.flights then w.(escrow := u, extras := w.extras[|u.outbox| := Extra(j, plan, plan, false)])
         else w.(escrow := u, flights := w.flights[j := Flight(plan, plan, false, false)])
  {
  }

  /** A settling call that moves no money. */
  lemma PostponedCall(w: World, u: State, j: JobId)
    requires FreeInv(w) && FreeCalled(w, u, j) && Postponed(w.escrow, u, j)
    ensures FreeInv(Noted(w, u)) && Slack(Noted(w, u)) == Slack(w)
  {
    SameOwedSameClaim(w, u, j);
    FreeCall(w, u, j);
    if Quiet(w.escrow, u, j) {
      CalmIsNotNoted(w, u);
    } else {
      LaunchingCall(w, u, j);
    }
  }

  lemma CreditedCall(w: World, u: State, j: JobId)
    requires FreeInv(w) && FreeCalled(w, u, j) && Credited(w.escrow, u, j, w.id)
    ensures FreeInv(Noted(w, u)) && Slack(Noted(w, u)) == Slack(w) + CreditChange(w, j)
  {
    CalmIsNotNoted(w, u);
    FreeCall(w, u, j);
    assert ClaimFor(w, j) - ClaimOn(u.escrows, w.flights, w.id, j) == Due(w, j);
  }

  lemma UnchangedCall(w: World, u: State, j: JobId)
    requires FreeInv(w) && FreeCalled(w, u, j) && Still(w.escrow, u, j, w.id)
    ensures FreeInv(Noted(w, u)) && Slack(Noted(w, u)) == Slack(w)
  {
    CalmIsNotNoted(w, u);
    SameOwedSameClaim(w, u, j);
    FreeCall(w, u, j);
  }

  lemma OutcomeLaunchesMore(s: State, u: State, j: JobId, now: bool, token: AccountId)
    requires Outcome(s, u, j, now, token)
    ensures |s.outbox| <= |u.outbox|
  {
  }

  lemma FreeSettlingCall(w: World, call: Call)
    requires FreeInv(w) && SettlingOp(call.op) && Attempt(w.escrow, call.env, call.op).Some?
    ensures FreeInv(AfterEscrow(w, call)) && Slack(AfterEscrow(w, call)) == Slack(w) + CallChange(w, call)
  {
    var s, u, j := w.escrow, Attempt(w.escrow, call.env, call.op).value, JobOf(call.op).value;
    SettlingOutcome(s, call.env, call.op, w.id);
    OutcomeLaunchesMore(s, u, j, PaysNow(call.op, s.escrows[j]), w.id);
    CallIsFree(w, call);
    NotedIsAfter(w, call);
    if PaysNow(call.op, s.escrows[j]) {
      CreditedCall(w, u, j);
    } else {
      PostponedCall(w, u, j);
    }
  }

  /** The honest token reports no batch of its own by a call. */
  lemma HonestIsStillFree(w: World, call: Call)
    requires Honest(w, call) && JobOf(call.op).Some? && !SettlingOp(call.op)
    requires Attempt(w.escrow, call.env, call.op).Some?
    ensures StillOp(w.escrow, call.env, call.op, w.id)
  {
  }

  lemma FreeOtherCall(w: World, call: Call)
    requires FreeInv(w) && Honest(w, call) && JobOf(call.op).Some? && !SettlingOp(call.op)
    requires Attempt(w.escrow, call.env, call.op).Some? && (call.op.FtOnTransfer? ==> call.op.job in w.escrow.escrows)
    ensures FreeInv(AfterEscrow(w, call)) && Slack(AfterEscrow(w, call)) == Slack(w)
  {
    var s, u, j := w.escrow, Attempt(w.escrow, call.env, call.op).value, JobOf(call.op).value;
    HonestIsStillFree(w, call);
    StillTraffic(s, call.env, call.op, w.id);
    CallIsFree(w, call);
    NotedIsAfter(w, call);
    UnchangedCall(w, u, j);
  }

  /** No job was touched. */
  lemma FreeIdle(w: World, u: State)
    requires FreeInv(w) && EscrowOk(u) && u.escrows == w.escrow.escrows && u.cfg.self == Self(w)
    requires |w.escrow.outbox| <= |u.outbox|
    ensures FreeInv(w.(escrow := u))
    ensures Slack(w.(escrow := u)) - Slack(w)
      == WalletSum(w.escrow.balances, w.id) - WalletSum(u.balances, w.id)
  {
    var w' := w.(escrow := u);
    assert ClaimsOf(w') == ClaimsOf(w);
    assert forall j :: j in w.flights ==> FreeFlightOk(w.escrow.escrows, w.flights[j], j);
    DepositsCarry(w, w');
  }

  /** A withdrawal under way is owed as the wallet was. */
  lemma FreePayout(w: World, ticket: nat, p: Transfer)
    requires FreeInv(w) && ticket !in w.payouts && ticket <= |w.escrow.outbox|
    ensures FreeInv(w.(payouts := w.payouts[ticket := p]))
    ensures Slack(w.(payouts := w.payouts[ticket := p])) == Slack(w) - p.amount
  {
    var w' := w.(payouts := w.payouts[ticket := p]);
    PayoutWrite(w.payouts, ticket, p);
    assert ClaimsOf(w') == ClaimsOf(w);
    DepositsCarry(w, w');
  }

  lemma FreeWithdrawn(w: World, u: State, to: AccountId, tok: string, amount: nat)
    requires FreeInv(w) && EscrowOk(u) && u.escrows == w.escrow.escrows && u.cfg.self == Self(w)
    requires u.outbox
      == w.escrow.outbox + [if tok == NEAR_TOKEN_ID then Near(to, amount, Wallet) else Ft(tok, Transfer(to, amount))]
    requires WalletSum(u.balances, w.id) + (if tok == w.id then amount else 0) == WalletSum(w.escrow.balances, w.id)
    ensures FreeInv(Noted(w, u)) && Slack(Noted(w, u)) == Slack(w)
  {
    PayoutIsNoted(w, u, if tok == NEAR_TOKEN_ID then Near(to, amount, Wallet) else Ft(tok, Transfer(to, amount)));
    FreeIdle(w, u);
    if tok == w.id {
      FreePayout(w.(escrow := u), |u.outbox|, Transfer(to, amount));
    }
  }

  lemma FreeWalletCall(w: World, call: Call)
    requires FreeInv(w) && JobOf(call.op).None? && !call.op.CleanupCompleted?
    requires Attempt(w.escrow, call.env, call.op).Some?
    ensures FreeInv(AfterEscrow(w, call)) && Slack(AfterEscrow(w, call)) == Slack(w)
  {
    var s, env, op, u := w.escrow, call.env, call.op, Attempt(w.escrow, call.env, call.op).value;
    EscrowStaysOk(s, call);
    NotedIsAfter(w, call);
    if op.Withdraw? {
      WithdrawTraffic(s, env, op.pk, op.to, op.token, op.amount, op.sig, w.id);
      FreeWithdrawn(w, u, op.to, op.token, op.amount);
    } else {
      WalletTraffic(s, env, op, w.id);
      CalmIsNotNoted(w, u);
      FreeIdle(w, u);
    }
  }

  /** A removed job: its dues are forgotten, the rest of its batch is what is still due. */
  lemma RemovalBalance(w: World, u: State, gone: set<JobId>, j: JobId)
    requires u.escrows == w.escrow.escrows - gone && gone <= w.escrow.escrows.Keys
    ensures var w' := w.(escrow := u, flights := Orphaned(w.flights, gone));
      ValueAt(ClaimsOf(w'), j) + ValueAt(Forgotten(w, gone), j)
        == ValueAt(ClaimsOf(w), j) + ValueAt(StillComing(w, gone), j)
  {
  }

  lemma FreeRemoval(w: World, u: State, gone: set<JobId>)
    requires FreeInv(w) && EscrowOk(u) && u.escrows == w.escrow.escrows - gone && gone <= w.escrow.escrows.Keys
    requires u.outbox == w.escrow.outbox && u.cfg.self == Self(w) && u.balances == w.escrow.balances
    ensures var w' := w.(escrow := u, flights := Orphaned(w.flights, gone));
      && FreeInv(w')
      && Slack(w') == Slack(w) + MapSum(Forgotten(w, gone)) - MapSum(StillComing(w, gone))
  {
    var w' := w.(escrow := u, flights := Orphaned(w.flights, gone));
    forall j
      ensures ValueAt(ClaimsOf(w'), j) + ValueAt(Forgotten(w, gone), j)
        == ValueAt(ClaimsOf(w), j) + ValueAt(StillComing(w, gone), j)
    {
      RemovalBalance(w, u, gone, j);
    }
    MapSumBalance(ClaimsOf(w'), Forgotten(w, gone), ClaimsOf(w), StillComing(w, gone),
                  w.escrow.escrows.Keys + w.flights.Keys);
    forall j | j in w'.flights
      ensures FreeFlightOk(u.escrows, w'.flights[j], j)
    {
      assert FreeFlightOk(w.escrow.escrows, w.flights[j], j);
    }
    DepositsCarry(w, w');
  }

  lemma FreeCleanupCall(w: World, call: Call)
    requires FreeInv(w) && call.op.CleanupCompleted? && Attempt(w.escrow, call.env, call.op).Some?
    ensures FreeInv(AfterEscrow(w, call)) && Slack(AfterEscrow(w, call)) == Slack(w) + CallChange(w, call)
  {
    EscrowStaysOk(w.escrow, call);
    FreeRemoval(w, Attempt(w.escrow, call.env, call.op).value, call.op.gone);
  }

  lemma FreeCallMoves(w: World, call: Call)
    requires FreeInv(w) && Honest(w, call)
    ensures FreeInv(AfterEscrow(w, call)) && Slack(AfterEscrow(w, call)) == Slack(w) + CallChange(w, call)
  {
    if Attempt(w.escrow, call.env, call.op).Some? {
      if call.op.FtOnTransfer? && call.op.job !in w.escrow.escrows {
        UnknownDeposit(w, call);
      } else if SettlingOp(call.op) {
        FreeSettlingCall(w, call);
      } else if JobOf(call.op).Some? {
        FreeOtherCall(w, call);
      } else if call.op.CleanupCompleted? {
        FreeCleanupCall(w, call);
      } else {
        FreeWalletCall(w, call);
      }
    }
  }

  // ---- the token, and the hops between ----

  /** Only the token's accounts moved. */
  lemma FreeToken(w: World, t: Token.State)
    requires FreeInv(w) && w.token.accounts.Keys <= t.accounts.Keys && MapSum(t.accounts) <= U128_MAX
    ensures FreeInv(w.(token := t))
    ensures Slack(w.(token := t)) == Slack(w) + t.BalanceOf(Self(w)) - w.token.BalanceOf(Self(w))
  {
    assert ClaimsOf(w.(token := t)) == ClaimsOf(w);
    DepositsCarry(w, w.(token := t));
  }

  lemma GiftIs(t: Token.State, op: Token.Op, self: AccountId)
    requires MapSum(t.accounts) <= U128_MAX
    requires op.Mint? ==> MapSum(t.accounts) + op.amount <= U128_MAX
    requires (op.Transfer? ==> op.from != self) && (op.Resolve? ==> op.receiver != self)
    ensures Token.Apply(t, op).BalanceOf(self) == t.BalanceOf(self) + Gift(t, op, self)
  {
    match op
    case Mint(signer, account, amount) =>
      MapSumAtLeast(t.accounts, account);
      Token.WrappedIs(t.BalanceOf(account) + amount);
    case Transfer(from, to, deposit, amount) =>
      if Token.CanTransfer(t, from, to, deposit, amount) {
        MovedBalances(t, from, to, amount, self);
      }
    case Resolve(sender, receiver, amount, answer) =>
      if Token.Attempt(t, op).Some? && Token.Attempt(t, op).value != t {
        MovedBalances(t, receiver, sender, Token.DueBack(answer, amount), self);
      }
    case _ =>
  }

  lemma FreeElsewhere(w: World, op: Token.Op)
    requires FreeInv(w) && ElsewhereMay(w, op)
    ensures var w' := w.(token := Token.Apply(w.token, op));
      FreeInv(w') && Slack(w') == Slack(w) + Gift(w.token, op, Self(w))
  {
    OthersOnlyAdd(w.token, op, Self(w));
    GiftIs(w.token, op, Self(w));
    FreeToken(w, Token.Apply(w.token, op));
  }

  /** Deposits changed, and the token with them. */
  lemma FreeDeposits(w: World, w': World)
    requires FreeInv(w) && w' == w.(token := w'.token, deposits := w'.deposits) && DepositsOk(w')
    requires MapSum(w'.token.accounts) <= U128_MAX
    ensures FreeInv(w')
    ensures Slack(w') - Slack(w) == w'.token.BalanceOf(Self(w)) - w.token.BalanceOf(Self(w))
      - (MapSum(DepositAmounts(w'.deposits)) - MapSum(DepositAmounts(w.deposits)))
  {
    assert ClaimsOf(w') == ClaimsOf(w);
    assert forall j :: j in w'.flights ==> FreeFlightOk(w.escrow.escrows, w.flights[j], j);
  }

  lemma FreeTransferCall(w: World, ticket: nat, sender: AccountId, deposit: nat, amount: Token.Amount, j: JobId)
    requires FreeInv(w)
    ensures var w' := AfterTransferCall(w, ticket, sender, deposit, amount, j);
      FreeInv(w') && Slack(w') == Slack(w)
  {
    var w' := AfterTransferCall(w, ticket, sender, deposit, amount, j);
    if w' != w {
      MovedBalances(w.token, sender, Self(w), amount, Self(w));
      DepositWrite(w.deposits, ticket, w'.deposits[ticket]);
      DepositsCarry(w, w'.(deposits := w.deposits));
      FreeDeposits(w, w');
    }
  }

  lemma FreeRefused(w: World, ticket: nat, answer: Token.Answer)
    requires FreeInv(w) && ticket in w.deposits && w.deposits[ticket].answer.None?
    requires answer == Token.Failed || answer == Token.Returned(w.deposits[ticket].amount)
    ensures var w' := w.(deposits := w.deposits[ticket := w.deposits[ticket].(answer := Some(answer))]);
      FreeInv(w') && Slack(w') == Slack(w)
  {
    var w' := w.(deposits := w.deposits[ticket := w.deposits[ticket].(answer := Some(answer))]);
    DepositWrite(w.deposits, ticket, w'.deposits[ticket]);
    assert DepositOk(w, w.deposits[ticket]);
    FreeDeposits(w, w');
  }

  /** The deposit is no longer to be given back. */
  lemma FreeAnswered(w: World, ticket: nat)
    requires FreeInv(w) && ticket in w.deposits && w.deposits[ticket].answer.None?
    ensures var w' := w.(deposits := w.deposits[ticket := w.deposits[ticket].(answer := Some(Token.Returned(0)))]);
      FreeInv(w') && Slack(w') == Slack(w) + w.deposits[ticket].amount
  {
    var w' := w.(deposits := w.deposits[ticket := w.deposits[ticket].(answer := Some(Token.Returned(0)))]);
    AnsweredSum(w.deposits, ticket);
    AnsweredOk(w, w', ticket);
    FreeDeposits(w, w');
  }

  lemma FundedClaim(w: World, u: State, j: JobId)
    requires j in w.escrow.escrows && j in u.escrows && w.escrow.escrows[j].status == PendingFunding
    requires j in w.flights ==> FreeFlightOk(w.escrow.escrows, w.flights[j], j)
    ensures ClaimOn(u.escrows, w.flights, w.id, j) == ClaimFor(w, j) + OwedFor(u, j, w.id)
  {
  }

  /** It is owed for the job instead. */
  lemma FreeFunded(w: World, u: State, j: JobId)
    requires FreeInv(w) && FreeCalled(w, u, j) && u.balances == w.escrow.balances
    requires j in w.escrow.escrows && w.escrow.escrows[j].status == PendingFunding
    ensures FreeInv(w.(escrow := u)) && Slack(w.(escrow := u)) == Slack(w) - OwedFor(u, j, w.id)
  {
    assert j in w.flights ==> FreeFlightOk(w.escrow.escrows, w.flights[j], j);
    FundedClaim(w, u, j);
    FreeCall(w, u, j);
  }

  lemma FundedIsFree(w: World, env: Env, d: Deposit)
    requires FreeInv(w) && Fundable(w.escrow, env.predecessor, d.sender, d.amount, d.job)
    ensures var u := AfterFtOnTransfer(w.escrow, env, d.sender, d.amount, d.job).0;
      && FreeCalled(w, u, d.job) && u.balances == w.escrow.balances && w.escrow.escrows[d.job].status == PendingFunding
      && OwedFor(u, d.job, env.predecessor) == d.amount
      && AfterFtOnTransfer(w.escrow, env, d.sender, d.amount, d.job).1 == 0
  {
    TakenInside(w.escrow, env, d.sender, d.amount, d.job);
    var call := Call(env, FtOnTransfer(d.sender, d.amount, d.job));
    CallIsFree(w, call);
  }

  lemma FreeTaken(w: World, ticket: nat, env: Env)
    requires FreeInv(w) && ticket in w.deposits && w.deposits[ticket].answer.None? && env.predecessor == w.id
    requires var d := w.deposits[ticket]; Fundable(w.escrow, w.id, d.sender, d.amount, d.job)
    ensures var w' := AfterDeliver(w, ticket, env, false); FreeInv(w') && Slack(w') == Slack(w)
  {
    var d := w.deposits[ticket];
    var w1 := w.(deposits := w.deposits[ticket := d.(answer := Some(Token.Returned(0)))]);
    var u := AfterFtOnTransfer(w.escrow, env, d.sender, d.amount, d.job).0;
    FundedIsFree(w, env, d);
    FreeAnswered(w, ticket);
    FreeFunded(w1, u, d.job);
    assert AfterDeliver(w, ticket, env, false) == w1.(escrow := u);
  }

  lemma FreeDeliver(w: World, ticket: nat, env: Env, crashed: bool)
    requires FreeInv(w)
    ensures var w' := AfterDeliver(w, ticket, env, crashed); FreeInv(w') && Slack(w') == Slack(w)
  {
    if AfterDeliver(w, ticket, env, crashed) != w {
      var d := w.deposits[ticket];
      if crashed {
        FreeRefused(w, ticket, Token.Failed);
      } else if Fundable(w.escrow, w.id, d.sender, d.amount, d.job) {
        FreeTaken(w, ticket, env);
      } else {
        FreeRefused(w, ticket, Token.Returned(d.amount));
      }
    }
  }

  /** What a resolved deposit costs the escrow: what is due, or nothing if it does not have it. */
  lemma ResolveCosts(w: World, ticket: nat)
    requires FreeInv(w) && ticket in w.deposits && w.deposits[ticket].answer.Some?
    ensures var t, due := AfterResolveDeposit(w, ticket).token, BackOf(w.deposits[ticket]);
      && t.BalanceOf(Self(w)) == w.token.BalanceOf(Self(w)) - (if w.token.BalanceOf(Self(w)) < due then 0 else due)
      && MapSum(t.accounts) == MapSum(w.token.accounts) && t.accounts.Keys == w.token.accounts.Keys
  {
    var d := w.deposits[ticket];
    var due := Token.DueBack(d.answer.value, d.amount);
    assert DepositOk(w, d);
    if 0 < due <= w.token.BalanceOf(Self(w)) {
      MovedBalances(w.token, Self(w), d.sender, due, Self(w));
    }
  }

  lemma FreeResolved(w: World, t: Token.State, ticket: nat, x: Attempted)
    requires FreeInv(w) && ticket in w.deposits
    requires MapSum(t.accounts) == MapSum(w.token.accounts) && t.accounts.Keys == w.token.accounts.Keys
    ensures var w' := w.(token := t, deposits := w.deposits - {ticket}, attempts := w.attempts + [x]);
      && FreeInv(w')
      && Slack(w') == Slack(w) + t.BalanceOf(Self(w)) - w.token.BalanceOf(Self(w)) + BackOf(w.deposits[ticket])
  {
    var w' := w.(token := t, deposits := w.deposits - {ticket});
    DepositsCarry(w.(deposits := w.deposits - {ticket}), w');
    DepositRemove(w.deposits, ticket);
    FreeDeposits(w, w');
    AttemptsDoNotMatter(w', w.attempts + [x]);
  }

  lemma AttemptsDoNotMatter(w: World, attempts: seq<Attempted>)
    requires FreeInv(w)
    ensures FreeInv(w.(attempts := attempts)) && Slack(w.(attempts := attempts)) == Slack(w)
  {
    assert ClaimsOf(w.(attempts := attempts)) == ClaimsOf(w);
    DepositsCarry(w, w.(attempts := attempts));
  }

  lemma FreeResolve(w: World, ticket: nat)
    requires FreeInv(w)
    ensures var w' := AfterResolveDeposit(w, ticket);
      FreeInv(w') && Slack(w') == Slack(w) + RefundChange(w, ticket)
  {
    var w' := AfterResolveDeposit(w, ticket);
    if ticket in w.deposits && w.deposits[ticket].answer.Some? {
      ResolveCosts(w, ticket);
      FreeResolved(w, w'.token, ticket, w'.attempts[|w.attempts|]);
    }
  }

  // ---- batches and withdrawals ----

  /** A transfer by the escrow, by itself. */
  lemma SentCosts(w: World, p: Transfer)
    requires FreeInv(w) && Sent(w, p).Some?
    ensures FreeInv(w.(token := Sent(w, p).value))
    ensures Slack(w.(token := Sent(w, p).value)) == Slack(w) - Cost(w, p)
  {
    SentMoves(w, p);
    FreeToken(w, Sent(w, p).value);
  }

  /** Only the flight of `j` changed. */
  lemma FreeFlight(w: World, flights: map<JobId, Flight>, j: JobId)
    requires FreeInv(w) && (forall k :: k != j ==> (k in flights <==> k in w.flights))
    requires forall k :: k in flights && k != j ==> k in w.flights && flights[k] == w.flights[k]
    requires j in flights ==> FreeFlightOk(w.escrow.escrows, flights[j], j)
    ensures FreeInv(w.(flights := flights))
    ensures Slack(w.(flights := flights)) == Slack(w) + ClaimFor(w, j) - ClaimOn(w.escrow.escrows, flights, w.id, j)
  {
    FreeAssembled(w, w.(flights := flights), j);
  }

  lemma OneLessToMake(w: World, j: JobId, place: nat)
    requires j in w.flights && FreeFlightOk(w.escrow.escrows, w.flights[j], j)
    requires !w.flights[j].failed && place < |w.flights[j].left|
    ensures var f := w.flights[j];
      var f', amount := f.(left := Without(f.left, place)), f.left[place].amount;
      && FreeFlightOk(w.escrow.escrows, f', j)
      && ClaimFor(w, j) - ClaimOn(w.escrow.escrows, w.flights[j := f'], w.id, j)
           == if f.orphan || amount <= Due(w, j) then amount else Due(w, j)
  {
    SumOfWithout(w.flights[j].left, place);
  }

  lemma FreeTransfer(w: World, j: JobId, place: nat)
    requires FreeInv(w)
    ensures var w' := AfterRunTransfer(w, j, place);
      FreeInv(w') && Slack(w') == Slack(w) + TransferChange(w, j, place)
  {
    if j in w.flights && !w.flights[j].failed && place < |w.flights[j].left|
       && Sent(w, w.flights[j].left[place]).Some? {
      FreeTransferMade(w, j, place);
    }
  }

  lemma FreeTransferMade(w: World, j: JobId, place: nat)
    requires FreeInv(w) && j in w.flights && !w.flights[j].failed && place < |w.flights[j].left|
    requires Sent(w, w.flights[j].left[place]).Some?
    ensures var f := w.flights[j];
      var p := f.left[place];
      var w' := w.(token := Sent(w, p).value, flights := w.flights[j := f.(left := Without(f.left, place))]);
      && FreeInv(w')
      && Slack(w') == Slack(w) - Cost(w, p) + if f.orphan || p.amount <= Due(w, j) then p.amount else Due(w, j)
  {
    var f := w.flights[j];
    var f' := f.(left := Without(f.left, place));
    assert FreeFlightOk(w.escrow.escrows, f, j);
    OneLessToMake(w, j, place);
    FreeFlight(w, w.flights[j := f'], j);
    SentCosts(w.(flights := w.flights[j := f']), f.left[place]);
  }

  lemma FreeFailure(w: World, j: JobId)
    requires FreeInv(w)
    ensures var w' := AfterFailPartly(w, j); FreeInv(w') && Slack(w') == Slack(w) + FailureChange(w, j)
    ensures AfterFailBatch(w, j) != w ==> AfterFailBatch(w, j) == AfterFailPartly(w, j)
  {
    if j in w.flights {
      assert FreeFlightOk(w.escrow.escrows, w.flights[j], j);
      FreeFlight(w, w.flights[j := w.flights[j].(failed := true)], j);
    }
  }

  /** The flight is over. */
  lemma FlightGone(w: World, j: JobId)
    requires FreeInv(w)
    ensures FreeInv(w.(flights := w.flights - {j}))
    ensures Slack(w.(flights := w.flights - {j})) == Slack(w) + ClaimFor(w, j) - OwedFor(w.escrow, j, w.id)
    ensures Due(w.(flights := w.flights - {j}), j) == OwedFor(w.escrow, j, w.id)
  {
    FreeFlight(w, w.flights - {j}, j);
  }

  lemma CallbackMoves(s: State, j: JobId, results: seq<bool>, token: AccountId)
    requires AfterSettleCallback(s, j, results).Some? && JobInv(s.escrows[j], s.LedgerOf(j)) && KeyOk(s.escrows[j])
    requires token != NEAR_TOKEN_ID
    ensures var u := AfterSettleCallback(s, j, results).value;
      && |s.outbox| <= |u.outbox|
      && if AllOk(results) then
           && OwedFor(u, j, token) == 0
           && WalletSum(u.balances, token)
                == WalletSum(s.balances, token) + PendingGain(s.balances, s.escrows[j], token)
         else OwedFor(u, j, token) == OwedFor(s, j, token) && u.balances == s.balances
  {
    if AllOk(results) {
      PendingSum(s.balances, s.escrows[j], token);
    }
  }

  lemma ReportedClaim(w: World, u: State, j: JobId)
    requires OwedFor(u, j, w.id) == 0
    ensures ClaimFor(w, j) - ClaimOn(u.escrows, w.flights, w.id, j) == Due(w, j)
  {
  }

  /** The callback itself. */
  lemma FreeReport(w: World, env: Env, j: JobId, results: seq<bool>)
    requires FreeInv(w) && AfterSettleCallback(w.escrow, j, results).Some?
    ensures var w' := w.(escrow := AfterSettleCallback(w.escrow, j, results).value);
      && FreeInv(w')
      && Slack(w') == Slack(w) + if AllOk(results)
           then Due(w, j) - PendingGain(w.escrow.balances, w.escrow.escrows[j], w.id) else 0
  {
    var u := AfterSettleCallback(w.escrow, j, results).value;
    assert JobInv(w.escrow.escrows[j], w.escrow.LedgerOf(j)) && KeyOk(w.escrow.escrows[j]) by {
      assert JobOk(w.escrow, j);
    }
    CallbackMoves(w.escrow, j, results, w.id);
    CallbackIsFree(w, env, j, results);
    FreeCall(w, u, j);
    if AllOk(results) {
      ReportedClaim(w, u, j);
    } else {
      SameOwedSameClaim(w, u, j);
    }
  }

  lemma CallbackIsFree(w: World, env: Env, j: JobId, results: seq<bool>)
    requires EscrowOk(w.escrow) && AfterSettleCallback(w.escrow, j, results).Some?
    requires |w.escrow.outbox| <= |AfterSettleCallback(w.escrow, j, results).value.outbox|
    ensures FreeCalled(w, AfterSettleCallback(w.escrow, j, results).value, j)
  {
    var call := Call(env, SettleCallback(j, results));
    assert Attempt(w.escrow, env, call.op) == AfterSettleCallback(w.escrow, j, results);
    CallIsFree(w, call);
  }

  lemma FreeCallback(w: World, env: Env, j: JobId)
    requires FreeInv(w)
    ensures var w' := AfterBatchCallback(w, env, j);
      FreeInv(w') && Slack(w') == Slack(w) + CallbackChange(w, j)
  {
    if j in w.flights && (w.flights[j].failed || w.flights[j].left == []) {
      var f := w.flights[j];
      var results := seq(|f.transfers|, _ => !f.failed);
      assert FreeFlightOk(w.escrow.escrows, f, j);
      assert results[0] == !f.failed && (AllOk(results) <==> !f.failed);
      FlightGone(w, j);
      CallbackApplies(w.escrow, env, j, results);
      if AfterSettleCallback(w.escrow, j, results).Some? {
        FreeReport(w.(flights := w.flights - {j}), env, j, results);
      }
    }
  }

  lemma PayoutGoneFree(w: World, ticket: nat)
    requires FreeInv(w) && ticket in w.payouts
    ensures FreeInv(w.(payouts := w.payouts - {ticket}))
    ensures Slack(w.(payouts := w.payouts - {ticket})) == Slack(w) + w.payouts[ticket].amount
  {
    var w' := w.(payouts := w.payouts - {ticket});
    PayoutRemove(w.payouts, ticket);
    assert ClaimsOf(w') == ClaimsOf(w);
    DepositsCarry(w, w');
  }

  lemma FreePayoutHop(w: World, ticket: nat)
    requires FreeInv(w)
    ensures var w' := AfterRunPayout(w, ticket); FreeInv(w') && Slack(w') == Slack(w) + PayoutChange(w, ticket)
    ensures var w' := w.(payouts := w.payouts - {ticket});
      FreeInv(w') && Slack(w') == Slack(w) + if ticket in w.payouts then w.payouts[ticket].amount else 0
  {
    if ticket in w.payouts {
      PayoutGoneFree(w, ticket);
      if Sent(w, w.payouts[ticket]).Some? {
        SentCosts(w.(payouts := w.payouts - {ticket}), w.payouts[ticket]);
      }
    } else {
      assert w.payouts - {ticket} == w.payouts;
    }
  }

  lemma FreeExtra(w: World, ticket: nat, place: nat)
    requires FreeInv(w)
    ensures var w' := AfterRunExtra(w, ticket, place);
      FreeInv(w') && Slack(w') == Slack(w) + ExtraChange(w, ticket, place)
  {
    if ticket in w.extras && !w.extras[ticket].failed && place < |w.extras[ticket].left|
       && Sent(w, w.extras[ticket].left[place]).Some? {
      var x := w.extras[ticket];
      SentCosts(w, x.left[place]);
      ExtrasDoNotMatter(w.(token := Sent(w, x.left[place]).value),
                        w.extras[ticket := x.(left := Without(x.left, place))]);
    }
  }

  lemma FreeExtraFailure(w: World, ticket: nat)
    requires FreeInv(w)
    ensures FreeInv(AfterFailExtra(w, ticket)) && Slack(AfterFailExtra(w, ticket)) == Slack(w)
  {
    if ticket in w.extras {
      ExtrasDoNotMatter(w, w.extras[ticket := w.extras[ticket].(failed := true)]);
    }
  }

  lemma FreeExtraReport(w: World, env: Env, ticket: nat)
    requires FreeInv(w)
    ensures var w' := AfterExtraCallback(w, env, ticket);
      FreeInv(w') && Slack(w') == Slack(w) + ExtraReportChange(w, ticket)
  {
    if ticket in w.extras && (w.extras[ticket].failed || w.extras[ticket].left == []) {
      var x := w.extras[ticket];
      var results := seq(|x.transfers|, _ => !x.failed);
      assert results[0] == !x.failed && (AllOk(results) <==> !x.failed);
      ExtrasDoNotMatter(w, w.extras - {ticket});
      CallbackApplies(w.escrow, env, x.job, results);
      if AfterSettleCallback(w.escrow, x.job, results).Some? {
        FreeReport(w.(extras := w.extras - {ticket}), env, x.job, results);
      }
    }
  }

  // ---- every step, every run ----

  lemma KeptCallMoves(w: World, call: Call)
    requires FreeInv(w)
    ensures var step := Step.Escrow(call);
      FreeInv(Next(w, step)) && Slack(Next(w, step)) == Slack(w) + KeptChange(w, step)
  {
    if EscrowMay(w, call) {
      FreeCallMoves(w, call);
    }
  }

  lemma ElsewhereMoves(w: World, op: Token.Op)
    requires FreeInv(w)
    ensures var step := Elsewhere(op); FreeInv(Next(w, step)) && Slack(Next(w, step)) == Slack(w) + KeptChange(w, step)
  {
    if ElsewhereMay(w, op) {
      FreeElsewhere(w, op);
    }
  }

  lemma FundingMoves(w: World, step: Step)
    requires FreeInv(w) && (step.TransferCall? || step.Deliver? || step.ResolveDeposit?)
    ensures FreeInv(Next(w, step)) && Slack(Next(w, step)) == Slack(w) + KeptChange(w, step)
  {
    match step
    case TransferCall(ticket, sender, deposit, amount, j) => FreeTransferCall(w, ticket, sender, deposit, amount, j);
    case Deliver(ticket, env, crashed) => FreeDeliver(w, ticket, env, crashed);
    case ResolveDeposit(ticket) => FreeResolve(w, ticket);
  }

  lemma BatchMoves(w: World, step: Step)
    requires FreeInv(w) && (step.RunTransfer? || step.FailBatch? || step.BatchCallback?)
    ensures FreeInv(Next(w, step)) && Slack(Next(w, step)) == Slack(w) + KeptChange(w, step)
  {
    hide FreeInv, Slack, AfterRunTransfer, AfterFailBatch, AfterBatchCallback;
    match step
    case RunTransfer(j, place) => FreeTransfer(w, j, place);
    case FailBatch(j) => FreeFailure(w, j);
    case BatchCallback(env, j) => FreeCallback(w, env, j);
  }

  lemma PayoutMoves(w: World, step: Step)
    requires FreeInv(w) && (step.RunPayout? || step.FailPayout?)
    ensures FreeInv(Next(w, step)) && Slack(Next(w, step)) == Slack(w) + KeptChange(w, step)
  {
    hide FreeInv, Slack;
    FreePayoutHop(w, step.ticket);
  }

  lemma KeptMoves(w: World, step: Step)
    requires FreeInv(w)
    ensures FreeInv(Next(w, step)) && Slack(Next(w, step)) == Slack(w) + KeptChange(w, step)
  {
    match step
    case Escrow(call) => KeptCallMoves(w, call);
    case Elsewhere(op) => ElsewhereMoves(w, op);
    case TransferCall(_, _, _, _, _) => FundingMoves(w, step);
    case Deliver(_, _, _) => FundingMoves(w, step);
    case ResolveDeposit(_) => FundingMoves(w, step);
    case RunPayout(_) => PayoutMoves(w, step);
    case FailPayout(_) => PayoutMoves(w, step);
    case _ => BatchMoves(w, step);
  }

  /** Every step, with or without the assumptions on batches, changes the surplus by exactly `Change`. */
  lemma StepMoves(w: World, step: FreeStep)
    requires FreeInv(w)
    ensures FreeInv(FreeNext(w, step)) && Slack(FreeNext(w, step)) == Slack(w) + Change(w, step)
  {
    match step
    case Kept(step) => KeptMoves(w, step);
    case AnyCall(call) => if Honest(w, call) { FreeCallMoves(w, call); }
    case FailPartly(j) => FreeFailure(w, j);
    case RunExtra(ticket, place) => FreeExtra(w, ticket, place);
    case FailExtra(ticket) => FreeExtraFailure(w, ticket);
    case ExtraCallback(env, ticket) => FreeExtraReport(w, env, ticket);
  }

  ghost function AllChanges(w: World, steps: seq<FreeStep>): int {
    if steps == [] then 0
    else
      var before := steps[..|steps| - 1];
      AllChanges(w, before) + Change(FreeRun(w, before), steps[|steps| - 1])
  }

  lemma {:induction false} RunMoves(w: World, steps: seq<FreeStep>)
    requires FreeInv(w)
    ensures FreeInv(FreeRun(w, steps)) && Slack(FreeRun(w, steps)) == Slack(w) + AllChanges(w, steps)
  {
    if steps != [] {
      var before := steps[..|steps| - 1];
      RunMoves(w, before);
      StepMoves(FreeRun(w, before), steps[|steps| - 1]);
    }
  }

  lemma StartIsFree(w: World, owner: AccountId, allowed: seq<AccountId>)
    requires Start(w, owner, allowed)
    ensures FreeInv(w) && Slack(w) == w.token.BalanceOf(Self(w))
  {
    StartOwesNothing(w, owner, allowed);
  }

  /** The exact condition, over every run and without the assumptions on batches: the escrow is solvent if
      and only if what it began with and all changes together are not negative. */
  lemma SolventExactly(w: World, owner: AccountId, allowed: seq<AccountId>, steps: seq<FreeStep>)
    requires Start(w, owner, allowed)
    ensures var w' := FreeRun(w, steps);
      && Slack(w') == w.token.BalanceOf(Self(w)) + AllChanges(w, steps)
      && (Solvent(w') <==> w.token.BalanceOf(Self(w)) + AllChanges(w, steps) >= 0)
  {
    StartIsFree(w, owner, allowed);
    RunMoves(w, steps);
  }
}

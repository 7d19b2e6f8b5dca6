/** Under the assumptions of the solvency theorem nothing is ever lost: the escrow's balance is what it
    owes and what it was given on top, to the last unit. */
module Conservation {
  import opened Basics
  import opened EscrowState
  import opened EscrowSpec
  import opened EscrowRuns
  import opened EscrowTraffic
  import opened EscrowInside
  import opened World
  import opened Solvency
  import opened Surplus

  /** What comes to the escrow on top: gifts, failed withdrawals, transfers to itself, and what it need not
      pay any more because a job was removed. */
  ghost function Gain(w: World, step: Step): nat {
    match step
    case Escrow(call) =>
      if call.op.CleanupCompleted? && Attempt(w.escrow, call.env, call.op).Some?
      then SatSub(MapSum(Forgotten(w, call.op.gone)), MapSum(StillComing(w, call.op.gone))) else 0
    case Elsewhere(op) => if ElsewhereMay(w, op) then Gift(w.token, op, Self(w)) else 0
    case RunTransfer(j, place) =>
      if AfterRunTransfer(w, j, place) != w && w.flights[j].left[place].receiver == Self(w)
      then w.flights[j].left[place].amount else 0
    case FailBatch(j) => if AfterFailBatch(w, j) == w then 0 else Stray(w.flights, j)
    case RunPayout(ticket) =>
      if AfterRunPayout(w, ticket) != w && w.payouts[ticket].receiver == Self(w) then w.payouts[ticket].amount else 0
    case FailPayout(ticket) => if ticket in w.payouts then w.payouts[ticket].amount else 0
    case _ => 0
  }

  lemma WorldIsFree(w: World)
    requires WorldInv(w) && w.extras == map[]
    ensures FreeInv(w)
  {
    forall j | j in w.flights
      ensures FreeFlightOk(w.escrow.escrows, w.flights[j], j)
    {
      assert FlightOk(w.escrow.escrows, w.flights[j], w.id, j);
      assert JobOk(w.escrow, j);
    }
  }

  // ---- no wallet is ever full ----

  lemma WalletAtLeast(balances: map<string, nat>, pk: Pubkey, token: string)
    requires |pk| == 64
    ensures BalanceOf(balances, pk, token) <= WalletSum(balances, token)
  {
    var key := BalanceKey(pk, token);
    assert key[64..] == ":" + token;
    MapSumAtLeast(TokenBalances(balances, token), key);
    assert key in balances ==> key in TokenBalances(balances, token);
  }

  /** A solvent escrow has room in every wallet for what it owes on a job. */
  lemma RoomToCredit(w: World, j: JobId, pk: Pubkey, amount: nat)
    requires Solvent(w) && |pk| == 64 && amount <= ClaimFor(w, j) && j in ClaimsOf(w)
    ensures CreditGain(w.escrow.balances, pk, w.id, amount) == amount
  {
    WalletAtLeast(w.escrow.balances, pk, w.id);
    MapSumAtLeast(ClaimsOf(w), j);
    MapSumAtLeast(w.token.accounts, Self(w));
  }

  // ---- step by step ----

  /** A job without a batch is due exactly what is credited. */
  lemma GroundedCreditIsEven(w: World, j: JobId)
    requires Solvent(w) && j in w.escrow.escrows && j !in w.flights && Funded(w.escrow.escrows[j])
    requires w.escrow.escrows[j].workerPubkey.Some? && KeyOk(w.escrow.escrows[j])
    ensures CreditChange(w, j) == 0
  {
    if w.escrow.escrows[j].terms.token == w.id {
      RoomToCredit(w, j, w.escrow.escrows[j].workerPubkey.value, w.escrow.escrows[j].terms.amount);
    }
  }

  lemma CreditIsEven(w: World, call: Call)
    requires WorldInv(w) && EscrowMay(w, call) && SettlingOp(call.op) && Attempt(w.escrow, call.env, call.op).Some?
    ensures CallChange(w, call) == 0
  {
    var s, j := w.escrow, JobOf(call.op).value;
    SettlingOutcome(s, call.env, call.op, w.id);
    if PaysNow(call.op, s.escrows[j]) {
      GroundedCreditIsEven(w, j);
    }
  }

  lemma RemovalGains(w: World, gone: set<JobId>)
    requires FlightsOk(w) && gone <= w.escrow.escrows.Keys
    ensures MapSum(StillComing(w, gone)) <= MapSum(Forgotten(w, gone))
  {
    forall j | j in gone
      ensures StillComing(w, gone)[j] <= ValueAt(Forgotten(w, gone), j)
    {
      assert j in w.flights ==> FlightOk(w.escrow.escrows, w.flights[j], w.id, j);
    }
    MapSumBelow(StillComing(w, gone), Forgotten(w, gone));
  }

  lemma CallGains(w: World, call: Call)
    requires WorldInv(w) && EscrowMay(w, call)
    ensures CallChange(w, call) == Gain(w, Step.Escrow(call))
  {
    if Attempt(w.escrow, call.env, call.op).Some? && call.op.CleanupCompleted? {
      CleanupGains(w, call);
    } else if Attempt(w.escrow, call.env, call.op).Some? && SettlingOp(call.op) {
      CreditIsEven(w, call);
      SettlingGainsNothing(w, call);
    } else {
      OtherCallsAreEven(w, call);
    }
  }

  lemma SettlingGainsNothing(w: World, call: Call)
    requires SettlingOp(call.op)
    ensures Gain(w, Step.Escrow(call)) == 0
  {
  }

  lemma CleanupGains(w: World, call: Call)
    requires FlightsOk(w) && call.op.CleanupCompleted? && Attempt(w.escrow, call.env, call.op).Some?
    ensures CallChange(w, call) == Gain(w, Step.Escrow(call))
  {
    RemovalGains(w, call.op.gone);
  }

  lemma OtherCallsAreEven(w: World, call: Call)
    requires Attempt(w.escrow, call.env, call.op).None? || (!call.op.CleanupCompleted? && !SettlingOp(call.op))
    ensures CallChange(w, call) == 0 && Gain(w, Step.Escrow(call)) == 0
  {
  }

  lemma RefundIsEven(w: World, ticket: nat)
    requires Solvent(w)
    ensures RefundChange(w, ticket) == 0
  {
    if ticket in w.deposits {
      DepositRemove(w.deposits, ticket);
    }
  }

  lemma TransferGains(w: World, j: JobId, place: nat)
    requires FlightsOk(w)
    ensures TransferChange(w, j, place) == Gain(w, RunTransfer(j, place))
  {
    if j in w.flights && !w.flights[j].failed && place < |w.flights[j].left|
       && Sent(w, w.flights[j].left[place]).Some? {
      assert FlightOk(w.escrow.escrows, w.flights[j], w.id, j);
      SumOfWithout(w.flights[j].left, place);
      assert |Without(w.flights[j].left, place)| < |w.flights[j].left|;
      assert AfterRunTransfer(w, j, place).flights[j].left != w.flights[j].left;
    }
  }

  lemma CallbackIsEven(w: World, j: JobId)
    requires WorldInv(w)
    ensures CallbackChange(w, j) == 0
  {
    if j in w.flights && (w.flights[j].failed || w.flights[j].left == []) {
      var f := w.flights[j];
      assert FlightOk(w.escrow.escrows, f, w.id, j);
      if !f.failed && !f.orphan {
        CallbackClaim(w, j);
        PendingIsRoomy(w, j);
      }
    }
  }

  lemma PendingIsRoomy(w: World, j: JobId)
    requires WorldInv(w) && j in w.escrow.escrows && w.escrow.escrows[j].terms.token == w.id
    requires GetOr(w.escrow.escrows[j].pendingPayout, 0) == ClaimFor(w, j)
    ensures PendingGain(w.escrow.balances, w.escrow.escrows[j], w.id) == ClaimFor(w, j)
  {
    var e := w.escrow.escrows[j];
    assert JobInv(e, w.escrow.LedgerOf(j)) by {
      assert JobOk(w.escrow, j);
    }
    if e.pendingPayout.Some? {
      RoomToCredit(w, j, e.workerPubkey.value, e.pendingPayout.value);
    }
  }

  lemma PayoutGains(w: World, ticket: nat)
    ensures PayoutChange(w, ticket) == Gain(w, RunPayout(ticket))
  {
    if ticket in w.payouts && Sent(w, w.payouts[ticket]).Some? {
      assert ticket !in AfterRunPayout(w, ticket).payouts;
    }
  }

  /** Under the assumptions no step loses anything. */
  lemma StepGains(w: World, step: Step)
    requires WorldInv(w)
    ensures KeptChange(w, step) == Gain(w, step)
  {
    assert Solvent(w) && FlightsOk(w);
    hide AfterResolveDeposit, AfterRunTransfer, AfterRunPayout, AfterBatchCallback;
    match step
    case Escrow(call) =>
      if EscrowMay(w, call) {
        CallGains(w, call);
      } else {
        ForbiddenGainsNothing(w, call);
      }
    case ResolveDeposit(ticket) => RefundIsEven(w, ticket);
    case RunTransfer(j, place) => TransferGains(w, j, place);
    case BatchCallback(_, j) => CallbackIsEven(w, j);
    case RunPayout(ticket) => PayoutGains(w, ticket);
    case _ =>
  }

  lemma ForbiddenGainsNothing(w: World, call: Call)
    requires !EscrowMay(w, call)
    ensures Gain(w, Step.Escrow(call)) == 0
  {
  }

  ghost function AllGains(w: World, steps: seq<Step>): nat {
    if steps == [] then 0
    else
      var before := steps[..|steps| - 1];
      AllGains(w, before) + Gain(RunWorld(w, before), steps[|steps| - 1])
  }

  lemma {:induction false} RunGains(w: World, steps: seq<Step>)
    requires WorldInv(w) && w.extras == map[]
    ensures Slack(RunWorld(w, steps)) == Slack(w) + AllGains(w, steps)
  {
    if steps != [] {
      var before, last := steps[..|steps| - 1], steps[|steps| - 1];
      RunGains(w, before);
      RunStaysSolvent(w, before);
      WorldIsFree(RunWorld(w, before));
      KeptMoves(RunWorld(w, before), last);
      StepGains(RunWorld(w, before), last);
    }
  }

  /** In every run the escrow's balance is exactly what it owes, what it began with, and what came to it on
      top: neither more nor less ever leaves it than was owed. */
  lemma EscrowBalanceIsExact(w: World, owner: AccountId, allowed: seq<AccountId>, steps: seq<Step>)
    requires Start(w, owner, allowed)
    ensures var w' := RunWorld(w, steps);
      w'.token.BalanceOf(Self(w')) == Liabilities(w') + w.token.BalanceOf(Self(w)) + AllGains(w, steps)
  {
    StartOwesNothing(w, owner, allowed);
    RunGains(w, steps);
  }
}

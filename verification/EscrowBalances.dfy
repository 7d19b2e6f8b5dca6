/** The wallets inside the contract: what raises a worker's balance, and that nothing lowers it without the
    worker's signature. */
module EscrowBalances {
  import opened Basics
  import opened EscrowState
  import opened EscrowSpec
  import opened EscrowRuns
  import opened EscrowTraffic
  import EscrowParties
  import EscrowPayees
  import EscrowRules
  import EscrowTheorems
  import EscrowWallet
  import Hex
  import Messages

  lemma KeysApart(pk: Pubkey, token: string, pk': Pubkey, token': string)
    requires |pk| == 64 && |pk'| == 64
    ensures BalanceKey(pk, token) == BalanceKey(pk', token') <==> pk == pk' && token == token'
  {
    var k, k' := BalanceKey(pk, token), BalanceKey(pk', token');
    assert k[..64] == pk && k'[..64] == pk' && k[65..] == token && k'[65..] == token';
  }

  /** All balances but one are what they were. */
  ghost predicate OnlyBalance(before: map<string, nat>, after: map<string, nat>, pk: Pubkey, token: string) {
    forall k: Pubkey, t :: |k| == 64 && !(k == pk && t == token) ==> BalanceOf(after, k, t) == BalanceOf(before, k, t)
  }

  lemma WriteMovesOne(balances: map<string, nat>, pk: Pubkey, token: string, v: nat)
    requires |pk| == 64
    ensures OnlyBalance(balances, balances[BalanceKey(pk, token) := v], pk, token)
    ensures BalanceOf(balances[BalanceKey(pk, token) := v], pk, token) == v
  {
    forall k: Pubkey, t | |k| == 64 && !(k == pk && t == token)
      ensures BalanceOf(balances[BalanceKey(pk, token) := v], k, t) == BalanceOf(balances, k, t)
    {
      KeysApart(pk, token, k, t);
    }
  }

  lemma DebitMovesOne(balances: map<string, nat>, pk: Pubkey, token: string, amount: nat)
    requires |pk| == 64 && Debit(balances, pk, token, amount).Some?
    ensures var left := Debit(balances, pk, token, amount).value;
      OnlyBalance(balances, left, pk, token) && BalanceOf(left, pk, token) + amount == BalanceOf(balances, pk, token)
  {
    WriteMovesOne(balances, pk, token, BalanceOf(balances, pk, token) - amount);
  }

  lemma CreditMovesOne(balances: map<string, nat>, pk: Pubkey, token: string, amount: nat)
    requires |pk| == 64
    ensures var more := Credit(balances, pk, token, amount);
      && OnlyBalance(balances, more, pk, token)
      && BalanceOf(more, pk, token)
           == if BalanceOf(balances, pk, token) + amount > U128_MAX then U128_MAX
              else BalanceOf(balances, pk, token) + amount
  {
    WriteMovesOne(balances, pk, token, SatAdd(BalanceOf(balances, pk, token), amount, U128_MAX));
  }

  // ---- deposits ----

  /** NEAR that is attached for a registered worker is all its own, short of the largest balance, and nobody
      else's. */
  lemma DepositArrives(s: State, env: Env, pk: Pubkey)
    requires KeysOk(s) && AfterDepositToWorker(s, env, pk).Some?
    ensures pk in s.workers && pk !in s.pausedWorkers && env.deposit > 0
    ensures var u := AfterDepositToWorker(s, env, pk).value;
      && u == s.(balances := u.balances) && OnlyBalance(s.balances, u.balances, pk, "near")
      && BalanceOf(u.balances, pk, "near")
           == if BalanceOf(s.balances, pk, "near") + env.deposit > U128_MAX then U128_MAX
              else BalanceOf(s.balances, pk, "near") + env.deposit
  {
    CreditMovesOne(s.balances, pk, "near", env.deposit);
  }

  // ---- wallet calls ----

  /** The owner registers a key of 64 characters once, and not while it is paused. */
  lemma RegistrationGoesAhead(s: State, env: Env, pk: Pubkey)
    ensures AfterRegisterWorker(s, env, pk).Some? <==>
      env.predecessor == s.cfg.owner && |pk| == 64 && pk !in s.workers && pk !in s.pausedWorkers
    ensures AfterRegisterWorker(s, env, pk).Some? ==>
      AfterRegisterWorker(s, env, pk).value == s.(workers := s.workers[pk := Worker(None, 0)])
  {
  }

  /** A link needs the worker's signature over the account, which it then records. */
  lemma LinkGoesAhead(s: State, env: Env, pk: Pubkey, account: AccountId, sig: seq<Byte>)
    ensures AfterLinkNearAccount(s, env, pk, account, sig).Some? <==>
      pk in s.workers && EscrowRules.SignedBy(s, env, pk, Messages.Link(account), sig)
    ensures AfterLinkNearAccount(s, env, pk, account, sig).Some? ==>
      var u := AfterLinkNearAccount(s, env, pk, account, sig).value;
      pk in u.workers && u.workers[pk].account == Some(account) && u.balances == s.balances && u.escrows == s.escrows
  {
  }

  /** A withdrawal needs the worker's signature over token, amount and receiver, and enough in the wallet. */
  lemma WithdrawGoesAhead(s: State, env: Env, pk: Pubkey, token: string, amount: nat, to: AccountId, sig: seq<Byte>)
    ensures AfterWithdraw(s, env, pk, token, amount, to, sig).Some? <==>
      && pk in s.workers && pk !in s.pausedWorkers && Messages.ValidAccountId(token)
      && EscrowRules.SignedBy(s, env, pk, Messages.Withdrawal(token, amount, to), sig)
      && BalanceOf(s.balances, pk, token) >= amount
  {
    hide Messages.ValidAccountId;
  }

  /** It takes exactly that amount of that token, and launches exactly that transfer. */
  lemma WithdrawTakes(s: State, env: Env, pk: Pubkey, token: string, amount: nat, to: AccountId, sig: seq<Byte>)
    requires KeysOk(s) && AfterWithdraw(s, env, pk, token, amount, to, sig).Some?
    ensures var u := AfterWithdraw(s, env, pk, token, amount, to, sig).value;
      && OnlyBalance(s.balances, u.balances, pk, token)
      && BalanceOf(u.balances, pk, token) == BalanceOf(s.balances, pk, token) - amount
      && u.outbox == s.outbox + [if token == "near" then Near(to, amount, Wallet) else Ft(token, Transfer(to, amount))]
  {
    hide Messages.ValidAccountId, Messages.Message, SignatureOk;
    DebitMovesOne(s.balances, pk, token, amount);
  }

  /** The first submission of an internal worker registers it, without a linked account; other accounts stay. */
  lemma SubmissionRegisters(s: State, env: Env, j: JobId, result: string, pk: Pubkey, sig: seq<Byte>)
    requires AfterSubmitResultFor(s, env, j, result, pk, sig).Some?
    ensures var u := AfterSubmitResultFor(s, env, j, result, pk, sig).value;
      && u.workers.Keys == s.workers.Keys + {pk}
      && forall k :: k in u.workers ==> u.workers[k].account == if k in s.workers then s.workers[k].account else None
  {
    var t := Authorized(Known(s, pk), env, pk, Messages.SubmitJob(j), sig).value;
    SubmitForIsOf(s, env, j, result, pk, sig);
    EscrowWallet.SubmissionsKeepWallets(t, env, j, result, pk);
  }

  lemma SubmitForIsOf(s: State, env: Env, j: JobId, result: string, pk: Pubkey, sig: seq<Byte>)
    requires AfterSubmitResultFor(s, env, j, result, pk, sig).Some?
    ensures j in s.escrows && Authorized(Known(s, pk), env, pk, Messages.SubmitJob(j), sig).Some?
    ensures var t := Authorized(Known(s, pk), env, pk, Messages.SubmitJob(j), sig).value;
      && j in t.escrows && AfterSubmitResultFor(s, env, j, result, pk, sig) == ResultFor(t, env, j, result, pk)
      && t.workers.Keys == s.workers.Keys + {pk}
      && forall k :: k in t.workers ==> t.workers[k].account == if k in s.workers then s.workers[k].account else None
  {
  }

  // ---- debits ----

  /** The balances fit the 128 bits they are kept in. */
  ghost predicate Fits(balances: map<string, nat>) {
    forall key :: key in balances ==> balances[key] <= U128_MAX
  }

  /** The worker's own signed action takes this amount of this token from its wallet. */
  predicate TakesOwn(s: State, env: Env, op: Op, pk: Pubkey, token: string, amount: nat) {
    match op
    case Withdraw(k, t, x, to, sig) =>
      && k == pk && t == token && x == amount && pk !in s.pausedWorkers
      && EscrowRules.SignedBy(s, env, pk, Messages.Withdrawal(token, amount, to), sig)
    case TakeJobFor(j, k, sig) =>
      && k == pk && token == "near" && amount == s.cfg.workerStake
      && EscrowRules.SignedBy(s, env, pk, Messages.ClaimJob(j), sig)
    case SubmitResultFor(j, _, k, sig) =>
      && k == pk && token == "near" && amount == s.cfg.workerStake
      && EscrowRules.SignedBy(s, env, pk, Messages.SubmitJob(j), sig)
    case _ => false
  }

  /** The job got one more submission. */
  predicate Joined(s: State, u: State, j: JobId) {
    j in s.escrows && j in u.escrows && |u.escrows[j].submissions| > |s.escrows[j].submissions|
  }

  /** No balance fell, but for one that its owner's signature takes; a submission costs nothing unless it is a
      new one. */
  ghost predicate Guarded(s: State, env: Env, op: Op, u: State) {
    forall pk: Pubkey, token :: |pk| == 64 && BalanceOf(u.balances, pk, token) < BalanceOf(s.balances, pk, token) ==>
      && TakesOwn(s, env, op, pk, token, BalanceOf(s.balances, pk, token) - BalanceOf(u.balances, pk, token))
      && (op.SubmitResultFor? ==> Joined(s, u, op.job))
  }

  lemma CreditsAreGuarded(balances: map<string, nat>, e: Escrow)
    requires KeyOk(e) && Fits(balances)
    ensures Fits(WithPendingCredits(balances, e))
    ensures forall pk: Pubkey, token :: |pk| == 64 ==>
      BalanceOf(WithPendingCredits(balances, e), pk, token) >= BalanceOf(balances, pk, token)
  {
    if e.workerPubkey.Some? {
      var pk := e.workerPubkey.value;
      var paid := if e.pendingPayout.Some? then Credit(balances, pk, e.terms.token, e.pendingPayout.value)
          else balances;
      CreditMovesOne(balances, pk, e.terms.token, GetOr(e.pendingPayout, 0));
      CreditMovesOne(paid, pk, NEAR_TOKEN_ID, GetOr(e.pendingStake, 0));
    }
  }

  /** The balances after a call fit, and none fell without its owner's signature. */
  ghost predicate Kept(s: State, env: Env, op: Op, u: State) {
    Fits(u.balances) && Guarded(s, env, op, u)
  }

  lemma CreditedIsKept(s: State, env: Env, op: Op, u: State, e: Escrow)
    requires Fits(s.balances) && KeyOk(e) && u.balances == WithPendingCredits(s.balances, e)
    ensures Kept(s, env, op, u)
  {
    CreditsAreGuarded(s.balances, e);
  }

  lemma SettlingIsKept(s: State, env: Env, op: Op)
    requires JobsInv(s) && KeysOk(s) && Fits(s.balances) && SettlingOp(op) && Attempt(s, env, op).Some?
    ensures Kept(s, env, op, Attempt(s, env, op).value)
  {
    SettlingTraffic(s, env, op);
    SettledIsKept(s, env, op, Attempt(s, env, op).value, JobOf(op).value);
  }

  lemma SettledIsKept(s: State, env: Env, op: Op, u: State, j: JobId)
    requires KeysOk(s) && Fits(s.balances) && Settles(s, u, j)
    ensures Kept(s, env, op, u)
  {
    if u.balances != s.balances {
      var d :| PaysInside(s, u, j, d);
      CreditedIsKept(s, env, op, u, d);
    }
  }

  lemma CallbackIsKept(s: State, env: Env, j: JobId, results: seq<bool>)
    requires KeysOk(s) && Fits(s.balances) && AfterSettleCallback(s, j, results).Some?
    ensures Kept(s, env, SettleCallback(j, results), AfterSettleCallback(s, j, results).value)
  {
    if AllOk(results) {
      CreditedIsKept(s, env, SettleCallback(j, results), Finished(s, j), s.escrows[j]);
    }
  }

  /** What an accepted signature was for. */
  lemma AuthorizedIsSigned(s: State, env: Env, pk: Pubkey, a: Messages.Action, sig: seq<Byte>)
    requires Authorized(Known(s, pk), env, pk, a, sig).Some?
    ensures EscrowRules.SignedBy(s, env, pk, a, sig) && |pk| == 64
    ensures Authorized(Known(s, pk), env, pk, a, sig).value.balances == s.balances
    ensures Authorized(Known(s, pk), env, pk, a, sig).value.cfg == s.cfg
    ensures pk in s.workers ==> Known(s, pk) == s
  {
    SigningTraffic(Known(s, pk), env, pk, a, sig);
  }

  lemma DebitIsKept(s: State, env: Env, op: Op, u: State, pk: Pubkey, token: string, amount: nat)
    requires Fits(s.balances) && |pk| == 64 && Debit(s.balances, pk, token, amount) == Some(u.balances)
    requires TakesOwn(s, env, op, pk, token, amount) && (op.SubmitResultFor? ==> Joined(s, u, op.job))
    ensures Kept(s, env, op, u)
  {
    DebitMovesOne(s.balances, pk, token, amount);
  }

  lemma WithdrawIsKept(s: State, env: Env, op: Op)
    requires Fits(s.balances) && op.Withdraw? && Attempt(s, env, op).Some?
    ensures Kept(s, env, op, Attempt(s, env, op).value)
  {
    AuthorizedIsSigned(s, env, op.pk, Messages.Withdrawal(op.token, op.amount, op.to), op.sig);
    DebitIsKept(s, env, op, Attempt(s, env, op).value, op.pk, op.token, op.amount);
  }

  lemma ClaimForIsKept(s: State, env: Env, op: Op)
    requires Fits(s.balances) && op.TakeJobFor? && Attempt(s, env, op).Some?
    ensures Kept(s, env, op, Attempt(s, env, op).value)
  {
    AuthorizedIsSigned(s, env, op.pk, Messages.ClaimJob(op.job), op.sig);
    DebitIsKept(s, env, op, Attempt(s, env, op).value, op.pk, "near", s.cfg.workerStake);
  }

  /** A submission costs the stake, a second one of the same key nothing. */
  lemma SubmissionCosts(t: State, env: Env, j: JobId, result: string, pk: Pubkey)
    requires j in t.escrows && ResultFor(t, env, j, result, pk).Some? && |pk| == 64 && Fits(t.balances)
    ensures var u := ResultFor(t, env, j, result, pk).value;
      || u.balances == t.balances
      || (Joined(t, u, j) && Debit(t.balances, pk, "near", t.cfg.workerStake) == Some(u.balances))
      || (Fits(u.balances) && OnlyBalance(t.balances, u.balances, pk, "near")
          && BalanceOf(u.balances, pk, "near") == BalanceOf(t.balances, pk, "near"))
  {
    if t.escrows[j].terms.mode == Competitive {
      var left := Debit(t.balances, pk, "near", t.cfg.workerStake).value;
      DebitMovesOne(t.balances, pk, "near", t.cfg.workerStake);
      CreditMovesOne(left, pk, "near", t.cfg.workerStake);
    }
  }

  lemma SubmitForIsKept(s: State, env: Env, op: Op)
    requires Fits(s.balances) && op.SubmitResultFor? && Attempt(s, env, op).Some?
    ensures Kept(s, env, op, Attempt(s, env, op).value)
  {
    EscrowRules.SubmitForIs(s, env, op.job, op.result, op.pk, op.sig);
    AuthorizedIsSigned(s, env, op.pk, Messages.SubmitJob(op.job), op.sig);
    var t := Authorized(Known(s, op.pk), env, op.pk, Messages.SubmitJob(op.job), op.sig).value;
    SubmissionCosts(t, env, op.job, op.result, op.pk);
    var u := Attempt(s, env, op).value;
    if Joined(t, u, op.job) && Debit(t.balances, op.pk, "near", t.cfg.workerStake) == Some(u.balances) {
      DebitIsKept(s, env, op, u, op.pk, "near", s.cfg.workerStake);
    }
  }

  lemma OthersTouchNone(s: State, env: Env, op: Op)
    requires op.Configure? || op.PauseWorkers? || op.RegisterWorker? || op.LinkNearAccount? || op.CreateEscrow?
      || op.FtOnTransfer? || op.TakeJob? || op.DesignateWinner? || op.CleanupCompleted?
    requires Attempt(s, env, op).Some?
    ensures Attempt(s, env, op).value.balances == s.balances
  {
  }

  lemma SubmitTouchesNone(s: State, env: Env, op: Op)
    requires op.SubmitResult? && Attempt(s, env, op).Some?
    ensures Attempt(s, env, op).value.balances == s.balances
  {
  }

  lemma DepositIsKept(s: State, env: Env, op: Op)
    requires KeysOk(s) && Fits(s.balances) && op.DepositToWorker? && Attempt(s, env, op).Some?
    ensures Kept(s, env, op, Attempt(s, env, op).value)
  {
    DepositArrives(s, env, op.pk);
  }

  lemma CallIsKept(s: State, env: Env, op: Op)
    requires JobsInv(s) && KeysOk(s) && Fits(s.balances) && Attempt(s, env, op).Some?
    ensures Kept(s, env, op, Attempt(s, env, op).value)
  {
    if SettlingOp(op) {
      SettlingIsKept(s, env, op);
    } else {
      match op
      case SettleCallback(j, results) => CallbackIsKept(s, env, j, results);
      case Withdraw(_, _, _, _, _) => WithdrawIsKept(s, env, op);
      case TakeJobFor(_, _, _) => ClaimForIsKept(s, env, op);
      case SubmitResultFor(_, _, _, _) => SubmitForIsKept(s, env, op);
      case SubmitResult(_, _) => SubmitTouchesNone(s, env, op);
      case DepositToWorker(_) => DepositIsKept(s, env, op);
      case _ => OthersTouchNone(s, env, op);
    }
  }

  // ---- the end of a job ----

  function Capped(x: nat): nat {
    if x > U128_MAX then U128_MAX else x
  }

  /** The wallet of `pk` got the payout in its token and the stake in NEAR, short of the largest balance; no
      other wallet got anything. */
  ghost predicate PaidInto(before: map<string, nat>, after: map<string, nat>, pk: Pubkey, token: string, payout: nat,
      stake: nat)
  {
    forall k: Pubkey, t :: |k| == 64 ==>
      BalanceOf(after, k, t)
        == if k != pk then BalanceOf(before, k, t)
           else Capped(BalanceOf(before, k, t) + (if t == token then payout else 0) + if t == "near" then stake else 0)
  }

  lemma PendingPaid(balances: map<string, nat>, e: Escrow)
    requires Fits(balances) && e.workerPubkey.Some? && |e.workerPubkey.value| == 64
    ensures PaidInto(balances, WithPendingCredits(balances, e), e.workerPubkey.value, e.terms.token,
                     GetOr(e.pendingPayout, 0), GetOr(e.pendingStake, 0))
  {
    var pk := e.workerPubkey.value;
    var paid := if e.pendingPayout.Some? then Credit(balances, pk, e.terms.token, e.pendingPayout.value) else balances;
    CreditMovesOne(balances, pk, e.terms.token, GetOr(e.pendingPayout, 0));
    CreditMovesOne(paid, pk, NEAR_TOKEN_ID, GetOr(e.pendingStake, 0));
  }

  /** Settled at once: no fee to transfer, and the worker is internal. */
  lemma SettledInside(t: State, j: JobId)
    requires j in t.escrows && ReadyToSettle(t.escrows[j], t.LedgerOf(j))
    requires var e := t.escrows[j]; e.target == Some(Claim) && e.workerPubkey.Some? && e.terms.fee == 0
    ensures AfterSettle(t, j).Some?
    ensures AfterSettle(t, j).value.balances == WithPendingCredits(t.balances, Deferred(t.escrows[j]))
  {
  }

  /** What an internal worker is due when its job ends: on a payout the net amount, and its stake. */
  ghost predicate EndPaid(s: State, u: State, e: Escrow, claimed: bool, stake: Option<nat>)
    requires e.workerPubkey.Some?
  {
    PaidInto(s.balances, u.balances, e.workerPubkey.value, e.terms.token,
             if claimed then EscrowPayees.Net(e) else 0, GetOr(stake, 0))
  }

  lemma LandingPays(s: State, j: JobId, results: seq<bool>)
    requires KeysOk(s) && Fits(s.balances) && j in s.escrows && JobInv(s.escrows[j], s.LedgerOf(j))
    requires AfterSettleCallback(s, j, results).Some? && false !in results && s.escrows[j].workerPubkey.Some?
    ensures EndPaid(s, AfterSettleCallback(s, j, results).value, s.escrows[j], s.escrows[j].target == Some(Claim),
                    s.escrows[j].pendingStake)
  {
    assert AllOk(results);
    PendingPaid(s.balances, s.escrows[j]);
  }

  lemma InsidePays(s: State, t: State, j: JobId)
    requires KeysOk(s) && Fits(s.balances) && j in s.escrows && t.balances == s.balances
    requires j in t.escrows && ReadyToSettle(t.escrows[j], t.LedgerOf(j))
    requires var e, e' := s.escrows[j], t.escrows[j];
      && e'.terms == e.terms && e'.workerPubkey == e.workerPubkey && e'.workerStake == e.workerStake
      && e'.target == Some(Claim) && e.workerPubkey.Some? && e.terms.fee == 0
    ensures AfterSettle(t, j).Some?
    ensures EndPaid(s, AfterSettle(t, j).value, s.escrows[j], true, s.escrows[j].workerStake)
  {
    SettledInside(t, j);
    PendingPaid(s.balances, Deferred(t.escrows[j]));
  }

  lemma PassingPaysInside(s: State, j: JobId, payload: Payload)
    requires KeysOk(s) && Fits(s.balances) && j in s.escrows && JobInv(s.escrows[j], s.LedgerOf(j))
    requires s.escrows[j].status == Verifying && s.escrows[j].workerPubkey.Some? && s.escrows[j].terms.fee == 0
    requires Passing(payload, s.escrows[j].terms.scoreThreshold)
    ensures AfterVerification(s, j, payload).Some?
    ensures EndPaid(s, AfterVerification(s, j, payload).value, s.escrows[j], true, s.escrows[j].workerStake)
  {
    JudgedIsReady(s.escrows[j], s.LedgerOf(j), payload);
    JudgedShape(s, j, payload);
    EscrowPayees.JudgedAim(s.escrows[j], payload);
    InsidePays(s, JudgedState(s, j, payload), j);
  }

  lemma RetryTriesAgain(s: State, env: Env, j: JobId)
    requires AfterRetry(s, env, j).Some? && !EscrowRules.OutOfRetries(s.escrows[j])
    ensures Retryable(s.escrows[j])
    ensures AfterRetry(s, env, j)
      == AfterSettle(s.Put(j, s.escrows[j].(retryCount := (s.escrows[j].retryCount + 1) % 256)), j)
  {
    hide AfterSettle;
  }

  lemma RetryPaysInside(s: State, env: Env, j: JobId)
    requires KeysOk(s) && Fits(s.balances) && j in s.escrows && JobInv(s.escrows[j], s.LedgerOf(j))
    requires s.escrows[j].target == Some(Claim) && s.escrows[j].workerPubkey.Some? && s.escrows[j].terms.fee == 0
    requires AfterRetry(s, env, j).Some? && !EscrowRules.OutOfRetries(s.escrows[j])
    ensures EndPaid(s, AfterRetry(s, env, j).value, s.escrows[j], true, s.escrows[j].workerStake)
  {
    hide AfterRetry, AfterSettle, EndPaid, KeysOk, Fits, JobInv;
    RetryTriesAgain(s, env, j);
    RetriedPaysInside(s, j, (s.escrows[j].retryCount + 1) % 256);
  }

  lemma RetriedPaysInside(s: State, j: JobId, count: Byte)
    requires KeysOk(s) && Fits(s.balances) && j in s.escrows && JobInv(s.escrows[j], s.LedgerOf(j))
    requires Retryable(s.escrows[j]) && s.escrows[j].target == Some(Claim)
    requires s.escrows[j].workerPubkey.Some? && s.escrows[j].terms.fee == 0
    ensures var e := s.escrows[j].(retryCount := count);
      && AfterSettle(s.Put(j, e), j).Some?
      && EndPaid(s, AfterSettle(s.Put(j, e), j).value, s.escrows[j], true, s.escrows[j].workerStake)
  {
    RetriedJob(s.escrows[j], s.LedgerOf(j), count);
    InsidePays(s, s.Put(j, s.escrows[j].(retryCount := count)), j);
  }

  lemma ExpiryPaysInside(s: State, env: Env, j: JobId)
    requires KeysOk(s) && Fits(s.balances) && j in s.escrows && JobInv(s.escrows[j], s.LedgerOf(j))
    requires s.escrows[j].target == Some(Claim) && s.escrows[j].workerPubkey.Some? && s.escrows[j].terms.fee == 0
    requires AfterRefundExpired(s, env, j).Some? && s.escrows[j].status == SettlementFailed
    ensures EndPaid(s, AfterRefundExpired(s, env, j).value, s.escrows[j], true, s.escrows[j].workerStake)
  {
    InsidePays(s, s, j);
  }

  /** The four ways a job ends. */
  predicate Ends(s: State, env: Env, op: Op, e: Escrow, claimed: bool) {
    match op
    case SettleCallback(_, results) => false !in results && claimed == (e.target == Some(Claim))
    case VerificationCallback(_, payload) =>
      claimed && e.status == Verifying && e.terms.fee == 0 && Passing(payload, e.terms.scoreThreshold)
    case RetrySettlement(_) =>
      claimed && e.target == Some(Claim) && e.terms.fee == 0 && !EscrowRules.OutOfRetries(e)
    case RefundExpired(_) => claimed && e.target == Some(Claim) && e.terms.fee == 0 && e.status == SettlementFailed
    case _ => false
  }

  lemma EndHasCause(s: State, env: Env, op: Op, e: Escrow, e': Escrow)
    requires EscrowRules.Caused(s, env, op, e, e') && Settled(e')
    ensures Ends(s, env, op, e, e'.status == Claimed)
  {
  }

  lemma EndPays(s: State, env: Env, op: Op, j: JobId, claimed: bool)
    requires JobsInv(s) && KeysOk(s) && Fits(s.balances) && Attempt(s, env, op).Some? && JobOf(op) == Some(j)
    requires j in s.escrows && s.escrows[j].workerPubkey.Some? && Ends(s, env, op, s.escrows[j], claimed)
    ensures EndPaid(s, Attempt(s, env, op).value, s.escrows[j], claimed,
                    if op.SettleCallback? then s.escrows[j].pendingStake else s.escrows[j].workerStake)
  {
    assert JobOk(s, j);
    hide AfterRetry, AfterVerification, AfterRefundExpired, AfterSettleCallback, EndPaid, KeysOk, Fits, JobInv;
    match op
    case SettleCallback(_, results) => LandingPays(s, j, results);
    case VerificationCallback(_, payload) => PassingPaysInside(s, j, payload);
    case RetrySettlement(_) => RetryPaysInside(s, env, j);
    case RefundExpired(_) => ExpiryPaysInside(s, env, j);
  }

  lemma ReachableFits(s: State)
    requires EscrowTheorems.Reachable(s)
    ensures JobsInv(s) && KeysOk(s) && Fits(s.balances)
  {
    EscrowParties.ReachableKeys(s);
    var self, owner, allowed, calls :| s == Run(Initial(self, owner, allowed), calls);
    RunFits(self, owner, allowed, calls);
  }

  /** Over every call there is: when the job of an internal worker ends, its wallet gets the net amount if the
      job is paid out, and the stake that waits for it, short of the largest balance; no other wallet moves. */
  lemma WorkerIsCredited(s: State, call: Call, j: JobId)
    requires EscrowTheorems.Reachable(s) && j in s.escrows && j in Apply(s, call).escrows
    requires s.escrows[j].workerPubkey.Some? && !Settled(s.escrows[j]) && Settled(Apply(s, call).escrows[j])
    ensures EndPaid(s, Apply(s, call), s.escrows[j], Apply(s, call).escrows[j].status == Claimed,
                    if call.op.SettleCallback? then s.escrows[j].pendingStake else s.escrows[j].workerStake)
  {
    ReachableFits(s);
    EscrowRules.ChangesHaveCauses(s, call, j);
    var e, e' := s.escrows[j], Apply(s, call).escrows[j];
    hide EscrowRules.Caused, Ends, EndPaid, Attempt;
    EndHasCause(s, call.env, call.op, e, e');
    EndPays(s, call.env, call.op, j, e'.status == Claimed);
  }

  // ---- every run ----

  lemma {:induction false} RunFits(self: AccountId, owner: AccountId, allowed: seq<AccountId>, calls: seq<Call>)
    ensures Fits(Run(Initial(self, owner, allowed), calls).balances)
  {
    if calls != [] {
      var before, last := calls[..|calls| - 1], calls[|calls| - 1];
      RunFits(self, owner, allowed, before);
      var s := Run(Initial(self, owner, allowed), before);
      assert EscrowTheorems.Reachable(s);
      EscrowParties.ReachableKeys(s);
      if Attempt(s, last.env, last.op).Some? {
        CallIsKept(s, last.env, last.op);
      }
    }
  }

  /** Over every call there is, from every reachable state: a worker's balance only falls by what an action
      takes that its own key signed, for this contract and with the nonce that was due. */
  lemma OnlySignedDebits(s: State, call: Call)
    requires EscrowTheorems.Reachable(s)
    ensures Guarded(s, call.env, call.op, Apply(s, call))
  {
    ReachableFits(s);
    if Attempt(s, call.env, call.op).Some? {
      CallIsKept(s, call.env, call.op);
    }
  }

  /** The key and the signature a call carries, of an action that takes from a wallet. */
  function SignatureOf(op: Op): Option<(Pubkey, seq<Byte>)> {
    match op
    case Withdraw(pk, _, _, _, sig) => Some((pk, sig))
    case TakeJobFor(_, pk, sig) => Some((pk, sig))
    case SubmitResultFor(_, _, pk, sig) => Some((pk, sig))
    case _ => None
  }

  /** The call carries no signature that verifies for the key. */
  ghost predicate NotSignedBy(call: Call, pk: Pubkey) {
    SignatureOf(call.op).Some? && SignatureOf(call.op).value.0 == pk ==>
      forall message :: !Verifies(call.env, pk, message, SignatureOf(call.op).value.1)
  }

  predicate Verifies(env: Env, pk: Pubkey, message: string, sig: seq<Byte>) {
    Hex.Decode(pk).Some? && env.ed25519(Hex.Decode(pk).value, message, sig)
  }

  /** So over every run a worker that signs nothing loses nothing. */
  lemma {:induction false} SilentWorkerKeepsAll(s: State, calls: seq<Call>, pk: Pubkey, token: string)
    requires EscrowTheorems.Reachable(s) && |pk| == 64
    requires forall i :: 0 <= i < |calls| ==> NotSignedBy(calls[i], pk)
    ensures BalanceOf(Run(s, calls).balances, pk, token) >= BalanceOf(s.balances, pk, token)
  {
    if calls != [] {
      var before, last := calls[..|calls| - 1], calls[|calls| - 1];
      SilentWorkerKeepsAll(s, before, pk, token);
      EscrowRules.ReachesFar(s, before);
      var t := Run(s, before);
      OnlySignedDebits(t, last);
      NotSignedTakesNone(t, last, pk, token,
                         SatSub(BalanceOf(t.balances, pk, token), BalanceOf(Apply(t, last).balances, pk, token)));
    }
  }

  lemma SignedVerifies(s: State, env: Env, pk: Pubkey, a: Messages.Action, sig: seq<Byte>)
    requires EscrowRules.SignedBy(s, env, pk, a, sig)
    ensures exists message :: Verifies(env, pk, message, sig)
  {
    var nonce := if pk in s.workers then s.workers[pk].nonce else 0;
    assert Verifies(env, pk, Messages.Message(s.cfg.self, a, nonce), sig);
  }

  lemma NotSignedTakesNone(s: State, call: Call, pk: Pubkey, token: string, amount: nat)
    requires NotSignedBy(call, pk)
    ensures !TakesOwn(s, call.env, call.op, pk, token, amount)
  {
    if TakesOwn(s, call.env, call.op, pk, token, amount) {
      match call.op
      case Withdraw(_, _, _, to, sig) => SignedVerifies(s, call.env, pk, Messages.Withdrawal(token, amount, to), sig);
      case TakeJobFor(j, _, sig) => SignedVerifies(s, call.env, pk, Messages.ClaimJob(j), sig);
      case SubmitResultFor(j, _, _, sig) => SignedVerifies(s, call.env, pk, Messages.SubmitJob(j), sig);
    }
  }
}

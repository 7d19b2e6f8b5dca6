/** The stake column of the ledgers against what really leaves: the transfers in the outbox and the
    credits to internal wallets. */
module EscrowStakes {
  import opened Basics
  import opened EscrowState
  import opened EscrowSpec
  import opened EscrowRuns
  import opened EscrowTraffic
  import EscrowBooks
  import EscrowStats
  import EscrowTheorems
  import EscrowWallet
  import Messages

  /** The NEAR sent out as stakes of job `j`. */
  function StakesSent(ps: seq<Promise>, j: JobId): nat {
    if ps == [] then 0 else StakesSent(ps[..|ps| - 1], j) + StakeIn(ps[|ps| - 1], j)
  }

  function StakeIn(p: Promise, j: JobId): nat {
    if p.Near? && p.reason == StakeOf(j) then p.amount else 0
  }

  lemma {:induction false} SentAppend(a: seq<Promise>, b: seq<Promise>, j: JobId)
    ensures StakesSent(a + b, j) == StakesSent(a, j) + StakesSent(b, j)
  {
    if b == [] {
      assert a + b == a;
    } else {
      assert (a + b)[..|a + b| - 1] == a + b[..|b| - 1];
      SentAppend(a, b[..|b| - 1], j);
    }
  }

  lemma SentOne(a: seq<Promise>, p: Promise)
    ensures forall j :: StakesSent(a + [p], j) == StakesSent(a, j) + StakeIn(p, j)
  {
    assert (a + [p])[..|a|] == a;
  }

  function NearCredited(s: State, token: AccountId, j: JobId): nat {
    if token == NEAR_TOKEN_ID then s.LedgerOf(j).credited else 0
  }

  /** What left as stakes of `j` in this step, by transfer and into wallets, is on the books. */
  ghost predicate Booked(s: State, u: State, j: JobId, token: AccountId) {
    var sent, sent' := StakesSent(s.outbox, j), StakesSent(u.outbox, j);
    var out, out' := s.LedgerOf(j).stakeOut, u.LedgerOf(j).stakeOut;
    && sent' + out <= sent + out'
    && sent' + WalletSum(u.balances, NEAR_TOKEN_ID) + out + NearCredited(s, token, j)
         <= sent + WalletSum(s.balances, NEAR_TOKEN_ID) + out' + NearCredited(u, token, j)
    && forall k :: k != j ==> StakesSent(u.outbox, k) == StakesSent(s.outbox, k)
  }

  lemma BookedTwice(s: State, t: State, u: State, j: JobId, token: AccountId)
    requires Booked(s, t, j, token) && Booked(t, u, j, token)
    ensures Booked(s, u, j, token)
  {
  }

  /** Steps that send no stake, book none and touch no wallet. */
  predicate NoStake(s: State, u: State, j: JobId) {
    && u.balances == s.balances && u.LedgerOf(j).stakeOut == s.LedgerOf(j).stakeOut
    && u.LedgerOf(j).credited == s.LedgerOf(j).credited
    && (u.outbox == s.outbox
        || (|u.outbox| == |s.outbox| + 1 && u.outbox == s.outbox + [u.outbox[|s.outbox|]]
            && (u.outbox[|s.outbox|].Near? ==> !u.outbox[|s.outbox|].reason.StakeOf?)))
  }

  lemma NoStakeIsBooked(s: State, u: State, j: JobId, token: AccountId)
    requires NoStake(s, u, j)
    ensures Booked(s, u, j, token)
  {
    if u.outbox != s.outbox {
      SentOne(s.outbox, u.outbox[|s.outbox|]);
    }
  }

  lemma ReleaseIsBooked(s: State, j: JobId, to: Option<AccountId>, token: AccountId)
    requires j in s.escrows
    ensures Booked(s, Released(s, j, to), j, token)
  {
    var e := s.escrows[j];
    if e.workerStake.Some? && to.Some? {
      SentOne(s.outbox, Near(to.value, e.workerStake.value, StakeOf(j)));
    }
  }

  lemma AbandonIsBooked(s: State, j: JobId, to: Option<AccountId>, token: AccountId)
    requires j in s.escrows
    ensures Booked(s, Abandoned(s, j, to), j, token)
  {
    ReleaseIsBooked(s, j, to, token);
    ReleaseBooks(s, j, to);
    var t := Released(s, j, to);
    UnindexingIsNoStake(t, j, s.escrows[j].dataId, t.escrows[j].(dataId := None, yieldConsumed := false));
    NoStakeIsBooked(t, Abandoned(s, j, to), j, token);
    BookedTwice(s, t, Abandoned(s, j, to), j, token);
  }

  lemma UnindexingIsNoStake(t: State, j: JobId, dataId: Option<DataId>, e: Escrow)
    ensures NoStake(t, Unindexed(t, dataId).Put(j, e), j)
  {
  }

  lemma JudgingIsBooked(s: State, j: JobId, payload: Payload, token: AccountId)
    requires j in s.escrows
    ensures Booked(s, JudgedState(s, j, payload), j, token)
  {
    var t := if payload.Parsed? then s else Released(s, j, LegacyWorker(s.escrows[j]));
    ReleaseIsBooked(s, j, LegacyWorker(s.escrows[j]), token);
    NoStakeIsBooked(s, s, j, token);
    UnindexingIsNoStake(t, j, s.escrows[j].dataId, Judged(s.escrows[j], payload));
    NoStakeIsBooked(t, JudgedState(s, j, payload), j, token);
    BookedTwice(s, t, JudgedState(s, j, payload), j, token);
  }

  /** The deferred stake goes into the wallet, or an external worker's by transfer: once. */
  lemma PendingNear(balances: map<string, nat>, e: Escrow)
    requires KeyOk(e)
    ensures WalletSum(WithPendingCredits(balances, e), NEAR_TOKEN_ID) <= WalletSum(balances, NEAR_TOKEN_ID)
      + (if e.workerPubkey.Some? then GetOr(e.pendingStake, 0) else 0)
      + (if e.workerPubkey.Some? && e.terms.token == NEAR_TOKEN_ID then GetOr(e.pendingPayout, 0) else 0)
  {
    if e.workerPubkey.Some? {
      var pk := e.workerPubkey.value;
      var paid := if e.pendingPayout.Some? then Credit(balances, pk, e.terms.token, e.pendingPayout.value)
          else balances;
      if e.pendingPayout.Some? {
        CreditSum(balances, pk, e.terms.token, e.pendingPayout.value, NEAR_TOKEN_ID);
      }
      if e.pendingStake.Some? {
        CreditSum(paid, pk, NEAR_TOKEN_ID, e.pendingStake.value, NEAR_TOKEN_ID);
      }
    }
  }

  function ByTransfer(e: Escrow): nat {
    if e.workerPubkey.None? && e.worker.Some? then GetOr(e.workerStake, 0) else 0
  }

  function IntoWallet(e: Escrow): nat {
    if e.workerPubkey.Some? then GetOr(e.pendingStake, 0) else 0
  }

  lemma FinishedBooks(e: Escrow, l: Ledger)
    ensures FinishedLedger(e, l).stakeOut == l.stakeOut + ByTransfer(e) + IntoWallet(e)
    ensures FinishedLedger(e, l).credited == l.credited + if e.workerPubkey.Some? then GetOr(e.pendingPayout, 0) else 0
  {
  }

  lemma FinishedSends(outbox: seq<Promise>, storage: nat, j: JobId, e: Escrow)
    ensures forall k :: k != j ==> StakesSent(FinishedOutbox(outbox, storage, j, e), k) == StakesSent(outbox, k)
    ensures StakesSent(FinishedOutbox(outbox, storage, j, e), j) == StakesSent(outbox, j) + ByTransfer(e)
  {
    var deposit := Near(e.terms.agent, storage, StorageRefund);
    SentOne(outbox, deposit);
    if e.worker.Some? && e.workerStake.Some? {
      SentOne(outbox + [deposit], Near(e.worker.value, e.workerStake.value, StakeOf(j)));
    }
  }

  lemma FinishingIsBooked(s: State, j: JobId)
    requires j in s.escrows && KeyOk(s.escrows[j])
    ensures Booked(s, Finished(s, j), j, s.escrows[j].terms.token)
  {
    var e, l, u := s.escrows[j], s.LedgerOf(j), Finished(s, j);
    assert u.LedgerOf(j) == FinishedLedger(e, l) && u.balances == WithPendingCredits(s.balances, e);
    assert u.outbox == FinishedOutbox(s.outbox, s.cfg.storageDeposit, j, e);
    BooksMatch(s, u, j);
  }

  lemma BooksMatch(s: State, u: State, j: JobId)
    requires j in s.escrows && KeyOk(s.escrows[j])
    requires u.LedgerOf(j) == FinishedLedger(s.escrows[j], s.LedgerOf(j))
    requires u.balances == WithPendingCredits(s.balances, s.escrows[j])
    requires u.outbox == FinishedOutbox(s.outbox, s.cfg.storageDeposit, j, s.escrows[j])
    ensures Booked(s, u, j, s.escrows[j].terms.token)
  {
    var e := s.escrows[j];
    PendingNear(s.balances, e);
    FinishedSends(s.outbox, s.cfg.storageDeposit, j, e);
    FinishedBooks(e, s.LedgerOf(j));
  }

  lemma SettlingIsBooked(s: State, j: JobId)
    requires AfterSettle(s, j).Some? && KeyOk(s.escrows[j])
    ensures Booked(s, AfterSettle(s, j).value, j, s.escrows[j].terms.token)
  {
    var e := s.escrows[j];
    var v, u, token := s.Put(j, Deferred(e)), AfterSettle(s, j).value, e.terms.token;
    DeferredPlan(e, s.cfg.owner);
    NoStakeIsBooked(s, v, j, token);
    if Plan(e, s.cfg.owner) == Some([]) {
      FinishingIsBooked(v, j);
    } else {
      assert NoStake(v, u, j);
      NoStakeIsBooked(v, u, j, token);
    }
    BookedTwice(s, v, u, j, token);
  }

  // ---- the settling calls ----

  lemma PreparedIsBooked(s: State, t: State, j: JobId)
    requires j in s.escrows && j in t.escrows && t.escrows[j].terms == s.escrows[j].terms && KeyOk(t.escrows[j])
    requires Booked(s, t, j, s.escrows[j].terms.token) && AfterSettle(t, j).Some?
    ensures Booked(s, AfterSettle(t, j).value, j, s.escrows[j].terms.token)
  {
    SettlingIsBooked(t, j);
    BookedTwice(s, t, AfterSettle(t, j).value, j, s.escrows[j].terms.token);
  }

  lemma RefundIsBooked(s: State, t: State, j: JobId)
    requires j in s.escrows && j in t.escrows && t.escrows[j].terms == s.escrows[j].terms && KeyOk(t.escrows[j])
    requires Booked(s, t, j, s.escrows[j].terms.token) && FullyRefunding(t, j).Some?
    ensures Booked(s, FullyRefunding(t, j).value, j, s.escrows[j].terms.token)
  {
    var t' := t.Put(j, t.escrows[j].(target := Some(FullRefund)));
    NoStakeIsBooked(t, t', j, s.escrows[j].terms.token);
    BookedTwice(s, t, t', j, s.escrows[j].terms.token);
    PreparedIsBooked(s, t', j);
  }

  lemma VerificationIsBooked(s: State, j: JobId, payload: Payload)
    requires AfterVerification(s, j, payload).Some? && KeyOk(s.escrows[j])
    ensures Booked(s, AfterVerification(s, j, payload).value, j, s.escrows[j].terms.token)
  {
    if s.escrows[j].status == Verifying {
      JudgingIsBooked(s, j, payload, s.escrows[j].terms.token);
      JudgedShape(s, j, payload);
      PreparedIsBooked(s, JudgedState(s, j, payload), j);
    } else {
      NoStakeIsBooked(s, s, j, s.escrows[j].terms.token);
    }
  }

  lemma CancellingIsBooked(s: State, j: JobId, from: Status, token: AccountId)
    requires j in s.escrows
    ensures Booked(s, MarkedCancelled(s, j, from), j, token)
    ensures forall e :: Booked(s, GivenUp(s, j, e), j, token)
  {
    NoStakeIsBooked(s, MarkedCancelled(s, j, from), j, token);
    forall e
      ensures Booked(s, GivenUp(s, j, e), j, token)
    {
      NoStakeIsBooked(s, GivenUp(s, j, e), j, token);
    }
  }

  lemma RetryIsBooked(s: State, env: Env, j: JobId)
    requires AfterRetry(s, env, j).Some? && KeyOk(s.escrows[j])
    ensures Booked(s, AfterRetry(s, env, j).value, j, s.escrows[j].terms.token)
  {
    var e, token := s.escrows[j].(retryCount := (s.escrows[j].retryCount + 1) % 256), s.escrows[j].terms.token;
    CancellingIsBooked(s, j, SettlementFailed, token);
    if e.retryCount <= MAX_SETTLEMENT_RETRIES {
      NoStakeIsBooked(s, s.Put(j, e), j, token);
      PreparedIsBooked(s, s.Put(j, e), j);
      assert AfterRetry(s, env, j) == AfterSettle(s.Put(j, e), j);
    }
  }

  lemma CancelIsBooked(s: State, env: Env, j: JobId)
    requires AfterCancel(s, env, j).Some? && KeyOk(s.escrows[j])
    ensures Booked(s, AfterCancel(s, env, j).value, j, s.escrows[j].terms.token)
  {
    if s.escrows[j].status == Open {
      NoStakeIsBooked(s, s, j, s.escrows[j].terms.token);
      RefundIsBooked(s, s, j);
    } else {
      CancellingIsBooked(s, j, PendingFunding, s.escrows[j].terms.token);
    }
  }

  lemma ForceCancelIsBooked(s: State, env: Env, j: JobId)
    requires AfterForceCancel(s, env, j).Some? && KeyOk(s.escrows[j])
    ensures Booked(s, AfterForceCancel(s, env, j).value, j, s.escrows[j].terms.token)
  {
    var token := s.escrows[j].terms.token;
    var t := Abandoned(s, j, s.escrows[j].worker);
    AbandonIsBooked(s, j, s.escrows[j].worker, token);
    AbandonedJob(s, j, s.escrows[j].worker);
    CancellingIsBooked(t, j, Verifying, token);
    BookedTwice(s, t, CalledOff(s, j), j, token);
    CalledOffJob(s, j);
    RefundIsBooked(s, CalledOff(s, j), j);
  }

  lemma RefundExpiredIsBooked(s: State, env: Env, j: JobId)
    requires AfterRefundExpired(s, env, j).Some? && KeyOk(s.escrows[j])
    ensures Booked(s, AfterRefundExpired(s, env, j).value, j, s.escrows[j].terms.token)
  {
    var e := s.escrows[j];
    NoStakeIsBooked(s, s, j, e.terms.token);
    match e.status
    case PendingFunding => CancellingIsBooked(s, j, PendingFunding, e.terms.token);
    case Open => RefundIsBooked(s, s, j);
    case InProgress =>
      ReleaseIsBooked(s, j, Some(e.terms.agent), e.terms.token);
      ReleaseBooks(s, j, Some(e.terms.agent));
      RefundIsBooked(s, Released(s, j, Some(e.terms.agent)), j);
    case Verifying =>
      AbandonIsBooked(s, j, LegacyWorker(e), e.terms.token);
      AbandonedJob(s, j, LegacyWorker(e));
      RefundIsBooked(s, Abandoned(s, j, LegacyWorker(e)), j);
    case SettlementFailed => PreparedIsBooked(s, s, j);
  }

  lemma CallbackIsBooked(s: State, j: JobId, results: seq<bool>)
    requires AfterSettleCallback(s, j, results).Some? && KeyOk(s.escrows[j])
    ensures Booked(s, AfterSettleCallback(s, j, results).value, j, s.escrows[j].terms.token)
  {
    if AllOk(results) {
      FinishingIsBooked(s, j);
    } else {
      NoStakeIsBooked(s, AfterSettleCallback(s, j, results).value, j, s.escrows[j].terms.token);
    }
  }

  // ---- the other calls ----

  /** Stakes that are taken in: a wallet gets smaller, nothing is sent. */
  lemma TakingIsBooked(s: State, u: State, j: JobId, token: AccountId)
    requires u.outbox == s.outbox && WalletSum(u.balances, NEAR_TOKEN_ID) <= WalletSum(s.balances, NEAR_TOKEN_ID)
    requires u.LedgerOf(j).stakeOut == s.LedgerOf(j).stakeOut && u.LedgerOf(j).credited == s.LedgerOf(j).credited
    ensures Booked(s, u, j, token)
  {
  }

  lemma ClaimForIsBooked(s: State, env: Env, j: JobId, pk: Pubkey, sig: seq<Byte>)
    requires AfterClaimFor(s, env, j, pk, sig).Some?
    ensures Booked(s, AfterClaimFor(s, env, j, pk, sig).value, j, s.escrows[j].terms.token)
  {
    SigningTraffic(s, env, pk, Messages.ClaimJob(j), sig);
    DebitSum(s.balances, pk, NEAR_TOKEN_ID, s.cfg.workerStake, NEAR_TOKEN_ID);
    EscrowStats.SigningKeepsStats(s, env, pk, Messages.ClaimJob(j), sig);
    TakingIsBooked(s, AfterClaimFor(s, env, j, pk, sig).value, j, s.escrows[j].terms.token);
  }

  lemma RestakedSum(balances: map<string, nat>, pk: Pubkey, stake: nat)
    requires |pk| == 64 && Debit(balances, pk, NEAR_TOKEN_ID, stake).Some?
    ensures var left := Debit(balances, pk, NEAR_TOKEN_ID, stake).value;
      WalletSum(left, NEAR_TOKEN_ID) <= WalletSum(balances, NEAR_TOKEN_ID)
      && WalletSum(Credit(left, pk, NEAR_TOKEN_ID, stake), NEAR_TOKEN_ID) <= WalletSum(balances, NEAR_TOKEN_ID)
  {
    DebitSum(balances, pk, NEAR_TOKEN_ID, stake, NEAR_TOKEN_ID);
    CreditSum(Debit(balances, pk, NEAR_TOKEN_ID, stake).value, pk, NEAR_TOKEN_ID, stake, NEAR_TOKEN_ID);
  }

  lemma CompetitiveForIsBooked(t: State, env: Env, j: JobId, result: string, pk: Pubkey)
    requires j in t.escrows && |pk| == 64 && CompetitiveResultFor(t, env, j, result, pk).Some?
    ensures Booked(t, CompetitiveResultFor(t, env, j, result, pk).value, j, t.escrows[j].terms.token)
  {
    RestakedSum(t.balances, pk, t.cfg.workerStake);
    TakingIsBooked(t, CompetitiveResultFor(t, env, j, result, pk).value, j, t.escrows[j].terms.token);
  }

  lemma StandardForIsBooked(t: State, env: Env, j: JobId, result: string, pk: Pubkey)
    requires j in t.escrows && StandardResultFor(t, env, j, result, pk).Some?
    ensures Booked(t, StandardResultFor(t, env, j, result, pk).value, j, t.escrows[j].terms.token)
  {
    NoStakeIsBooked(t, StandardResultFor(t, env, j, result, pk).value, j, t.escrows[j].terms.token);
  }

  lemma SubmitForIsBooked(s: State, env: Env, j: JobId, result: string, pk: Pubkey, sig: seq<Byte>)
    requires AfterSubmitResultFor(s, env, j, result, pk, sig).Some?
    ensures Booked(s, AfterSubmitResultFor(s, env, j, result, pk, sig).value, j, s.escrows[j].terms.token)
  {
    var known, token := Known(s, pk), s.escrows[j].terms.token;
    var t := Authorized(known, env, pk, Messages.SubmitJob(j), sig).value;
    SigningTraffic(known, env, pk, Messages.SubmitJob(j), sig);
    SigningKeepsJobs(known, env, pk, Messages.SubmitJob(j), sig);
    NoStakeIsBooked(s, t, j, token);
    if s.escrows[j].terms.mode == Competitive {
      CompetitiveForIsBooked(t, env, j, result, pk);
    } else {
      StandardForIsBooked(t, env, j, result, pk);
    }
    BookedTwice(s, t, AfterSubmitResultFor(s, env, j, result, pk, sig).value, j, token);
  }

  lemma SubmitIsNoStake(s: State, env: Env, j: JobId, result: string)
    requires AfterSubmitResult(s, env, j, result).Some?
    ensures NoStake(s, AfterSubmitResult(s, env, j, result).value, j)
  {
    if s.escrows[j].terms.mode == Competitive {
      CompetitiveIsNoStake(s, env, j, result);
    }
  }

  lemma CompetitiveIsNoStake(s: State, env: Env, j: JobId, result: string)
    requires j in s.escrows && CompetitiveResult(s, env, j, result).Some?
    ensures NoStake(s, CompetitiveResult(s, env, j, result).value, j)
  {
  }

  lemma SubmitIsBooked(s: State, env: Env, j: JobId, result: string)
    requires AfterSubmitResult(s, env, j, result).Some?
    ensures Booked(s, AfterSubmitResult(s, env, j, result).value, j, s.escrows[j].terms.token)
  {
    SubmitIsNoStake(s, env, j, result);
    NoStakeIsBooked(s, AfterSubmitResult(s, env, j, result).value, j, s.escrows[j].terms.token);
  }

  /** The refunds to all but the winner are the stakes of all but the winner. */
  lemma {:induction false} RefundsSent(j: JobId, subs: seq<Submission>, winner: nat, k: JobId)
    ensures StakesSent(Refunds(j, subs, winner), k)
      == if k != j then 0 else StakeSum(subs) - if winner < |subs| then subs[winner].stake else 0
  {
    if subs != [] {
      var i := |subs| - 1;
      var before := Refunds(j, subs[..i], winner);
      RefundsSent(j, subs[..i], winner, k);
      if i == winner {
        assert Refunds(j, subs, winner) == before + [] == before;
      } else {
        SentOne(before, Near(subs[i].worker, subs[i].stake, StakeOf(j)));
        assert winner < i ==> subs[..i][winner] == subs[winner];
      }
    }
  }

  lemma DesignatingIsBooked(s: State, env: Env, j: JobId, idx: nat, token: AccountId)
    requires j in s.escrows && idx < |s.escrows[j].submissions|
    ensures Booked(s, WinnerNamed(s, env, j, idx), j, token)
  {
    var subs, u := s.escrows[j].submissions, WinnerNamed(s, env, j, idx);
    StakeSumAt(subs, idx);
    forall k
      ensures StakesSent(u.outbox, k) == StakesSent(s.outbox, k) + StakesSent(Refunds(j, subs, idx), k)
      ensures k != j ==> StakesSent(Refunds(j, subs, idx), k) == 0
    {
      SentAppend(s.outbox, Refunds(j, subs, idx), k);
      RefundsSent(j, subs, idx, k);
    }
    RefundsSent(j, subs, idx, j);
  }

  lemma DesignateIsBooked(s: State, env: Env, j: JobId, idx: nat)
    requires AfterDesignateWinner(s, env, j, idx).Some?
    ensures Booked(s, AfterDesignateWinner(s, env, j, idx).value, j, s.escrows[j].terms.token)
  {
    var u, token := AfterDesignateWinner(s, env, j, idx).value, s.escrows[j].terms.token;
    if s.escrows[j].status == Open {
      var t := WinnerNamed(s, env, j, idx);
      DesignatingIsBooked(s, env, j, idx, token);
      NoStakeIsBooked(t, u, j, token);
      BookedTwice(s, t, u, j, token);
    } else {
      NoStakeIsBooked(s, s, j, token);
    }
  }

  lemma OpeningIsBooked(s: State, env: Env, op: Op, token: AccountId)
    requires op.CreateEscrow? || op.FtOnTransfer? || op.TakeJob?
    requires Attempt(s, env, op).Some?
    ensures Booked(s, Attempt(s, env, op).value, JobOf(op).value, token)
  {
    NoStakeIsBooked(s, Attempt(s, env, op).value, JobOf(op).value, token);
  }

  /** The token of the job a call is about. */
  function TokenOf(s: State, j: JobId): AccountId {
    if j in s.escrows then s.escrows[j].terms.token else ""
  }

  /** Whatever a call on a job sends out as its stakes, or credits to wallets, is on the job's books. */
  lemma CallIsBooked(s: State, env: Env, op: Op)
    requires KeysOk(s) && JobOf(op).Some? && Attempt(s, env, op).Some?
    ensures Booked(s, Attempt(s, env, op).value, JobOf(op).value, TokenOf(s, JobOf(op).value))
  {
    var job := JobOf(op).value;
    match op
    case TakeJobFor(j, pk, sig) => ClaimForIsBooked(s, env, j, pk, sig);
    case SubmitResult(j, result) => SubmitIsBooked(s, env, j, result);
    case SubmitResultFor(j, result, pk, sig) => SubmitForIsBooked(s, env, j, result, pk, sig);
    case DesignateWinner(j, idx) => DesignateIsBooked(s, env, j, idx);
    case VerificationCallback(j, payload) => VerificationIsBooked(s, j, payload);
    case SettleCallback(j, results) => CallbackIsBooked(s, j, results);
    case RetrySettlement(j) => RetryIsBooked(s, env, j);
    case Cancel(j) => CancelIsBooked(s, env, j);
    case ForceCancelVerifying(j) => ForceCancelIsBooked(s, env, j);
    case RefundExpired(j) => RefundExpiredIsBooked(s, env, j);
    case _ => OpeningIsBooked(s, env, op, TokenOf(s, job));
  }

  // ---- every run ----

  lemma WithdrawalSends(s: State, env: Env, op: Op)
    requires op.Withdraw? && Attempt(s, env, op).Some?
    ensures var u := Attempt(s, env, op).value;
      && u.ledgers == s.ledgers
      && u.outbox == s.outbox + [if op.token == NEAR_TOKEN_ID then Near(op.to, op.amount, Wallet)
                                 else Ft(op.token, Transfer(op.to, op.amount))]
  {
    SigningTraffic(s, env, op.pk, Messages.Withdrawal(op.token, op.amount, op.to), op.sig);
  }

  lemma OtherWalletCallsSendNothing(s: State, env: Env, op: Op, j: JobId)
    requires JobOf(op).None? && !op.Withdraw? && Attempt(s, env, op).Some?
    ensures var u := Attempt(s, env, op).value;
      u.outbox == s.outbox && u.LedgerOf(j).stakeOut == s.LedgerOf(j).stakeOut
  {
  }

  lemma WalletCallsSendNoStake(s: State, env: Env, op: Op, j: JobId)
    requires JobOf(op).None? && Attempt(s, env, op).Some?
    ensures var u := Attempt(s, env, op).value;
      StakesSent(u.outbox, j) == StakesSent(s.outbox, j) && u.LedgerOf(j).stakeOut == s.LedgerOf(j).stakeOut
  {
    if op.Withdraw? {
      WithdrawalSends(s, env, op);
      SentOne(s.outbox, Attempt(s, env, op).value.outbox[|s.outbox|]);
    } else {
      OtherWalletCallsSendNothing(s, env, op, j);
    }
  }

  /** The stakes of `j` a call returns to internal wallets: what all wallets together gain in NEAR, less the
      payout of a job paid in NEAR. */
  ghost function StakeReturned(s: State, call: Call, j: JobId): nat {
    var u, token := Apply(s, call), TokenOf(s, j);
    if JobOf(call.op) != Some(j) then 0
    else SatSub(WalletSum(u.balances, NEAR_TOKEN_ID) + NearCredited(s, token, j),
                WalletSum(s.balances, NEAR_TOKEN_ID) + NearCredited(u, token, j))
  }

  /** What a call sends and returns as stakes of `j` is on the books. */
  lemma StepIsBooked(s: State, call: Call, j: JobId)
    requires JobsInv(s) && KeysOk(s)
    ensures var u := Apply(s, call);
      StakesSent(u.outbox, j) + StakeReturned(s, call, j) + s.LedgerOf(j).stakeOut
        <= StakesSent(s.outbox, j) + u.LedgerOf(j).stakeOut
  {
    var env, op := call.env, call.op;
    if Attempt(s, env, op).Some? {
      if JobOf(op).None? {
        WalletCallsSendNoStake(s, env, op, j);
      } else if !(op.FtOnTransfer? && op.job !in s.escrows) {
        CallIsBooked(s, env, op);
        CallTouches(s, env, op);
      }
    }
  }

  /** All the stakes of `j` that were returned to wallets. */
  ghost function AllReturned(s: State, calls: seq<Call>, j: JobId): nat {
    if calls == [] then 0
    else
      var before := calls[..|calls| - 1];
      AllReturned(s, before, j) + StakeReturned(Run(s, before), calls[|calls| - 1], j)
  }

  lemma {:induction false} RunIsBooked(s: State, calls: seq<Call>, j: JobId)
    requires JobsInv(s) && KeysOk(s) && EscrowWallet.NoncesInv(s)
    ensures StakesSent(Run(s, calls).outbox, j) + AllReturned(s, calls, j) + s.LedgerOf(j).stakeOut
      <= StakesSent(s.outbox, j) + Run(s, calls).LedgerOf(j).stakeOut
  {
    if calls != [] {
      var before := calls[..|calls| - 1];
      RunIsBooked(s, before, j);
      EscrowWallet.RunKeepsNonces(s, before);
      StepIsBooked(Run(s, before), calls[|calls| - 1], j);
    }
  }

  function HeldFor(s: State, j: JobId): nat {
    if j in s.escrows then Held(s.escrows[j]) else 0
  }

  /** In every run, in NEAR that really moved: what was sent out as stakes of a job id, what wallets were
      given back as its stakes, what was kept for one of the five reasons and what its job still holds
      never exceed what came in with claims and submissions. */
  lemma StakesSentAtMostOnce(self: AccountId, owner: AccountId, allowed: seq<AccountId>, calls: seq<Call>, j: JobId)
    ensures var s0 := Initial(self, owner, allowed);
      var s := Run(s0, calls);
      && StakesSent(s.outbox, j) + AllReturned(s0, calls, j) <= s.LedgerOf(j).stakeOut
      && s.LedgerOf(j).stakeOut + EscrowBooks.AllKept(s0, calls, j) + HeldFor(s, j)
           == EscrowBooks.AllTakenIn(s0, calls, j)
  {
    var s0 := Initial(self, owner, allowed);
    RunIsBooked(s0, calls, j);
    EscrowBooks.RunBooks(s0, calls, j);
    EscrowTheorems.RunKeepsJobs(s0, calls);
    assert JobOk(Run(s0, calls), j);
  }
}

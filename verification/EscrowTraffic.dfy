/** What a call does besides moving a job: the promises it launches, the wallets it touches, and how
    much of one token the contract owes before and after. */
module EscrowTraffic {
  import opened Basics
  import opened EscrowState
  import opened EscrowSpec
  import opened EscrowRuns
  import Messages

  // ---- the contract's debt in one token ----

  /** Funded and not yet settled. */
  predicate Funded(e: Escrow) {
    || e.status == Open || e.status == InProgress || e.status == Verifying || e.status == SettlementFailed
    || (e.status == Cancelled && e.target.Some?)
  }

  function Owed(e: Escrow, token: AccountId): nat {
    if e.terms.token == token && Funded(e) then e.terms.amount else 0
  }

  /** The keys of one token's balances: a 64-character worker key, a colon, the token. */
  predicate IsOf(key: string, token: string) {
    |key| >= 64 && key[64..] == ":" + token
  }

  function TokenBalances(balances: map<string, nat>, token: string): map<string, nat> {
    map key | key in balances && IsOf(key, token) :: balances[key]
  }

  /** What all workers hold of a token inside the contract. */
  ghost function WalletSum(balances: map<string, nat>, token: string): nat {
    MapSum(TokenBalances(balances, token))
  }

  lemma WalletWrite(balances: map<string, nat>, pk: Pubkey, token: string, v: nat, t: string)
    requires |pk| == 64
    ensures WalletSum(balances[BalanceKey(pk, token) := v], t)
      == WalletSum(balances, t) + if token == t then v - BalanceOf(balances, pk, token) else 0
  {
    var key := BalanceKey(pk, token);
    assert key[64..] == ":" + token;
    assert key[64..][1..] == token && (":" + t)[1..] == t;
    var after := TokenBalances(balances[key := v], t);
    if token == t {
      assert after == TokenBalances(balances, t)[key := v];
      MapSumWrite(TokenBalances(balances, t), key, v);
    } else {
      assert after == TokenBalances(balances, t);
    }
  }

  /** What a saturating credit adds to a wallet. */
  function CreditGain(balances: map<string, nat>, pk: Pubkey, token: string, amount: nat): int {
    SatAdd(BalanceOf(balances, pk, token), amount, U128_MAX) - BalanceOf(balances, pk, token)
  }

  lemma CreditSum(balances: map<string, nat>, pk: Pubkey, token: string, amount: nat, t: string)
    requires |pk| == 64
    ensures WalletSum(Credit(balances, pk, token, amount), t)
      <= WalletSum(balances, t) + if token == t then amount else 0
    ensures WalletSum(Credit(balances, pk, token, amount), t)
      == WalletSum(balances, t) + if token == t then CreditGain(balances, pk, token, amount) else 0
  {
    WalletWrite(balances, pk, token, SatAdd(BalanceOf(balances, pk, token), amount, U128_MAX), t);
  }

  lemma DebitSum(balances: map<string, nat>, pk: Pubkey, token: string, amount: nat, t: string)
    requires |pk| == 64 && Debit(balances, pk, token, amount).Some?
    ensures WalletSum(Debit(balances, pk, token, amount).value, t) + (if token == t then amount else 0)
      == WalletSum(balances, t)
  {
    WalletWrite(balances, pk, token, BalanceOf(balances, pk, token) - amount, t);
  }

  /** What the deferred payout adds to the wallets of one token. */
  function PendingGain(balances: map<string, nat>, e: Escrow, t: string): int {
    if e.workerPubkey.Some? && e.pendingPayout.Some? && e.terms.token == t
    then CreditGain(balances, e.workerPubkey.value, t, e.pendingPayout.value) else 0
  }

  /** Applying the deferred credits of a job adds at most its payout, and only in its own token. */
  lemma PendingSum(balances: map<string, nat>, e: Escrow, t: string)
    requires t != NEAR_TOKEN_ID && (e.workerPubkey.Some? ==> |e.workerPubkey.value| == 64)
    ensures WalletSum(WithPendingCredits(balances, e), t)
      <= WalletSum(balances, t) + if e.workerPubkey.Some? && e.terms.token == t then GetOr(e.pendingPayout, 0) else 0
    ensures WalletSum(WithPendingCredits(balances, e), t) == WalletSum(balances, t) + PendingGain(balances, e, t)
  {
    if e.workerPubkey.Some? {
      var pk := e.workerPubkey.value;
      var paid := if e.pendingPayout.Some? then Credit(balances, pk, e.terms.token, e.pendingPayout.value)
          else balances;
      if e.pendingPayout.Some? {
        CreditSum(balances, pk, e.terms.token, e.pendingPayout.value, t);
      }
      if e.pendingStake.Some? {
        CreditSum(paid, pk, NEAR_TOKEN_ID, e.pendingStake.value, t);
      }
    }
  }

  // ---- promises ----

  /** Not a token transfer. */
  predicate Minor(p: Promise) {
    p.Near? || p.Yield?
  }

  /** No token transfer was launched. */
  predicate Calm(before: seq<Promise>, after: seq<Promise>) {
    before <= after && forall i :: |before| <= i < |after| ==> Minor(after[i])
  }

  predicate SameWallets(s: State, t: State) {
    t.cfg == s.cfg && t.workers == s.workers && t.accepted == s.accepted
  }

  predicate KeyOk(e: Escrow) {
    e.workerPubkey.Some? ==> |e.workerPubkey.value| == 64
  }

  /** Worker keys have 64 characters, wherever they are kept. */
  ghost predicate KeysOk(s: State) {
    && (forall pk :: pk in s.workers ==> |pk| == 64)
    && (forall j :: j in s.escrows ==> KeyOk(s.escrows[j]))
  }

  function OwedFor(s: State, j: JobId, token: AccountId): nat {
    if j in s.escrows then Owed(s.escrows[j], token) else 0
  }

  /** What is booked as credited to the worker of `j` has reached its wallet, to the last unit (short of
      the largest balance). A job paid in NEAR has the stake that is booked as returned on top. */
  predicate CreditPaid(s: State, u: State, j: JobId) {
    var before, after := s.LedgerOf(j), u.LedgerOf(j);
    after.credited != before.credited ==>
      && after.credited > before.credited && after.stakeOut >= before.stakeOut
      && j in u.escrows && u.escrows[j].workerPubkey.Some?
      && var pk, token := u.escrows[j].workerPubkey.value, u.escrows[j].terms.token;
        var paid := SatAdd(BalanceOf(s.balances, pk, token), after.credited - before.credited, U128_MAX);
        BalanceOf(u.balances, pk, token)
          == if token == NEAR_TOKEN_ID then SatAdd(paid, after.stakeOut - before.stakeOut, U128_MAX) else paid
  }

  // ---- what a call may do ----

  /** Job `j` is the same job: its terms, its wallet, what it is owed. */
  predicate SameBond(s: State, u: State, j: JobId) {
    && j in s.escrows && j in u.escrows
    && var e, e' := s.escrows[j], u.escrows[j];
      e'.terms == e.terms && e'.workerPubkey == e.workerPubkey && Funded(e') == Funded(e)
  }

  /** Paid out or refunded. */
  predicate Settled(e: Escrow) {
    e.status == Claimed || e.status == Refunded
  }

  /** Where a settlement of the job aims, on which verdict, and what it holds back, stay; a new job aims
      nowhere. */
  predicate SameAim(s: State, u: State, j: JobId) {
    if j in s.escrows then
      && j in u.escrows && u.escrows[j].terms == s.escrows[j].terms && u.escrows[j].target == s.escrows[j].target
      && u.escrows[j].verdict == s.escrows[j].verdict && u.escrows[j].pendingPayout == s.escrows[j].pendingPayout
      && (Funded(s.escrows[j]) ==> Funded(u.escrows[j])) && Settled(u.escrows[j]) == Settled(s.escrows[j])
    else j in u.escrows ==> u.escrows[j].target.None? && u.escrows[j].verdict.None? && !Settled(u.escrows[j])
  }

  predicate SameCredit(s: State, u: State, j: JobId) {
    u.LedgerOf(j).credited == s.LedgerOf(j).credited
  }

  /** No token transfer, no wallet touched, nothing credited. */
  predicate Quiet(s: State, u: State, j: JobId) {
    Calm(s.outbox, u.outbox) && u.balances == s.balances && SameCredit(s, u, j)
  }

  /** The call's last promise is one batch for `j`: the settlement plan of the job as it now stands. */
  predicate Launches(s: State, u: State, j: JobId) {
    && u.balances == s.balances && SameCredit(s, u, j) && j in u.escrows
    && var e := u.escrows[j];
      var plan := Plan(e, s.cfg.owner);
      && e.target.Some? && plan.Some? && plan.value != []
      && |u.outbox| > 0 && u.outbox[|u.outbox| - 1] == Batch(j, e.terms.token, plan.value)
      && Calm(s.outbox, u.outbox[..|u.outbox| - 1])
  }

  /** The payout of `d` was credited inside, and its job is finished. */
  predicate PaysInside(s: State, u: State, j: JobId, d: Escrow) {
    && Calm(s.outbox, u.outbox) && u.balances == WithPendingCredits(s.balances, d)
    && j in s.escrows && j in u.escrows && u.escrows[j] == FinishedJob(d)
    && d.terms == s.escrows[j].terms && d.workerPubkey == s.escrows[j].workerPubkey
    && u.LedgerOf(j).credited == FinishedLedger(d, s.LedgerOf(j)).credited
    && u.LedgerOf(j).stakeOut == FinishedLedger(d, s.LedgerOf(j)).stakeOut
    && (d.workerPubkey.Some? ==> GetOr(d.pendingPayout, 0) <= if Funded(s.escrows[j]) then d.terms.amount else 0)
  }

  /** What a settling call may do: move the job on quietly, launch one batch, or pay inside. */
  ghost predicate Settles(s: State, u: State, j: JobId) {
    && SameWallets(s, u)
    && ((SameBond(s, u, j) && (Quiet(s, u, j) || Launches(s, u, j))) || exists d :: PaysInside(s, u, j, d))
  }

  /** What any other call may do: no token transfer, and the debt stays the same. */
  ghost predicate Still(s: State, u: State, j: JobId, token: AccountId) {
    && Calm(s.outbox, u.outbox) && CreditPaid(s, u, j)
    && WalletSum(u.balances, token) == WalletSum(s.balances, token) && OwedFor(u, j, token) == OwedFor(s, j, token)
  }

  // ---- and what that means ----

  lemma CreditsArrive(balances: map<string, nat>, e: Escrow)
    requires e.workerPubkey.Some? && e.pendingPayout.Some?
    ensures var pk, token := e.workerPubkey.value, e.terms.token;
      var paid := SatAdd(BalanceOf(balances, pk, token), e.pendingPayout.value, U128_MAX);
      BalanceOf(WithPendingCredits(balances, e), pk, token)
        == if token == NEAR_TOKEN_ID then SatAdd(paid, GetOr(e.pendingStake, 0), U128_MAX) else paid
  {
    var pk, token := e.workerPubkey.value, e.terms.token;
    assert (pk + ":" + token)[|pk| + 1..] == token && (pk + ":" + NEAR_TOKEN_ID)[|pk| + 1..] == NEAR_TOKEN_ID;
  }

  lemma PayingInsidePays(s: State, u: State, j: JobId, d: Escrow)
    requires PaysInside(s, u, j, d)
    ensures CreditPaid(s, u, j)
  {
    if d.workerPubkey.Some? && d.pendingPayout.Some? {
      CreditsArrive(s.balances, d);
    }
  }

  lemma PayingInsideOwes(s: State, u: State, j: JobId, d: Escrow, token: AccountId)
    requires PaysInside(s, u, j, d) && KeyOk(s.escrows[j]) && token != NEAR_TOKEN_ID
    ensures WalletSum(u.balances, token) + OwedFor(u, j, token) <= WalletSum(s.balances, token) + OwedFor(s, j, token)
  {
    PendingSum(s.balances, d, token);
  }

  lemma SettlingPays(s: State, u: State, j: JobId)
    requires Settles(s, u, j)
    ensures CreditPaid(s, u, j)
  {
    if d :| PaysInside(s, u, j, d) {
      PayingInsidePays(s, u, j, d);
    }
  }

  lemma SettlingOwes(s: State, u: State, j: JobId, token: AccountId)
    requires Settles(s, u, j) && KeyOk(s.escrows[j]) && token != NEAR_TOKEN_ID
    ensures Calm(s.outbox, u.outbox) || Launches(s, u, j)
    ensures WalletSum(u.balances, token) + OwedFor(u, j, token) <= WalletSum(s.balances, token) + OwedFor(s, j, token)
  {
    if d :| PaysInside(s, u, j, d) {
      PayingInsideOwes(s, u, j, d, token);
    }
  }

  lemma QuietIsStill(s: State, u: State, j: JobId, token: AccountId)
    requires SameBond(s, u, j) && Quiet(s, u, j)
    ensures Still(s, u, j, token)
  {
  }

  lemma KeysCarry(s: State, u: State, j: JobId)
    requires KeysOk(s) && u.workers.Keys == s.workers.Keys && j in u.escrows && KeyOk(u.escrows[j])
    requires u.escrows == s.escrows[j := u.escrows[j]]
    ensures KeysOk(u)
  {
  }

  // ---- settlement ----

  /** Everything a call does before it settles: no credit, no token transfer. */
  predicate Prepares(s: State, t: State, j: JobId) {
    SameWallets(s, t) && Quiet(s, t, j)
  }

  lemma ReleasePrepares(s: State, j: JobId, to: Option<AccountId>)
    requires j in s.escrows
    ensures Prepares(s, Released(s, j, to), j)
  {
  }

  lemma AbandonPrepares(s: State, j: JobId, to: Option<AccountId>)
    requires j in s.escrows
    ensures Prepares(s, Abandoned(s, j, to), j)
  {
    ReleasePrepares(s, j, to);
  }

  lemma CallingOffPrepares(s: State, j: JobId)
    requires j in s.escrows
    ensures Prepares(s, CalledOff(s, j), j)
  {
    var t := Abandoned(s, j, s.escrows[j].worker);
    AbandonPrepares(s, j, s.escrows[j].worker);
    assert Prepares(t, CalledOff(s, j), j);
  }

  lemma JudgingPrepares(s: State, j: JobId, payload: Payload)
    requires j in s.escrows
    ensures Prepares(s, JudgedState(s, j, payload), j)
    ensures payload.Parsed? ==> JudgedState(s, j, payload).LedgerOf(j) == s.LedgerOf(j)
  {
    ReleasePrepares(s, j, LegacyWorker(s.escrows[j]));
  }

  lemma DeferredPlan(e: Escrow, owner: AccountId)
    ensures Plan(Deferred(e), owner) == Plan(e, owner)
    ensures Deferred(e).workerPubkey == e.workerPubkey && Deferred(e).terms == e.terms
    ensures Deferred(e).target == e.target && Funded(Deferred(e)) == Funded(e)
  {
  }

  lemma FinishedTraffic(s: State, j: JobId)
    requires j in s.escrows
    requires s.escrows[j].workerPubkey.Some? ==>
      GetOr(s.escrows[j].pendingPayout, 0) <= if Funded(s.escrows[j]) then s.escrows[j].terms.amount else 0
    ensures SameWallets(s, Finished(s, j)) && PaysInside(s, Finished(s, j), j, s.escrows[j])
  {
  }

  /** A settlement either launches its plan or, with nothing to transfer, pays inside. */
  lemma SettleLaunchesPlan(s: State, t: State, j: JobId, plan: seq<Transfer>)
    requires j in s.escrows && Prepares(s, t, j) && j in t.escrows && t.escrows[j].target.Some?
    requires Plan(t.escrows[j], t.cfg.owner) == Some(plan) && plan != []
    requires t.escrows[j].terms == s.escrows[j].terms && t.escrows[j].workerPubkey == s.escrows[j].workerPubkey
    requires Funded(t.escrows[j]) == Funded(s.escrows[j])
    ensures AfterSettle(t, j).Some? && Settles(s, AfterSettle(t, j).value, j)
    ensures SameBond(s, AfterSettle(t, j).value, j) && Launches(s, AfterSettle(t, j).value, j)
  {
    var e, u := t.escrows[j], t.Put(j, Deferred(t.escrows[j])).Send(Batch(j, t.escrows[j].terms.token, plan));
    SettleLaunches(t, j, plan);
    DeferredPlan(e, t.cfg.owner);
    assert u.outbox[..|u.outbox| - 1] == t.outbox;
    assert u.escrows[j] == Deferred(e);
    assert Launches(s, u, j) && SameBond(s, u, j);
  }

  lemma SettlePaysInside(t: State, j: JobId)
    requires j in t.escrows && Plan(t.escrows[j], t.cfg.owner) == Some([]) && Funded(t.escrows[j])
    ensures AfterSettle(t, j).Some? && SameWallets(t, AfterSettle(t, j).value)
    ensures PaysInside(t, AfterSettle(t, j).value, j, Deferred(t.escrows[j]))
  {
    var e := t.escrows[j];
    var v := t.Put(j, Deferred(e));
    DeferredPlan(e, t.cfg.owner);
    FinishedTraffic(v, j);
    assert AfterSettle(t, j) == Some(Finished(v, j)) && v.LedgerOf(j) == t.LedgerOf(j);
  }

  /** The same from a prepared state whose stake books did not move. */
  lemma SettleTraffic(s: State, t: State, j: JobId)
    requires j in s.escrows && Prepares(s, t, j) && j in t.escrows && AfterSettle(t, j).Some?
    requires t.escrows[j].terms == s.escrows[j].terms && t.escrows[j].workerPubkey == s.escrows[j].workerPubkey
    requires Funded(t.escrows[j]) && Funded(s.escrows[j])
    requires t.LedgerOf(j) == s.LedgerOf(j) || t.escrows[j].target == Some(FullRefund)
    ensures Settles(s, AfterSettle(t, j).value, j)
  {
    var e := t.escrows[j];
    var plan := Plan(e, t.cfg.owner).value;
    if plan != [] {
      SettleLaunchesPlan(s, t, j, plan);
    } else {
      SettlePaysInside(t, j);
      InsideFrom(s, t, AfterSettle(t, j).value, j, Deferred(e));
    }
  }

  lemma InsideFrom(s: State, t: State, u: State, j: JobId, d: Escrow)
    requires j in s.escrows && Prepares(s, t, j) && t.LedgerOf(j) == s.LedgerOf(j)
    requires SameWallets(t, u) && PaysInside(t, u, j, d)
    requires t.escrows[j].terms == s.escrows[j].terms && t.escrows[j].workerPubkey == s.escrows[j].workerPubkey
    requires Funded(t.escrows[j]) == Funded(s.escrows[j])
    ensures Settles(s, u, j)
  {
    CalmTwice(s.outbox, t.outbox, u.outbox);
    assert PaysInside(s, u, j, d);
  }

  lemma CalmTwice(a: seq<Promise>, b: seq<Promise>, c: seq<Promise>)
    requires Calm(a, b) && Calm(b, c)
    ensures Calm(a, c)
  {
  }

  // ---- the calls that settle ----

  lemma RefundTraffic(s: State, t: State, j: JobId)
    requires j in s.escrows && j in t.escrows && Prepares(s, t, j) && FullyRefunding(t, j).Some?
    requires t.escrows[j].workerPubkey == s.escrows[j].workerPubkey && t.escrows[j].terms == s.escrows[j].terms
    requires Funded(s.escrows[j]) && (Funded(t.escrows[j]) || t.escrows[j].status == Cancelled)
    ensures Settles(s, FullyRefunding(t, j).value, j)
  {
    var t' := t.Put(j, t.escrows[j].(target := Some(FullRefund)));
    assert Prepares(s, t', j);
    SettleTraffic(s, t', j);
  }

  lemma VerificationTraffic(s: State, j: JobId, payload: Payload)
    requires AfterVerification(s, j, payload).Some?
    ensures Settles(s, AfterVerification(s, j, payload).value, j)
  {
    if s.escrows[j].status == Verifying {
      var t := JudgedState(s, j, payload);
      JudgingPrepares(s, j, payload);
      JudgedShape(s, j, payload);
      SettleTraffic(s, t, j);
    }
  }

  lemma CancellingTraffic(s: State, j: JobId, e: Escrow, from: Status)
    requires j in s.escrows && e.terms == s.escrows[j].terms && e.workerPubkey == s.escrows[j].workerPubkey
    requires Funded(e.(status := Cancelled)) == Funded(s.escrows[j])
    ensures Settles(s, MarkedCancelled(s.Put(j, e), j, from), j)
  {
    var u := MarkedCancelled(s.Put(j, e), j, from);
    assert Quiet(s, u, j) && SameBond(s, u, j);
  }

  lemma RetryTraffic(s: State, env: Env, j: JobId)
    requires AfterRetry(s, env, j).Some?
    ensures Settles(s, AfterRetry(s, env, j).value, j)
  {
    hide AfterRetry;
    RetryIs(s, env, j);
    var e := s.escrows[j].(retryCount := (s.escrows[j].retryCount + 1) % 256);
    if e.retryCount > MAX_SETTLEMENT_RETRIES {
      CancellingTraffic(s, j, e, SettlementFailed);
      GivenUpIsMarked(s, j, e);
    } else {
      RetriedTraffic(s, j, e);
    }
  }

  lemma RetriedTraffic(s: State, j: JobId, e: Escrow)
    requires j in s.escrows && Retryable(s.escrows[j]) && e == s.escrows[j].(retryCount := e.retryCount)
    requires AfterSettle(s.Put(j, e), j).Some?
    ensures Settles(s, AfterSettle(s.Put(j, e), j).value, j)
  {
    SettleTraffic(s, s.Put(j, e), j);
  }

  lemma GivenUpIsMarked(s: State, j: JobId, e: Escrow)
    ensures GivenUp(s, j, e) == MarkedCancelled(s.Put(j, e), j, SettlementFailed)
  {
    assert s.escrows[j := e][j := e.(status := Cancelled)] == s.escrows[j := e.(status := Cancelled)];
  }

  lemma CancelTraffic(s: State, env: Env, j: JobId)
    requires AfterCancel(s, env, j).Some? && JobInv(s.escrows[j], s.LedgerOf(j))
    ensures Settles(s, AfterCancel(s, env, j).value, j)
  {
    if s.escrows[j].status == Open {
      RefundTraffic(s, s, j);
    } else {
      UnfundedTraffic(s, j);
    }
  }

  lemma UnfundedTraffic(s: State, j: JobId)
    requires j in s.escrows && JobInv(s.escrows[j], s.LedgerOf(j)) && s.escrows[j].status == PendingFunding
    ensures Settles(s, CancelledUnfunded(s, j), j)
  {
    assert s.escrows[j := s.escrows[j]] == s.escrows;
    CancellingTraffic(s, j, s.escrows[j], PendingFunding);
  }

  lemma ForceCancelTraffic(s: State, env: Env, j: JobId)
    requires AfterForceCancel(s, env, j).Some?
    ensures Settles(s, AfterForceCancel(s, env, j).value, j)
  {
    CallingOffPrepares(s, j);
    CalledOffJob(s, j);
    RefundTraffic(s, CalledOff(s, j), j);
  }

  lemma RefundExpiredTraffic(s: State, env: Env, j: JobId)
    requires AfterRefundExpired(s, env, j).Some? && JobInv(s.escrows[j], s.LedgerOf(j))
    ensures Settles(s, AfterRefundExpired(s, env, j).value, j)
  {
    var e := s.escrows[j];
    match e.status
    case PendingFunding => UnfundedTraffic(s, j);
    case Open => RefundTraffic(s, s, j);
    case InProgress =>
      ReleasePrepares(s, j, Some(e.terms.agent));
      ReleaseBooks(s, j, Some(e.terms.agent));
      RefundTraffic(s, Released(s, j, Some(e.terms.agent)), j);
    case Verifying =>
      AbandonPrepares(s, j, LegacyWorker(e));
      AbandonedJob(s, j, LegacyWorker(e));
      RefundTraffic(s, Abandoned(s, j, LegacyWorker(e)), j);
    case SettlementFailed => SettleTraffic(s, s, j);
  }

  // ---- the other calls ----

  lemma SigningTraffic(s: State, env: Env, pk: Pubkey, a: Messages.Action, sig: seq<Byte>)
    requires Authorized(s, env, pk, a, sig).Some?
    ensures var t := Authorized(s, env, pk, a, sig).value;
      && |pk| == 64 && t.balances == s.balances && t.outbox == s.outbox && t.cfg == s.cfg
      && t.escrows == s.escrows && t.ledgers == s.ledgers && t.workers.Keys == s.workers.Keys
  {
  }

  /** A wallet's stake went into job `j`, or came back at once. */
  predicate Stakes(s: State, u: State, j: JobId, pk: Pubkey) {
    var left := Debit(s.balances, pk, NEAR_TOKEN_ID, s.cfg.workerStake);
    && left.Some? && Calm(s.outbox, u.outbox) && SameCredit(s, u, j)
    && (u.balances == left.value || u.balances == Credit(left.value, pk, NEAR_TOKEN_ID, s.cfg.workerStake))
    && j in s.escrows && j in u.escrows
    && u.escrows[j].terms == s.escrows[j].terms && Funded(u.escrows[j]) == Funded(s.escrows[j])
  }

  lemma StakingIsStill(s: State, u: State, j: JobId, pk: Pubkey, token: AccountId)
    requires Stakes(s, u, j, pk) && |pk| == 64 && token != NEAR_TOKEN_ID
    ensures Still(s, u, j, token)
  {
    DebitSum(s.balances, pk, NEAR_TOKEN_ID, s.cfg.workerStake, token);
    CreditSum(Debit(s.balances, pk, NEAR_TOKEN_ID, s.cfg.workerStake).value, pk, NEAR_TOKEN_ID, s.cfg.workerStake,
        token);
  }

  /** What `Still` says only reads these. */
  lemma StillFrom(s: State, t: State, u: State, j: JobId, token: AccountId)
    requires Still(t, u, j, token)
    requires t.outbox == s.outbox && t.balances == s.balances && t.ledgers == s.ledgers && t.escrows == s.escrows
    ensures Still(s, u, j, token)
  {
  }

  lemma BindingShape(s: State, j: JobId, worker: AccountId, pk: Option<Pubkey>, stake: nat)
    requires j in s.escrows && s.escrows[j].status == Open
    ensures var u := Bound(s, j, worker, pk, stake);
      && u.outbox == s.outbox && u.balances == s.balances && SameCredit(s, u, j) && u.workers == s.workers
      && j in u.escrows && u.escrows == s.escrows[j := u.escrows[j]]
      && u.escrows[j].terms == s.escrows[j].terms && u.escrows[j].workerPubkey == pk && Funded(u.escrows[j])
      && SameAim(s, u, j)
  {
  }

  lemma ClaimTraffic(s: State, env: Env, j: JobId, token: AccountId)
    requires AfterClaim(s, env, j).Some? && KeysOk(s)
    ensures var u := AfterClaim(s, env, j).value; Still(s, u, j, token) && KeysOk(u)
  {
    BindingShape(s, j, env.signer, s.escrows[j].workerPubkey, env.deposit);
    QuietIsStill(s, AfterClaim(s, env, j).value, j, token);
    KeysCarry(s, AfterClaim(s, env, j).value, j);
  }

  lemma ClaimedForTraffic(t: State, env: Env, j: JobId, pk: Pubkey, token: AccountId)
    requires j in t.escrows && ClaimedFor(t, env, j, pk).Some? && KeysOk(t) && |pk| == 64 && token != NEAR_TOKEN_ID
    ensures var u := ClaimedFor(t, env, j, pk).value; Still(t, u, j, token) && KeysOk(u)
  {
    var left := Debit(t.balances, pk, NEAR_TOKEN_ID, t.cfg.workerStake).value;
    var u := ClaimedFor(t, env, j, pk).value;
    BindingShape(t.(balances := left), j, env.signer, Some(pk), t.cfg.workerStake);
    StakingIsStill(t, u, j, pk, token);
    KeysCarry(t, u, j);
  }

  lemma ClaimForTraffic(s: State, env: Env, j: JobId, pk: Pubkey, sig: seq<Byte>, token: AccountId)
    requires AfterClaimFor(s, env, j, pk, sig).Some? && KeysOk(s) && token != NEAR_TOKEN_ID
    ensures var u := AfterClaimFor(s, env, j, pk, sig).value; Still(s, u, j, token) && KeysOk(u)
  {
    var t := Authorized(s, env, pk, Messages.ClaimJob(j), sig).value;
    SigningTraffic(s, env, pk, Messages.ClaimJob(j), sig);
    ClaimedForTraffic(t, env, j, pk, token);
    StillFrom(s, t, AfterClaimFor(s, env, j, pk, sig).value, j, token);
  }

  /** What a submission or a yield does to the job: nothing that is owed or credited. */
  predicate Submits(s: State, u: State, j: JobId) {
    && Calm(s.outbox, u.outbox) && SameCredit(s, u, j) && u.workers == s.workers && SameBond(s, u, j)
    && SameAim(s, u, j) && u.escrows == s.escrows[j := u.escrows[j]]
  }

  lemma SubmissionShape(s: State, j: JobId, sub: Submission, paid: nat)
    requires j in s.escrows
    ensures var u := WithSubmission(s, j, sub, paid); Submits(s, u, j) && u.balances == s.balances
  {
  }

  lemma YieldShape(s: State, env: Env, j: JobId, e: Escrow, from: Option<Status>)
    requires j in s.escrows && e.terms == s.escrows[j].terms && e.workerPubkey == s.escrows[j].workerPubkey
    requires Funded(e) == Funded(s.escrows[j]) && e.target == s.escrows[j].target
    requires e.pendingPayout == s.escrows[j].pendingPayout
    requires e.verdict == s.escrows[j].verdict && Settled(e) == Settled(s.escrows[j])
    ensures var t := s.Put(j, e);
      var u := Yielded(if from.Some? then t.Moved(from.value, Verifying) else t, env, j);
      Submits(s, u, j) && u.balances == s.balances
  {
  }

  lemma SubmittingIsStill(s: State, u: State, j: JobId, token: AccountId)
    requires Submits(s, u, j) && u.balances == s.balances && KeysOk(s)
    ensures Still(s, u, j, token) && KeysOk(u)
  {
    QuietIsStill(s, u, j, token);
    KeysCarry(s, u, j);
  }

  lemma SameIsStill(s: State, u: State, j: JobId, token: AccountId)
    requires KeysOk(s) && u.workers.Keys == s.workers.Keys && u.escrows == s.escrows && u.balances == s.balances
    requires u.ledgers == s.ledgers && Calm(s.outbox, u.outbox)
    ensures Still(s, u, j, token) && KeysOk(u)
  {
  }

  lemma CompetitiveForTraffic(t: State, env: Env, j: JobId, result: string, pk: Pubkey, token: AccountId)
    requires j in t.escrows && CompetitiveResultFor(t, env, j, result, pk).Some?
    requires KeysOk(t) && |pk| == 64 && token != NEAR_TOKEN_ID
    ensures var u := CompetitiveResultFor(t, env, j, result, pk).value; Still(t, u, j, token) && KeysOk(u)
  {
    var left := Debit(t.balances, pk, NEAR_TOKEN_ID, t.cfg.workerStake).value;
    var u := CompetitiveResultFor(t, env, j, result, pk).value;
    if !SubmittedWith(t.escrows[j].submissions, pk) {
      SubmissionShape(t.(balances := left), j, Submission(env.signer, result, t.cfg.workerStake, Some(pk)),
          t.cfg.workerStake);
      KeysCarry(t, u, j);
    }
    StakingIsStill(t, u, j, pk, token);
  }

  lemma StandardForTraffic(t: State, env: Env, j: JobId, result: string, pk: Pubkey, token: AccountId)
    requires j in t.escrows && StandardResultFor(t, env, j, result, pk).Some? && KeysOk(t)
    ensures var u := StandardResultFor(t, env, j, result, pk).value; Still(t, u, j, token) && KeysOk(u)
  {
    var u := StandardResultFor(t, env, j, result, pk).value;
    if t.escrows[j].status == InProgress {
      YieldShape(t, env, j, Submitted(t.escrows[j], env, result), Some(InProgress));
      SubmittingIsStill(t, u, j, token);
    } else {
      SameIsStill(t, u, j, token);
    }
  }

  lemma KnownKeys(s: State, env: Env, pk: Pubkey, a: Messages.Action, sig: seq<Byte>)
    requires Authorized(Known(s, pk), env, pk, a, sig).Some? && KeysOk(s)
    ensures var t := Authorized(Known(s, pk), env, pk, a, sig).value;
      && KeysOk(t) && |pk| == 64 && t.cfg == s.cfg && t.balances == s.balances && t.outbox == s.outbox
      && t.escrows == s.escrows && t.ledgers == s.ledgers
  {
    SigningTraffic(Known(s, pk), env, pk, a, sig);
  }

  lemma SubmitForTraffic(s: State, env: Env, j: JobId, result: string, pk: Pubkey, sig: seq<Byte>, token: AccountId)
    requires AfterSubmitResultFor(s, env, j, result, pk, sig).Some? && KeysOk(s) && token != NEAR_TOKEN_ID
    ensures var u := AfterSubmitResultFor(s, env, j, result, pk, sig).value; Still(s, u, j, token) && KeysOk(u)
  {
    var t := Authorized(Known(s, pk), env, pk, Messages.SubmitJob(j), sig).value;
    var u := AfterSubmitResultFor(s, env, j, result, pk, sig).value;
    KnownKeys(s, env, pk, Messages.SubmitJob(j), sig);
    assert Still(t, u, j, token) && KeysOk(u) by {
      if s.escrows[j].terms.mode == Competitive {
        CompetitiveForTraffic(t, env, j, result, pk, token);
      } else {
        StandardForTraffic(t, env, j, result, pk, token);
      }
    }
    StillFrom(s, t, u, j, token);
  }

  lemma CompetitiveTraffic(s: State, env: Env, j: JobId, result: string, token: AccountId)
    requires j in s.escrows && CompetitiveResult(s, env, j, result).Some? && KeysOk(s)
    ensures var u := CompetitiveResult(s, env, j, result).value; Still(s, u, j, token) && KeysOk(u)
  {
    var u, sub := CompetitiveResult(s, env, j, result).value, Submission(env.signer, result, s.cfg.workerStake, None);
    if !SubmittedBy(s.escrows[j].submissions, env.signer) {
      SubmissionShape(s, j, sub, env.deposit);
      SubmittingIsStill(s, u, j, token);
    } else {
      SameIsStill(s, u, j, token);
    }
  }

  lemma StandardTraffic(s: State, env: Env, j: JobId, result: string, token: AccountId)
    requires j in s.escrows && StandardResult(s, env, j, result).Some? && KeysOk(s)
    ensures var u := StandardResult(s, env, j, result).value; Still(s, u, j, token) && KeysOk(u)
  {
    var u := StandardResult(s, env, j, result).value;
    if s.escrows[j].status == InProgress {
      YieldShape(s, env, j, Submitted(s.escrows[j], env, result), None);
      SubmittingIsStill(s, u, j, token);
    } else {
      SameIsStill(s, u, j, token);
    }
  }

  lemma SubmitTraffic(s: State, env: Env, j: JobId, result: string, token: AccountId)
    requires AfterSubmitResult(s, env, j, result).Some? && KeysOk(s)
    ensures var u := AfterSubmitResult(s, env, j, result).value; Still(s, u, j, token) && KeysOk(u)
  {
    if s.escrows[j].terms.mode == Competitive {
      CompetitiveTraffic(s, env, j, result, token);
    } else {
      StandardTraffic(s, env, j, result, token);
    }
  }

  lemma {:induction false} RefundsAreNear(j: JobId, subs: seq<Submission>, winner: nat)
    ensures forall i :: 0 <= i < |Refunds(j, subs, winner)| ==> Minor(Refunds(j, subs, winner)[i])
  {
    if subs != [] {
      RefundsAreNear(j, subs[..|subs| - 1], winner);
    }
  }

  lemma WinnerShape(s: State, env: Env, j: JobId, idx: nat)
    requires j in s.escrows && s.escrows[j].status == Open && idx < |s.escrows[j].submissions|
    ensures var u := WinnerBound(s, env, j, idx);
      && u.outbox == s.outbox && u.balances == s.balances && SameCredit(s, u, j) && u.workers == s.workers
      && SameBond(s, u, j) && SameAim(s, u, j) && u.escrows == s.escrows[j := u.escrows[j]]
  {
  }

  lemma DesignateTraffic(s: State, env: Env, j: JobId, idx: nat, token: AccountId)
    requires AfterDesignateWinner(s, env, j, idx).Some? && KeysOk(s)
    ensures var u := AfterDesignateWinner(s, env, j, idx).value; Still(s, u, j, token) && KeysOk(u)
  {
    var u := AfterDesignateWinner(s, env, j, idx).value;
    if s.escrows[j].status == Open {
      var t := s.(outbox := s.outbox + Refunds(j, s.escrows[j].submissions, idx));
      RefundsAreNear(j, s.escrows[j].submissions, idx);
      WinnerShape(t, env, j, idx);
      assert u == Yielded(WinnerBound(t, env, j, idx), env, j);
      assert Submits(s, u, j);
      SubmittingIsStill(s, u, j, token);
    } else {
      SameIsStill(s, u, j, token);
    }
  }

  lemma CreateTraffic(s: State, env: Env, a: CreateArgs, token: AccountId)
    requires AfterCreate(s, env, a).Some? && KeysOk(s)
    ensures var u := AfterCreate(s, env, a).value; Still(s, u, a.job, token) && KeysOk(u)
  {
    KeysCarry(s, AfterCreate(s, env, a).value, a.job);
  }

  lemma ForeignFundingTraffic(s: State, env: Env, sender: AccountId, amount: nat, j: JobId, token: AccountId)
    requires KeysOk(s) && env.predecessor != token
    ensures var u := AfterFtOnTransfer(s, env, sender, amount, j).0; Still(s, u, j, token) && KeysOk(u)
  {
    FundingTraffic(s, env, sender, amount, j);
  }

  /** A settlement's callback on a job in another token. */
  lemma ForeignCallbackTraffic(s: State, j: JobId, results: seq<bool>, token: AccountId)
    requires AfterSettleCallback(s, j, results).Some? && JobInv(s.escrows[j], s.LedgerOf(j)) && KeysOk(s)
    requires token != NEAR_TOKEN_ID && s.escrows[j].terms.token != token
    ensures var u := AfterSettleCallback(s, j, results).value; Still(s, u, j, token) && KeysOk(u)
  {
    var u := AfterSettleCallback(s, j, results).value;
    if AllOk(results) {
      FinishedTraffic(s, j);
      PayingInsidePays(s, u, j, s.escrows[j]);
      PendingSum(s.balances, s.escrows[j], token);
    } else {
      FailedShape(s, j);
      QuietIsStill(s, u, j, token);
    }
    CallbackKeepsKeys(s, j, results);
  }

  lemma FailedShape(s: State, j: JobId)
    requires j in s.escrows && s.escrows[j].target.Some? && JobInv(s.escrows[j], s.LedgerOf(j))
    ensures var u := s.Put(j, s.escrows[j].(status := SettlementFailed)).Moved(s.escrows[j].status, SettlementFailed);
      Quiet(s, u, j) && SameBond(s, u, j) && SameWallets(s, u)
  {
  }

  /** Money an accepted deposit adds to the debt, and the rest that is handed back. */
  lemma FundingTraffic(s: State, env: Env, sender: AccountId, amount: nat, j: JobId)
    requires KeysOk(s)
    ensures var (u, unused) := AfterFtOnTransfer(s, env, sender, amount, j);
      && u.outbox == s.outbox && u.balances == s.balances && KeysOk(u)
      && (unused == 0 || unused == amount)
      && OwedFor(u, j, env.predecessor) + unused <= OwedFor(s, j, env.predecessor) + amount
      && SameCredit(s, u, j)
  {
  }

  lemma WithdrawTraffic(s: State, env: Env, pk: Pubkey, to: AccountId, tok: string, amount: nat, sig: seq<Byte>,
      token: AccountId)
    requires AfterWithdraw(s, env, pk, tok, amount, to, sig).Some? && KeysOk(s)
    ensures var u := AfterWithdraw(s, env, pk, tok, amount, to, sig).value;
      && KeysOk(u) && u.escrows == s.escrows
      && u.outbox == s.outbox
          + [if tok == NEAR_TOKEN_ID then Near(to, amount, Wallet) else Ft(tok, Transfer(to, amount))]
      && WalletSum(u.balances, token) + (if tok == token then amount else 0) == WalletSum(s.balances, token)
  {
    SigningTraffic(s, env, pk, Messages.Withdrawal(tok, amount, to), sig);
    DebitSum(s.balances, pk, tok, amount, token);
  }

  lemma WalletTraffic(s: State, env: Env, op: Op, token: AccountId)
    requires Attempt(s, env, op).Some? && KeysOk(s) && token != NEAR_TOKEN_ID
    requires op.Configure? || op.PauseWorkers? || op.RegisterWorker? || op.DepositToWorker? || op.LinkNearAccount?
    ensures var u := Attempt(s, env, op).value;
      && KeysOk(u) && u.escrows == s.escrows && u.outbox == s.outbox
      && WalletSum(u.balances, token) == WalletSum(s.balances, token)
  {
    if op.DepositToWorker? {
      CreditSum(s.balances, op.pk, NEAR_TOKEN_ID, env.deposit, token);
    } else if op.LinkNearAccount? {
      SigningTraffic(s, env, op.pk, Messages.Link(op.account), op.sig);
    }
  }

  predicate SettlingOp(op: Op) {
    || op.VerificationCallback? || op.RetrySettlement? || op.Cancel? || op.ForceCancelVerifying? || op.RefundExpired?
  }

  lemma SettlingTraffic(s: State, env: Env, op: Op)
    requires JobsInv(s) && SettlingOp(op) && Attempt(s, env, op).Some?
    ensures Settles(s, Attempt(s, env, op).value, JobOf(op).value)
  {
    var j := JobOf(op).value;
    assert JobOk(s, j);
    match op
    case VerificationCallback(_, payload) => VerificationTraffic(s, j, payload);
    case RetrySettlement(_) => RetryTraffic(s, env, j);
    case Cancel(_) => CancelTraffic(s, env, j);
    case ForceCancelVerifying(_) => ForceCancelTraffic(s, env, j);
    case RefundExpired(_) => RefundExpiredTraffic(s, env, j);
  }

  /** The calls on a job that move none of the given token. */
  predicate StillOp(s: State, env: Env, op: Op, token: AccountId) {
    || op.CreateEscrow? || op.TakeJob? || op.TakeJobFor? || op.SubmitResult? || op.SubmitResultFor?
    || op.DesignateWinner?
    || (op.FtOnTransfer? && env.predecessor != token)
    || (op.SettleCallback? && op.job in s.escrows && s.escrows[op.job].terms.token != token)
  }

  lemma StillTraffic(s: State, env: Env, op: Op, token: AccountId)
    requires JobsInv(s) && KeysOk(s) && token != NEAR_TOKEN_ID && StillOp(s, env, op, token)
        && Attempt(s, env, op).Some?
    ensures var u, j := Attempt(s, env, op).value, JobOf(op).value; Still(s, u, j, token) && KeysOk(u)
  {
    match op
    case CreateEscrow(a) => CreateTraffic(s, env, a, token);
    case FtOnTransfer(sender, amount, j) => ForeignFundingTraffic(s, env, sender, amount, j, token);
    case TakeJob(j) => ClaimTraffic(s, env, j, token);
    case TakeJobFor(j, pk, sig) => ClaimForTraffic(s, env, j, pk, sig, token);
    case SubmitResult(j, result) => SubmitTraffic(s, env, j, result, token);
    case SubmitResultFor(j, result, pk, sig) => SubmitForTraffic(s, env, j, result, pk, sig, token);
    case DesignateWinner(j, idx) => DesignateTraffic(s, env, j, idx, token);
    case SettleCallback(j, results) =>
      assert JobOk(s, j);
      ForeignCallbackTraffic(s, j, results, token);
  }

  /** The calls on a job that neither settle it nor report a settlement. */
  predicate HarmlessOp(op: Op) {
    || op.CreateEscrow? || op.FtOnTransfer? || op.TakeJob? || op.TakeJobFor? || op.SubmitResult? || op.SubmitResultFor?
    || op.DesignateWinner?
  }

  lemma ClaimForKeepsAim(s: State, env: Env, j: JobId, pk: Pubkey, sig: seq<Byte>)
    requires AfterClaimFor(s, env, j, pk, sig).Some?
    ensures SameAim(s, AfterClaimFor(s, env, j, pk, sig).value, j)
  {
    var t := Authorized(s, env, pk, Messages.ClaimJob(j), sig).value;
    var left := Debit(t.balances, pk, NEAR_TOKEN_ID, t.cfg.workerStake).value;
    SigningTraffic(s, env, pk, Messages.ClaimJob(j), sig);
    BindingShape(t.(balances := left), j, env.signer, Some(pk), t.cfg.workerStake);
  }

  lemma CompetitiveForKeepsAim(t: State, env: Env, j: JobId, result: string, pk: Pubkey)
    requires j in t.escrows && CompetitiveResultFor(t, env, j, result, pk).Some?
    ensures SameAim(t, CompetitiveResultFor(t, env, j, result, pk).value, j)
  {
    if !SubmittedWith(t.escrows[j].submissions, pk) {
      var left := Debit(t.balances, pk, NEAR_TOKEN_ID, t.cfg.workerStake).value;
      SubmissionShape(t.(balances := left), j, Submission(env.signer, result, t.cfg.workerStake, Some(pk)),
          t.cfg.workerStake);
    }
  }

  lemma StandardForKeepsAim(t: State, env: Env, j: JobId, result: string, pk: Pubkey)
    requires j in t.escrows && StandardResultFor(t, env, j, result, pk).Some?
    ensures SameAim(t, StandardResultFor(t, env, j, result, pk).value, j)
  {
    if t.escrows[j].status == InProgress {
      YieldShape(t, env, j, Submitted(t.escrows[j], env, result), Some(InProgress));
    }
  }

  lemma SubmitForKeepsAim(s: State, env: Env, j: JobId, result: string, pk: Pubkey, sig: seq<Byte>)
    requires AfterSubmitResultFor(s, env, j, result, pk, sig).Some?
    ensures SameAim(s, AfterSubmitResultFor(s, env, j, result, pk, sig).value, j)
  {
    var t := Authorized(Known(s, pk), env, pk, Messages.SubmitJob(j), sig).value;
    SigningTraffic(Known(s, pk), env, pk, Messages.SubmitJob(j), sig);
    if s.escrows[j].terms.mode == Competitive {
      CompetitiveForKeepsAim(t, env, j, result, pk);
    } else {
      StandardForKeepsAim(t, env, j, result, pk);
    }
  }

  lemma SubmitKeepsAim(s: State, env: Env, j: JobId, result: string)
    requires AfterSubmitResult(s, env, j, result).Some?
    ensures SameAim(s, AfterSubmitResult(s, env, j, result).value, j)
  {
    if s.escrows[j].terms.mode == Competitive {
      if !SubmittedBy(s.escrows[j].submissions, env.signer) {
        SubmissionShape(s, j, Submission(env.signer, result, s.cfg.workerStake, None), env.deposit);
      }
    } else if s.escrows[j].status == InProgress {
      YieldShape(s, env, j, Submitted(s.escrows[j], env, result), None);
    }
  }

  lemma DesignateKeepsAim(s: State, env: Env, j: JobId, idx: nat)
    requires AfterDesignateWinner(s, env, j, idx).Some?
    ensures SameAim(s, AfterDesignateWinner(s, env, j, idx).value, j)
  {
    if s.escrows[j].status == Open {
      WinnerShape(s.(outbox := s.outbox + Refunds(j, s.escrows[j].submissions, idx)), env, j, idx);
    }
  }

  lemma OpeningKeepsAim(s: State, env: Env, op: Op)
    requires (op.CreateEscrow? || op.FtOnTransfer? || op.TakeJob?) && Attempt(s, env, op).Some?
    ensures SameAim(s, Attempt(s, env, op).value, JobOf(op).value)
  {
    hide Messages.Message, SignatureOk, Messages.ValidAccountId;
  }

  /** None of them touches what a batch in flight stands for. */
  lemma HarmlessKeepsAim(s: State, env: Env, op: Op)
    requires HarmlessOp(op) && Attempt(s, env, op).Some?
    ensures SameAim(s, Attempt(s, env, op).value, JobOf(op).value)
  {
    match op
    case TakeJobFor(j, pk, sig) => ClaimForKeepsAim(s, env, j, pk, sig);
    case SubmitResult(j, result) => SubmitKeepsAim(s, env, j, result);
    case SubmitResultFor(j, result, pk, sig) => SubmitForKeepsAim(s, env, j, result, pk, sig);
    case DesignateWinner(j, idx) => DesignateKeepsAim(s, env, j, idx);
    case _ => OpeningKeepsAim(s, env, op);
  }

  lemma CallbackKeepsKeys(s: State, j: JobId, results: seq<bool>)
    requires AfterSettleCallback(s, j, results).Some? && KeysOk(s)
    ensures KeysOk(AfterSettleCallback(s, j, results).value)
  {
  }

  lemma SettlingKeepsBond(s: State, u: State, j: JobId)
    requires Settles(s, u, j)
    ensures j in s.escrows && j in u.escrows && u.escrows[j].workerPubkey == s.escrows[j].workerPubkey
  {
    if d :| PaysInside(s, u, j, d) {
      assert FinishedJob(d).workerPubkey == d.workerPubkey;
    }
  }

  lemma SettlingKeepsKeys(s: State, u: State, j: JobId)
    requires KeysOk(s) && Settles(s, u, j) && OthersSame(s, u, j)
    ensures KeysOk(u)
  {
    SettlingKeepsBond(s, u, j);
    assert u.escrows == s.escrows[j := u.escrows[j]];
    KeysCarry(s, u, j);
  }

  lemma WalletCallsKeepKeys(s: State, env: Env, op: Op)
    requires KeysOk(s) && JobOf(op).None? && Attempt(s, env, op).Some?
    ensures KeysOk(Attempt(s, env, op).value)
  {
    var other := "another token";
    if op.Withdraw? {
      WithdrawTraffic(s, env, op.pk, op.to, op.token, op.amount, op.sig, other);
    } else if !op.CleanupCompleted? {
      WalletTraffic(s, env, op, other);
    }
  }

  /** Keys stay well-formed whatever is called. */
  lemma StepKeepsKeys(s: State, call: Call)
    requires JobsInv(s) && KeysOk(s)
    ensures KeysOk(Apply(s, call))
  {
    var env, op := call.env, call.op;
    if Attempt(s, env, op).Some? {
      if SettlingOp(op) {
        SettlingTraffic(s, env, op);
        CallTouches(s, env, op);
        SettlingKeepsKeys(s, Apply(s, call), JobOf(op).value);
      } else if op.SettleCallback? {
        CallbackKeepsKeys(s, op.job, op.results);
      } else if op.FtOnTransfer? {
        FundingTraffic(s, env, op.sender, op.amount, op.job);
      } else if JobOf(op).Some? {
        StillTraffic(s, env, op, "another token");
      } else {
        WalletCallsKeepKeys(s, env, op);
      }
    }
  }
}

/** The cached status counters against a recount of the escrows. */
module EscrowStats {
  import opened Basics
  import opened EscrowState
  import opened EscrowSpec
  import opened EscrowRuns
  import EscrowTheorems

  function InStatus(escrows: map<JobId, Escrow>, st: Status): set<JobId> {
    set j | j in escrows && escrows[j].status == st
  }

  ghost predicate Exact(s: State) {
    forall st :: s.stats.Get(st) == |InStatus(s.escrows, st)|
  }

  /** The calls that leave the counters behind: a legacy submission, giving up on a settlement that
      had not failed, and a clean-up that removes something. */
  predicate Deviates(s: State, call: Call) {
    && Attempt(s, call.env, call.op).Some?
    && match call.op
       case SubmitResult(j, _) => s.escrows[j].terms.mode == Standard && s.escrows[j].status == InProgress
       case RetrySettlement(j) =>
         (s.escrows[j].retryCount + 1) % 256 > MAX_SETTLEMENT_RETRIES && s.escrows[j].status != SettlementFailed
       case CleanupCompleted(gone) => gone != {}
       case _ => false
  }

  function StatusOf(s: State, j: JobId): Option<Status> {
    if j in s.escrows then Some(s.escrows[j].status) else None
  }

  predicate SameStats(s: State, t: State) {
    t.stats == s.stats && t.underflows == s.underflows
  }

  predicate Moves(s: State, t: State, from: Status, to: Status) {
    t.stats == s.stats.Move(from, to) && t.underflows == s.underflows + s.stats.Underflow(from)
  }

  predicate Adds(s: State, t: State) {
    && t.stats == s.stats.(totalCreated := s.stats.totalCreated + 1, pendingFunding := s.stats.pendingFunding + 1)
    && t.underflows == s.underflows
  }

  /** The counters follow job `j`. */
  predicate Follows(s: State, t: State, j: JobId) {
    var before, after := StatusOf(s, j), StatusOf(t, j);
    || (SameStats(s, t) && after == before)
    || (before.Some? && after.Some? && Moves(s, t, before.value, after.value))
    || (before.None? && after == Some(PendingFunding) && Adds(s, t))
  }

  /** What any call may do to the counters. */
  ghost predicate Small(s: State, t: State) {
    SameStats(s, t) || Adds(s, t) || exists from, to :: Moves(s, t, from, to)
  }

  // ---- what each call does ----

  lemma SettleFollows(t: State, j: JobId)
    requires AfterSettle(t, j).Some?
    ensures Follows(t, AfterSettle(t, j).value, j)
    ensures t.escrows[j].target != Some(Claim) ==>
      SameStats(t, AfterSettle(t, j).value) && StatusOf(AfterSettle(t, j).value, j) == StatusOf(t, j)
  {
    SettleShape(t, j);
  }

  lemma RefundFollows(t: State, j: JobId)
    requires j in t.escrows && FullyRefunding(t, j).Some?
    ensures SameStats(t, FullyRefunding(t, j).value) && StatusOf(FullyRefunding(t, j).value, j) == StatusOf(t, j)
  {
    SettleFollows(t.Put(j, t.escrows[j].(target := Some(FullRefund))), j);
  }

  lemma ReleaseFollows(s: State, j: JobId, to: Option<AccountId>)
    requires j in s.escrows
    ensures SameStats(s, Released(s, j, to)) && StatusOf(Released(s, j, to), j) == StatusOf(s, j)
    ensures SameStats(s, Abandoned(s, j, to)) && StatusOf(Abandoned(s, j, to), j) == StatusOf(s, j)
  {
  }

  lemma VerificationFollows(s: State, j: JobId, payload: Payload)
    requires AfterVerification(s, j, payload).Some?
    ensures Follows(s, AfterVerification(s, j, payload).value, j)
  {
    if s.escrows[j].status == Verifying {
      ReleaseFollows(s, j, LegacyWorker(s.escrows[j]));
      var t := JudgedState(s, j, payload);
      assert SameStats(s, t) && StatusOf(t, j) == StatusOf(s, j);
      SettleFollows(t, j);
    }
  }

  lemma RetryDeviation(s: State, env: Env, j: JobId)
    requires AfterRetry(s, env, j).Some?
    ensures Deviates(s, Call(env, RetrySettlement(j)))
      <==> (s.escrows[j].retryCount + 1) % 256 > MAX_SETTLEMENT_RETRIES && s.escrows[j].status != SettlementFailed
  {
  }

  lemma RetryFollows(s: State, env: Env, j: JobId)
    requires AfterRetry(s, env, j).Some?
    ensures !Deviates(s, Call(env, RetrySettlement(j))) ==> Follows(s, AfterRetry(s, env, j).value, j)
    ensures Deviates(s, Call(env, RetrySettlement(j))) ==>
      && Moves(s, AfterRetry(s, env, j).value, SettlementFailed, Cancelled)
      && StatusOf(AfterRetry(s, env, j).value, j) == Some(Cancelled) && s.escrows[j].status != SettlementFailed
  {
    var e := s.escrows[j].(retryCount := (s.escrows[j].retryCount + 1) % 256);
    RetryDeviation(s, env, j);
    if e.retryCount <= MAX_SETTLEMENT_RETRIES {
      SettleFollows(s.Put(j, e), j);
      assert AfterRetry(s, env, j) == AfterSettle(s.Put(j, e), j);
    } else {
      GivingUpMoves(s, j, e);
    }
  }

  lemma GivingUpMoves(s: State, j: JobId, e: Escrow)
    ensures Moves(s, GivenUp(s, j, e), SettlementFailed, Cancelled)
    ensures StatusOf(GivenUp(s, j, e), j) == Some(Cancelled)
  {
  }

  lemma ForceCancelFollows(s: State, env: Env, j: JobId)
    requires AfterForceCancel(s, env, j).Some?
    ensures Follows(s, AfterForceCancel(s, env, j).value, j)
  {
    ReleaseFollows(s, j, s.escrows[j].worker);
    RefundFollows(CalledOff(s, j), j);
  }

  lemma RefundExpiredFollows(s: State, env: Env, j: JobId)
    requires AfterRefundExpired(s, env, j).Some?
    ensures Follows(s, AfterRefundExpired(s, env, j).value, j)
  {
    var e := s.escrows[j];
    match e.status
    case PendingFunding =>
    case Open => RefundFollows(s, j);
    case InProgress =>
      ReleaseFollows(s, j, Some(e.terms.agent));
      RefundFollows(Released(s, j, Some(e.terms.agent)), j);
    case Verifying =>
      ReleaseFollows(s, j, LegacyWorker(e));
      RefundFollows(Abandoned(s, j, LegacyWorker(e)), j);
    case SettlementFailed => SettleFollows(s, j);
  }

  lemma SigningKeepsStats(s: State, env: Env, pk: Pubkey, a: Messages.Action, sig: seq<Byte>)
    requires Authorized(s, env, pk, a, sig).Some?
    ensures SameStats(s, Authorized(s, env, pk, a, sig).value) && SameJobs(s, Authorized(s, env, pk, a, sig).value)
  {
  }

  lemma SubmitForFollows(s: State, env: Env, j: JobId, result: string, pk: Pubkey, sig: seq<Byte>)
    requires AfterSubmitResultFor(s, env, j, result, pk, sig).Some?
    ensures Follows(s, AfterSubmitResultFor(s, env, j, result, pk, sig).value, j)
  {
    var t := Authorized(Known(s, pk), env, pk, Messages.SubmitJob(j), sig).value;
    SigningKeepsStats(Known(s, pk), env, pk, Messages.SubmitJob(j), sig);
    if s.escrows[j].terms.mode == Competitive {
      CompetitiveForFollows(t, env, j, result, pk);
    } else {
      StandardForFollows(t, env, j, result, pk);
    }
  }

  lemma CompetitiveForFollows(t: State, env: Env, j: JobId, result: string, pk: Pubkey)
    requires j in t.escrows && CompetitiveResultFor(t, env, j, result, pk).Some?
    ensures var u := CompetitiveResultFor(t, env, j, result, pk).value;
      SameStats(t, u) && StatusOf(u, j) == StatusOf(t, j)
  {
  }

  lemma StandardForFollows(t: State, env: Env, j: JobId, result: string, pk: Pubkey)
    requires j in t.escrows && StandardResultFor(t, env, j, result, pk).Some?
    ensures Follows(t, StandardResultFor(t, env, j, result, pk).value, j)
  {
  }

  lemma SubmitFollows(s: State, env: Env, j: JobId, result: string)
    requires AfterSubmitResult(s, env, j, result).Some?
    ensures SameStats(s, AfterSubmitResult(s, env, j, result).value)
    ensures StatusOf(AfterSubmitResult(s, env, j, result).value, j) != StatusOf(s, j)
      <==> Deviates(s, Call(env, SubmitResult(j, result)))
  {
  }

  lemma DesignateFollows(s: State, env: Env, j: JobId, idx: nat)
    requires AfterDesignateWinner(s, env, j, idx).Some?
    ensures Follows(s, AfterDesignateWinner(s, env, j, idx).value, j)
  {
  }

  lemma EarlyFollows(s: State, env: Env, op: Op)
    requires JobOf(op).Some? && Attempt(s, env, op).Some?
    requires op.CreateEscrow? || op.FtOnTransfer? || op.TakeJob? || op.TakeJobFor? || op.SettleCallback?
    ensures Follows(s, Attempt(s, env, op).value, JobOf(op).value)
  {
    if op.TakeJobFor? {
      SigningKeepsStats(s, env, op.pk, Messages.ClaimJob(op.job), op.sig);
    }
  }

  lemma CallFollows(s: State, env: Env, op: Op)
    requires JobOf(op).Some? && Attempt(s, env, op).Some? && !op.SubmitResult? && !Deviates(s, Call(env, op))
    ensures Follows(s, Attempt(s, env, op).value, JobOf(op).value)
  {
    match op
    case SubmitResultFor(j, result, pk, sig) => SubmitForFollows(s, env, j, result, pk, sig);
    case DesignateWinner(j, idx) => DesignateFollows(s, env, j, idx);
    case VerificationCallback(j, payload) => VerificationFollows(s, j, payload);
    case RetrySettlement(j) => RetryFollows(s, env, j);
    case Cancel(j) => if s.escrows[j].status == Open { RefundFollows(s, j); }
    case ForceCancelVerifying(j) => ForceCancelFollows(s, env, j);
    case RefundExpired(j) => RefundExpiredFollows(s, env, j);
    case _ => EarlyFollows(s, env, op);
  }

  // ---- recounting ----

  lemma TakeOut(all: set<JobId>, j: JobId)
    ensures |all| == |all - {j}| + if j in all then 1 else 0
  {
    assert all == if j in all then (all - {j}) + {j} else all - {j};
  }

  lemma SameButOne(a: set<JobId>, b: set<JobId>, j: JobId)
    requires a - {j} == b - {j}
    ensures |b| == |a| - (if j in a then 1 else 0) + (if j in b then 1 else 0)
  {
    TakeOut(a, j);
    TakeOut(b, j);
  }

  /** Moving one job from one status to another moves the recount by one. */
  lemma Recount(a: map<JobId, Escrow>, j: JobId, e: Escrow, st: Status)
    ensures |InStatus(a[j := e], st)| == |InStatus(a, st)|
      - (if j in a && a[j].status == st then 1 else 0) + (if e.status == st then 1 else 0)
  {
    assert InStatus(a, st) - {j} == InStatus(a[j := e], st) - {j};
    SameButOne(InStatus(a, st), InStatus(a[j := e], st), j);
  }

  lemma RecountJob(s: State, t: State, j: JobId, st: Status)
    requires OthersSame(s, t, j)
    ensures |InStatus(t.escrows, st)| == |InStatus(s.escrows, st)|
      - (if StatusOf(s, j) == Some(st) then 1 else 0) + (if StatusOf(t, j) == Some(st) then 1 else 0)
  {
    assert t.escrows == s.escrows[j := t.escrows[j]];
    Recount(s.escrows, j, t.escrows[j], st);
  }

  lemma StatusBound(escrows: map<JobId, Escrow>, st: Status)
    ensures |InStatus(escrows, st)| <= |escrows|
  {
    SubsetSmaller(InStatus(escrows, st), escrows.Keys);
  }

  lemma {:induction false} SubsetSmaller(a: set<JobId>, b: set<JobId>)
    requires a <= b
    ensures |a| <= |b|
  {
    if a != {} {
      var x :| x in a;
      SubsetSmaller(a - {x}, b - {x});
    }
  }

  lemma MoveGet(st: Stats, from: Status, to: Status, x: Status)
    ensures st.Move(from, to).Get(x)
      == if x == to then SatAdd(if from == to then SatSub(st.Get(from), 1) else st.Get(to), 1, U64_MAX)
         else if x == from then SatSub(st.Get(x), 1) else st.Get(x)
  {
  }

  lemma FollowingStaysExact(s: State, t: State, j: JobId)
    requires Exact(s) && OthersSame(s, t, j) && Follows(s, t, j) && |s.escrows| < U64_MAX
    ensures Exact(t)
  {
    forall st
      ensures t.stats.Get(st) == |InStatus(t.escrows, st)|
    {
      RecountJob(s, t, j, st);
      StatusBound(s.escrows, st);
      assert s.stats.Get(st) == |InStatus(s.escrows, st)|;
      if j in s.escrows {
        assert j in InStatus(s.escrows, s.escrows[j].status);
        assert s.stats.Get(s.escrows[j].status) == |InStatus(s.escrows, s.escrows[j].status)|;
        MoveGet(s.stats, s.escrows[j].status, t.escrows[j].status, st);
      }
    }
  }

  lemma SubmitCase(s: State, env: Env, j: JobId, result: string, t: State)
    requires Exact(s) && AfterSubmitResult(s, env, j, result) == Some(t) && OthersSame(s, t, j)
    ensures Exact(t) <==> !Deviates(s, Call(env, SubmitResult(j, result)))
  {
    SubmitFollows(s, env, j, result);
    SubmitDeviates(s, t, j);
  }

  lemma JobCallDeviates(s: State, env: Env, op: Op)
    requires EscrowTheorems.Reachable(s) && Exact(s) && |s.escrows| < U64_MAX
    requires JobOf(op).Some? && Attempt(s, env, op).Some?
    requires op.FtOnTransfer? ==> op.job in s.escrows
    ensures Exact(Attempt(s, env, op).value) <==> !Deviates(s, Call(env, op))
  {
    var t, j := Attempt(s, env, op).value, JobOf(op).value;
    assert OthersSame(s, t, j) by {
      EscrowTheorems.ReachableInv(s);
      CallTouches(s, env, op);
    }
    if op.SubmitResult? {
      SubmitCase(s, env, j, op.result, t);
    } else if !Deviates(s, Call(env, op)) {
      CallFollows(s, env, op);
      FollowingStaysExact(s, t, j);
    } else {
      RetryFollows(s, env, j);
      RetryDeviates(s, t, j);
    }
  }

  /** From exact counters, one call leaves them exact if and only if it is not one of the three
      deviating kinds. */
  lemma ExactUnlessDeviating(s: State, call: Call)
    requires EscrowTheorems.Reachable(s) && Exact(s) && |s.escrows| < U64_MAX
    ensures Exact(Apply(s, call)) <==> !Deviates(s, call)
  {
    var env, op := call.env, call.op;
    if Attempt(s, env, op).Some? {
      if op.CleanupCompleted? {
        CleanupDeviates(s, op.gone);
      } else if JobOf(op).None? || (op.FtOnTransfer? && op.job !in s.escrows) {
        IdleCallsStayExact(s, env, op);
      } else {
        JobCallDeviates(s, env, op);
      }
    }
  }

  lemma IdleCallsStayExact(s: State, env: Env, op: Op)
    requires Exact(s) && Attempt(s, env, op).Some? && !op.CleanupCompleted?
    requires JobOf(op).None? || (op.FtOnTransfer? && op.job !in s.escrows)
    ensures Exact(Attempt(s, env, op).value) && !Deviates(s, Call(env, op))
  {
    var t := Attempt(s, env, op).value;
    if JobOf(op).None? {
      WalletCallsKeepJobs(s, env, op);
    }
    assert t.stats == s.stats && t.escrows == s.escrows;
    assert forall st :: t.stats.Get(st) == s.stats.Get(st);
  }

  lemma CleanupDeviates(s: State, gone: set<JobId>)
    requires Exact(s) && forall j :: j in gone ==> j in s.escrows
    ensures Exact(Removed(s, gone)) <==> gone == {}
  {
    var t := Removed(s, gone);
    if gone == {} {
      assert t.escrows == s.escrows;
      assert forall st :: t.stats.Get(st) == s.stats.Get(st);
    } else {
      var j :| j in gone;
      var st := s.escrows[j].status;
      assert j in InStatus(s.escrows, st) && j !in InStatus(t.escrows, st);
      assert InStatus(t.escrows, st) <= InStatus(s.escrows, st) - {j};
      SubsetSmaller(InStatus(t.escrows, st), InStatus(s.escrows, st) - {j});
      assert t.stats.Get(st) == s.stats.Get(st);
    }
  }

  lemma SubmitDeviates(s: State, t: State, j: JobId)
    requires Exact(s) && OthersSame(s, t, j) && SameStats(s, t) && j in s.escrows
    ensures Exact(t) <==> StatusOf(t, j) == StatusOf(s, j)
  {
    forall st
      ensures |InStatus(t.escrows, st)| == |InStatus(s.escrows, st)|
        - (if s.escrows[j].status == st then 1 else 0) + (if t.escrows[j].status == st then 1 else 0)
    {
      RecountJob(s, t, j, st);
    }
    assert forall st :: t.stats.Get(st) == s.stats.Get(st) == |InStatus(s.escrows, st)|;
    assert StatusOf(t, j) != StatusOf(s, j) ==>
        t.stats.Get(s.escrows[j].status) != |InStatus(t.escrows, s.escrows[j].status)|;
  }

  lemma RetryDeviates(s: State, t: State, j: JobId)
    requires Exact(s) && OthersSame(s, t, j) && Moves(s, t, SettlementFailed, Cancelled) && |s.escrows| < U64_MAX
    requires j in s.escrows && t.escrows[j].status == Cancelled && s.escrows[j].status != SettlementFailed
    ensures !Exact(t)
  {
    var st := s.escrows[j].status;
    RecountJob(s, t, j, st);
    StatusBound(s.escrows, st);
    assert s.stats.Get(st) == |InStatus(s.escrows, st)|;
  }

  lemma OneMoreAtMost(a: set<JobId>, b: set<JobId>, j: JobId)
    requires b == a + {j} || b <= a
    ensures |b| <= |a| + 1
  {
    if b == a + {j} {
      assert b == if j in a then a else a + {j};
    } else {
      SubsetSmaller(b, a);
    }
  }

  lemma StepAddsOne(s: State, call: Call)
    requires JobsInv(s)
    ensures |Apply(s, call).escrows| <= |s.escrows| + 1
  {
    var env, op := call.env, call.op;
    var keys, keys' := s.escrows.Keys, Apply(s, call).escrows.Keys;
    if Attempt(s, env, op).Some? {
      if JobOf(op).Some? {
        if !(op.FtOnTransfer? && op.job !in s.escrows) {
          CallTouches(s, env, op);
        }
        OneMoreAtMost(keys, keys', JobOf(op).value);
      } else {
        if !op.CleanupCompleted? {
          WalletCallsKeepJobs(s, env, op);
        }
        OneMoreAtMost(keys, keys', "");
      }
    }
  }

  /** In every run whose calls are none of the three kinds, each counter is the number of escrows in
      its status. */
  lemma {:induction false} CountersAgree(self: AccountId, owner: AccountId, allowed: seq<AccountId>, calls: seq<Call>)
    requires |calls| < U64_MAX
    requires forall i :: 0 <= i < |calls| ==> !Deviates(Run(Initial(self, owner, allowed), calls[..i]), calls[i])
    ensures var s := Run(Initial(self, owner, allowed), calls);
      Exact(s) && |s.escrows| <= |calls|
  {
    var s0 := Initial(self, owner, allowed);
    hide Deviates;
    if calls == [] {
      assert forall st :: InStatus(s0.escrows, st) == {} && s0.stats.Get(st) == 0;
    } else {
      var n := |calls| - 1;
      var before := calls[..n];
      assert forall i :: 0 <= i < n ==> before[..i] == calls[..i];
      CountersAgree(self, owner, allowed, before);
      var s := Run(s0, before);
      EscrowTheorems.RunKeepsJobs(s0, before);
      assert EscrowTheorems.Reachable(s);
      StepAddsOne(s, calls[n]);
      ExactUnlessDeviating(s, calls[n]);
    }
  }

  // ---- the total ----

  function Sum(st: Stats): nat {
    st.pendingFunding + st.open + st.inProgress + st.verifying + st.claimed + st.refunded + st.cancelled
        + st.settlementFailed
  }

  lemma WithSum(st: Stats, x: Status, n: nat)
    ensures Sum(st.With(x, n)) == Sum(st) - st.Get(x) + n
    ensures st.With(x, n).totalCreated == st.totalCreated
  {
  }

  lemma PartOfSum(st: Stats, x: Status)
    ensures st.Get(x) <= Sum(st)
  {
  }

  lemma MoveSum(st: Stats, from: Status, to: Status)
    requires Sum(st) < U64_MAX
    ensures Sum(st.Move(from, to)) == Sum(st) + st.Underflow(from)
    ensures st.Move(from, to).totalCreated == st.totalCreated
  {
    var less := st.With(from, SatSub(st.Get(from), 1));
    WithSum(st, from, SatSub(st.Get(from), 1));
    PartOfSum(less, to);
    WithSum(less, to, SatAdd(less.Get(to), 1, U64_MAX));
  }

  lemma StepIsSmall(s: State, call: Call)
    ensures Small(s, Apply(s, call))
  {
    var env, op := call.env, call.op;
    var r := Attempt(s, env, op);
    if r.Some? {
      if JobOf(op).None? {
        assert SameStats(s, r.value);
      } else if op.SubmitResult? {
        SubmitFollows(s, env, op.job, op.result);
      } else if Deviates(s, call) {
        RetryFollows(s, env, op.job);
      } else {
        CallFollows(s, env, op);
      }
    }
  }

  lemma {:induction false} SumOverRuns(self: AccountId, owner: AccountId, allowed: seq<AccountId>, calls: seq<Call>)
    requires |calls| <= U64_MAX
    ensures var s := Run(Initial(self, owner, allowed), calls);
      Sum(s.stats) == s.stats.totalCreated + s.underflows && Sum(s.stats) <= |calls|
  {
    if calls != [] {
      var before, last := calls[..|calls| - 1], calls[|calls| - 1];
      SumOverRuns(self, owner, allowed, before);
      var s := Run(Initial(self, owner, allowed), before);
      StepIsSmall(s, last);
      var t := Apply(s, last);
      if from, to :| Moves(s, t, from, to) {
        MoveSum(s.stats, from, to);
      }
    }
  }

  /** In any run of fewer than 2^64 calls the reported total is the number of escrows ever created
      plus one for every decrement that found its counter at 0. */
  lemma TotalNeverBelowCreated(self: AccountId, owner: AccountId, allowed: seq<AccountId>, calls: seq<Call>)
    requires |calls| <= U64_MAX
    ensures var s := Run(Initial(self, owner, allowed), calls);
      && s.stats.Total() == s.stats.totalCreated + s.underflows
      && (s.stats.Total() == s.stats.totalCreated <==> s.underflows == 0)
  {
    SumOverRuns(self, owner, allowed, calls);
  }
}

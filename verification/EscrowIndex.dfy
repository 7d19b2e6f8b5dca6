/** The reverse index from yield ids to jobs, against a scan over the escrows. */
module EscrowIndex {
  import opened Basics
  import opened EscrowState
  import opened EscrowSpec
  import opened EscrowRuns
  import EscrowTheorems
  import Hex

  predicate Holds(s: State, j: JobId, d: DataId) {
    j in s.escrows && s.escrows[j].dataId == Some(d)
  }

  predicate Points(s: State, d: DataId, j: JobId) {
    Hex.Encode(d) in s.index && s.index[Hex.Encode(d)] == j
  }

  /** The index finds every job a scan finds, and only knows ids that were issued. */
  ghost predicate Covers(s: State) {
    && (forall j, d :: Holds(s, j, d) ==> Points(s, d, j) && d in s.issued)
    && (forall d: DataId :: Hex.Encode(d) in s.index ==> d in s.issued)
  }

  /** The index and the scan say the same. */
  ghost predicate Agrees(s: State) {
    forall d, j :: Points(s, d, j) <==> Holds(s, j, d)
  }

  function IdOf(s: State, j: JobId): Option<DataId> {
    if j in s.escrows then s.escrows[j].dataId else None
  }

  predicate SameIndex(s: State, t: State) {
    t.index == s.index && t.issued == s.issued
  }

  /** What a call does to the index: nothing, one new entry for `j`, or the entry of `j` removed. */
  predicate Shape(s: State, t: State, j: JobId) {
    var before, after := IdOf(s, j), IdOf(t, j);
    || (SameIndex(s, t) && after == before)
    || (before.None? && after.Some? && after.value !in s.issued
        && t.issued == s.issued + {after.value} && t.index == s.index[Hex.Encode(after.value) := j])
    || (after.None? && SameIndex(Unindexed(s, before), t))
  }

  lemma SettleKeepsIndex(t: State, j: JobId)
    requires AfterSettle(t, j).Some?
    ensures var u := AfterSettle(t, j).value; SameIndex(t, u) && IdOf(u, j) == IdOf(t, j)
  {
    SettleShape(t, j);
  }

  lemma ReleaseKeepsIndex(s: State, j: JobId, to: Option<AccountId>)
    requires j in s.escrows
    ensures var t := Released(s, j, to); SameIndex(s, t) && j in t.escrows && IdOf(t, j) == IdOf(s, j)
  {
  }

  lemma RefundKeepsIndex(t: State, j: JobId)
    requires j in t.escrows && FullyRefunding(t, j).Some?
    ensures var u := FullyRefunding(t, j).value; SameIndex(t, u) && IdOf(u, j) == IdOf(t, j)
  {
    SettleKeepsIndex(t.Put(j, t.escrows[j].(target := Some(FullRefund))), j);
  }

  lemma AbandonShapes(s: State, j: JobId, to: Option<AccountId>)
    requires j in s.escrows
    ensures var t := Abandoned(s, j, to);
      SameIndex(Unindexed(s, s.escrows[j].dataId), t) && j in t.escrows && IdOf(t, j).None?
  {
    ReleaseKeepsIndex(s, j, to);
  }

  lemma VerificationShapes(s: State, j: JobId, payload: Payload)
    requires AfterVerification(s, j, payload).Some?
    ensures Shape(s, AfterVerification(s, j, payload).value, j)
  {
    if s.escrows[j].status == Verifying {
      ReleaseKeepsIndex(s, j, LegacyWorker(s.escrows[j]));
      var t := JudgedState(s, j, payload);
      assert SameIndex(Unindexed(s, s.escrows[j].dataId), t) && IdOf(t, j).None?;
      SettleKeepsIndex(t, j);
    }
  }

  lemma RetryShapes(s: State, env: Env, j: JobId)
    requires AfterRetry(s, env, j).Some?
    ensures Shape(s, AfterRetry(s, env, j).value, j)
  {
    var e := s.escrows[j].(retryCount := (s.escrows[j].retryCount + 1) % 256);
    if e.retryCount <= MAX_SETTLEMENT_RETRIES {
      SettleKeepsIndex(s.Put(j, e), j);
    }
  }

  lemma ForceCancelShapes(s: State, env: Env, j: JobId)
    requires AfterForceCancel(s, env, j).Some?
    ensures Shape(s, AfterForceCancel(s, env, j).value, j)
  {
    AbandonShapes(s, j, s.escrows[j].worker);
    RefundKeepsIndex(CalledOff(s, j), j);
  }

  lemma RefundExpiredShapes(s: State, env: Env, j: JobId)
    requires AfterRefundExpired(s, env, j).Some?
    ensures Shape(s, AfterRefundExpired(s, env, j).value, j)
  {
    var e := s.escrows[j];
    match e.status
    case PendingFunding =>
    case Open => RefundKeepsIndex(s, j);
    case InProgress =>
      ReleaseKeepsIndex(s, j, Some(e.terms.agent));
      RefundKeepsIndex(Released(s, j, Some(e.terms.agent)), j);
    case Verifying =>
      AbandonShapes(s, j, LegacyWorker(e));
      RefundKeepsIndex(Abandoned(s, j, LegacyWorker(e)), j);
    case SettlementFailed => SettleKeepsIndex(s, j);
  }

  lemma ClaimForShapes(s: State, env: Env, j: JobId, pk: Pubkey, sig: seq<Byte>)
    requires j in s.escrows && Bindings(s.escrows[j]) && AfterClaimFor(s, env, j, pk, sig).Some?
    ensures Shape(s, AfterClaimFor(s, env, j, pk, sig).value, j)
  {
    SigningKeepsIndex(s, env, pk, Messages.ClaimJob(j), sig);
    SigningKeepsJobs(s, env, pk, Messages.ClaimJob(j), sig);
  }

  lemma CallbackShapes(s: State, j: JobId, results: seq<bool>)
    requires AfterSettleCallback(s, j, results).Some?
    ensures Shape(s, AfterSettleCallback(s, j, results).value, j)
  {
  }

  lemma EarlyShapes(s: State, env: Env, op: Op)
    requires JobOf(op).Some? && JobOk(s, JobOf(op).value) && Attempt(s, env, op).Some?
    requires op.CreateEscrow? || op.FtOnTransfer? || op.TakeJob?
    ensures Shape(s, Attempt(s, env, op).value, JobOf(op).value)
  {
  }

  lemma CompetitiveShapes(s: State, env: Env, j: JobId, result: string)
    requires j in s.escrows && CompetitiveResult(s, env, j, result).Some?
    ensures Shape(s, CompetitiveResult(s, env, j, result).value, j)
  {
  }

  lemma StandardShapes(s: State, env: Env, j: JobId, result: string)
    requires j in s.escrows && Bindings(s.escrows[j]) && StandardResult(s, env, j, result).Some?
    ensures Shape(s, StandardResult(s, env, j, result).value, j)
  {
  }

  lemma SubmitShapes(s: State, env: Env, j: JobId, result: string)
    requires j in s.escrows && Bindings(s.escrows[j]) && AfterSubmitResult(s, env, j, result).Some?
    ensures Shape(s, AfterSubmitResult(s, env, j, result).value, j)
  {
    if s.escrows[j].terms.mode == Competitive {
      CompetitiveShapes(s, env, j, result);
    } else {
      StandardShapes(s, env, j, result);
    }
  }

  lemma SigningKeepsIndex(s: State, env: Env, pk: Pubkey, a: Messages.Action, sig: seq<Byte>)
    requires Authorized(s, env, pk, a, sig).Some?
    ensures SameIndex(s, Authorized(s, env, pk, a, sig).value)
  {
  }

  lemma SubmitForShapes(s: State, env: Env, j: JobId, result: string, pk: Pubkey, sig: seq<Byte>)
    requires j in s.escrows && Bindings(s.escrows[j]) && AfterSubmitResultFor(s, env, j, result, pk, sig).Some?
    ensures Shape(s, AfterSubmitResultFor(s, env, j, result, pk, sig).value, j)
  {
    SigningKeepsIndex(Known(s, pk), env, pk, Messages.SubmitJob(j), sig);
    SigningKeepsJobs(Known(s, pk), env, pk, Messages.SubmitJob(j), sig);
    var t := Authorized(Known(s, pk), env, pk, Messages.SubmitJob(j), sig).value;
    assert AfterSubmitResultFor(s, env, j, result, pk, sig) == ResultFor(t, env, j, result, pk);
    hide AfterSubmitResultFor, Authorized, Known;
    ResultForShapes(t, env, j, result, pk);
  }

  lemma ResultForShapes(t: State, env: Env, j: JobId, result: string, pk: Pubkey)
    requires j in t.escrows && Bindings(t.escrows[j]) && ResultFor(t, env, j, result, pk).Some?
    ensures Shape(t, ResultFor(t, env, j, result, pk).value, j)
  {
  }

  lemma DesignateShapes(s: State, env: Env, j: JobId, idx: nat)
    requires j in s.escrows && Bindings(s.escrows[j]) && AfterDesignateWinner(s, env, j, idx).Some?
    ensures Shape(s, AfterDesignateWinner(s, env, j, idx).value, j)
  {
  }

  lemma CallShapes(s: State, env: Env, op: Op)
    requires JobOf(op).Some? && JobOk(s, JobOf(op).value) && Attempt(s, env, op).Some?
    requires op.FtOnTransfer? ==> op.job in s.escrows
    ensures Shape(s, Attempt(s, env, op).value, JobOf(op).value)
  {
    match op
    case TakeJobFor(j, pk, sig) => ClaimForShapes(s, env, j, pk, sig);
    case SettleCallback(j, results) => CallbackShapes(s, j, results);
    case SubmitResult(j, result) => SubmitShapes(s, env, j, result);
    case SubmitResultFor(j, result, pk, sig) => SubmitForShapes(s, env, j, result, pk, sig);
    case DesignateWinner(j, idx) => DesignateShapes(s, env, j, idx);
    case VerificationCallback(j, payload) => VerificationShapes(s, j, payload);
    case RetrySettlement(j) => RetryShapes(s, env, j);
    case Cancel(j) => if s.escrows[j].status == Open { RefundKeepsIndex(s, j); }
    case ForceCancelVerifying(j) => ForceCancelShapes(s, env, j);
    case RefundExpired(j) => RefundExpiredShapes(s, env, j);
    case _ => EarlyShapes(s, env, op);
  }

  lemma DistinctTexts()
    ensures forall d: DataId, d': DataId :: Hex.Encode(d) == Hex.Encode(d') ==> d == d'
  {
    forall d: DataId, d': DataId | Hex.Encode(d) == Hex.Encode(d')
      ensures d == d'
    {
      Hex.EncodeInjective(d, d');
    }
  }

  /** Distinct ids have distinct texts, so writing or removing one entry leaves the others alone. */
  lemma EntryStays(s: State, t: State, j: JobId, k: JobId, d: DataId)
    requires Covers(s) && Shape(s, t, j) && k != j && Holds(s, k, d)
    ensures Points(t, d, k) && d in t.issued
  {
    DistinctTexts();
    assert Points(s, d, k) && d in s.issued;
    if IdOf(s, j).Some? {
      assert Holds(s, j, IdOf(s, j).value);
    }
  }

  lemma OwnEntry(s: State, t: State, j: JobId, d: DataId)
    requires Covers(s) && Shape(s, t, j) && Holds(t, j, d)
    ensures Points(t, d, j) && d in t.issued
  {
    if SameIndex(s, t) && IdOf(t, j) == IdOf(s, j) {
      assert Holds(s, j, d);
    }
  }

  lemma ShapeKeepsCover(s: State, t: State, j: JobId)
    requires Covers(s) && Touches(s, t, j) && Shape(s, t, j)
    ensures Covers(t)
  {
    forall k, d: DataId | Holds(t, k, d)
      ensures Points(t, d, k) && d in t.issued
    {
      if k == j {
        OwnEntry(s, t, j, d);
      } else {
        EntryStays(s, t, j, k, d);
      }
    }
    DistinctTexts();
  }

  lemma ShapeKeepsAgreement(s: State, t: State, j: JobId)
    requires Covers(s) && Agrees(s) && Touches(s, t, j) && Shape(s, t, j)
    ensures Agrees(t)
  {
    ShapeKeepsCover(s, t, j);
    DistinctTexts();
    forall d: DataId, k | Points(t, d, k)
      ensures Holds(t, k, d)
    {
      assert Points(s, d, k) <==> Holds(s, k, d);
    }
  }

  lemma OtherCallsKeepIndex(s: State, env: Env, op: Op)
    requires JobOf(op).None? && Attempt(s, env, op).Some? && Covers(s)
    ensures Covers(Attempt(s, env, op).value)
    ensures Agrees(s) && !op.CleanupCompleted? ==> Agrees(Attempt(s, env, op).value)
  {
    var t := Attempt(s, env, op).value;
    assert SameIndex(s, t);
    assert forall j, d :: Holds(t, j, d) ==> Holds(s, j, d);
    if !op.CleanupCompleted? {
      WalletCallsKeepJobs(s, env, op);
      assert forall j, d :: Holds(t, j, d) <==> Holds(s, j, d);
      assert forall j, d :: Points(t, d, j) <==> Points(s, d, j);
    }
  }

  lemma StepKeepsIndex(s: State, call: Call)
    requires JobsInv(s) && Covers(s)
    ensures Covers(Apply(s, call))
    ensures Agrees(s) && !call.op.CleanupCompleted? ==> Agrees(Apply(s, call))
  {
    var env, op := call.env, call.op;
    var r := Attempt(s, env, op);
    if r.Some? {
      var t := r.value;
      if JobOf(op).None? {
        OtherCallsKeepIndex(s, env, op);
      } else if op.FtOnTransfer? && op.job !in s.escrows {
        assert t == s;
      } else {
        assert JobOk(s, JobOf(op).value);
        CallShapes(s, env, op);
        CallTouches(s, env, op);
        ShapeKeepsCover(s, t, JobOf(op).value);
        if Agrees(s) {
          ShapeKeepsAgreement(s, t, JobOf(op).value);
        }
      }
    }
  }

  lemma {:induction false} RunKeepsIndex(s: State, calls: seq<Call>)
    requires JobsInv(s) && Covers(s)
    ensures Covers(Run(s, calls))
    ensures Agrees(s) && (forall i :: 0 <= i < |calls| ==> !calls[i].op.CleanupCompleted?) ==> Agrees(Run(s, calls))
  {
    if calls != [] {
      RunKeepsIndex(s, calls[..|calls| - 1]);
      EscrowTheorems.RunKeepsJobs(s, calls[..|calls| - 1]);
      StepKeepsIndex(Run(s, calls[..|calls| - 1]), calls[|calls| - 1]);
    }
  }

  /** Without clean-ups, looking an id up and scanning for it agree in every run. */
  lemma LookupIsScan(self: AccountId, owner: AccountId, allowed: seq<AccountId>, calls: seq<Call>, d: DataId, j: JobId)
    requires forall i :: 0 <= i < |calls| ==> !calls[i].op.CleanupCompleted?
    ensures var s := Run(Initial(self, owner, allowed), calls); Points(s, d, j) <==> Holds(s, j, d)
  {
    RunKeepsIndex(Initial(self, owner, allowed), calls);
  }

  /** With clean-ups, a job that waits on an id is still always found, and found alone. */
  lemma ScanIsFound(s: State, d: DataId, j: JobId)
    requires EscrowTheorems.Reachable(s) && Holds(s, j, d)
    ensures Points(s, d, j)
    ensures forall k :: Holds(s, k, d) ==> k == j
  {
    var self, owner, allowed, calls :| s == Run(Initial(self, owner, allowed), calls);
    RunKeepsIndex(Initial(self, owner, allowed), calls);
    assert forall k :: Holds(s, k, d) ==> Points(s, d, k);
  }

  /** A clean-up breaks the other direction exactly when it removes a job that still holds an id. */
  lemma CleanupDangles(s: State, gone: set<JobId>)
    requires Agrees(s) && forall j :: j in gone ==> j in s.escrows
    ensures Agrees(Removed(s, gone)) <==> forall j :: j in gone ==> s.escrows[j].dataId.None?
  {
    var t := Removed(s, gone);
    forall j | j in gone && s.escrows[j].dataId.Some?
      ensures !Agrees(t)
    {
      var d := s.escrows[j].dataId.value;
      assert Holds(s, j, d) && Points(t, d, j) && !Holds(t, j, d);
    }
    if forall j :: j in gone ==> s.escrows[j].dataId.None? {
      forall d: DataId, j
        ensures Points(t, d, j) <==> Holds(t, j, d)
      {
        assert Points(t, d, j) <==> Points(s, d, j);
      }
    }
  }

  /** A refund is in flight, and the job stands at `st` with this worker and yield id. */
  predicate Refunding(s: State, j: JobId, st: Status, worker: Option<AccountId>, d: Option<DataId>) {
    && j in s.escrows && s.escrows[j].terms.mode == Standard
    && s.escrows[j].status == st && s.escrows[j].target == Some(FullRefund)
    && s.escrows[j].worker == worker && s.escrows[j].dataId == d
  }

  lemma CancelStartsRefund(s: State, env: Env, j: JobId)
    requires j in s.escrows && Bindings(s.escrows[j]) && s.escrows[j].status == Open
    requires s.escrows[j].terms.mode == Standard && env.signer == s.escrows[j].terms.agent
    ensures var t := Apply(s, Call(env, Cancel(j)));
      Refunding(t, j, Open, None, None) && t.escrows[j].terms == s.escrows[j].terms && t.cfg == s.cfg
          && t.issued == s.issued
  {
    var e := s.escrows[j];
    SettleLaunches(s.Put(j, e.(target := Some(FullRefund))), j, [Transfer(e.terms.agent, e.terms.amount)]);
  }

  lemma ClaimDuringRefund(s: State, env: Env, j: JobId)
    requires Refunding(s, j, Open, None, None) && !s.cfg.paused
    requires env.signer != s.escrows[j].terms.agent && env.deposit >= s.cfg.workerStake
    ensures var t := Apply(s, Call(env, TakeJob(j)));
      Refunding(t, j, InProgress, Some(env.signer), None) && t.cfg == s.cfg && t.issued == s.issued
  {
  }

  lemma SubmitDuringRefund(s: State, env: Env, j: JobId, result: string)
    requires Refunding(s, j, InProgress, Some(env.signer), None) && !s.cfg.paused
    requires env.yieldId !in s.issued && 0 < |result| <= MAX_RESULT_LEN
    ensures var t := Apply(s, Call(env, SubmitResult(j, result)));
      Refunding(t, j, Verifying, Some(env.signer), Some(env.yieldId)) && Points(t, env.yieldId, j)
  {
  }

  lemma RefundLandsLate(s: State, env: Env, j: JobId, d: DataId)
    requires Refunding(s, j, Verifying, Some(env.signer), Some(d)) && Points(s, d, j)
    ensures var t := Apply(s, Call(env, SettleCallback(j, [true])));
      && j in t.escrows && t.escrows[j].status == Refunded && t.escrows[j].dataId == Some(d) && Points(t, d, j)
  {
    assert AllOk([true]);
  }

  /** Such jobs do arise: a refund in flight leaves the job Open, so it can be claimed and submitted
      before the refund's callback finishes it with its yield id still in place. */
  lemma RefundOvertakesWork(s: State, agent: Env, worker: Env, j: JobId, result: string)
    requires EscrowTheorems.Reachable(s) && !s.cfg.paused && j in s.escrows && s.escrows[j].status == Open
    requires s.escrows[j].terms.mode == Standard && agent.signer == s.escrows[j].terms.agent != worker.signer
    requires worker.deposit >= s.cfg.workerStake && worker.yieldId !in s.issued && 0 < |result| <= MAX_RESULT_LEN
    ensures var t1 := Apply(s, Call(agent, Cancel(j)));
      var t2 := Apply(t1, Call(worker, TakeJob(j)));
      var t3 := Apply(t2, Call(worker, SubmitResult(j, result)));
      var t4 := Apply(t3, Call(worker, SettleCallback(j, [true])));
      && j in t4.escrows && Terminal(t4.escrows[j])
      && t4.escrows[j].dataId == Some(worker.yieldId) && Points(t4, worker.yieldId, j)
  {
    EscrowTheorems.ReachableInv(s);
    assert JobOk(s, j);
    CancelStartsRefund(s, agent, j);
    var t1 := Apply(s, Call(agent, Cancel(j)));
    ClaimDuringRefund(t1, worker, j);
    var t2 := Apply(t1, Call(worker, TakeJob(j)));
    SubmitDuringRefund(t2, worker, j, result);
    RefundLandsLate(Apply(t2, Call(worker, SubmitResult(j, result))), worker, j, worker.yieldId);
  }
}

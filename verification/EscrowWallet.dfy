/** Signed worker messages: no text is accepted twice for one key, short of the largest nonce. */
module EscrowWallet {
  import opened Basics
  import opened EscrowState
  import opened EscrowSpec
  import opened EscrowRuns
  import opened EscrowTraffic
  import EscrowTheorems
  import Messages

  function NonceOf(s: State, pk: Pubkey): nat {
    if pk in s.workers then s.workers[pk].nonce else 0
  }

  /** Who signed the call, and what. */
  function SignerOf(op: Op): Option<(Pubkey, Messages.Action)> {
    match op
    case Withdraw(pk, token, amount, to, _) => Some((pk, Messages.Withdrawal(token, amount, to)))
    case LinkNearAccount(pk, account, _) => Some((pk, Messages.Link(account)))
    case TakeJobFor(j, pk, _) => Some((pk, Messages.ClaimJob(j)))
    case SubmitResultFor(j, _, pk, _) => Some((pk, Messages.SubmitJob(j)))
    case _ => None
  }

  /** One message was accepted and one nonce moved on. */
  predicate Accepts(s: State, u: State, pk: Pubkey, a: Messages.Action) {
    && u.cfg == s.cfg
    && u.accepted == s.accepted + [Accepted(pk, Messages.Message(s.cfg.self, a, NonceOf(s, pk)), NonceOf(s, pk))]
    && u.workers.Keys == s.workers.Keys + {pk}
    && NonceOf(u, pk) == SatAdd(NonceOf(s, pk), 1, U64_MAX)
    && forall k :: k in s.workers && k != pk ==> NonceOf(u, k) == NonceOf(s, k)
  }

  /** No message was accepted and no nonce moved. */
  ghost predicate Silent(s: State, u: State) {
    && u.cfg.self == s.cfg.self && u.accepted == s.accepted
    && s.workers.Keys <= u.workers.Keys
    && forall k :: NonceOf(u, k) == NonceOf(s, k)
  }

  lemma SigningAccepts(s: State, env: Env, pk: Pubkey, a: Messages.Action, sig: seq<Byte>)
    requires Authorized(Known(s, pk), env, pk, a, sig).Some?
    ensures Accepts(s, Authorized(Known(s, pk), env, pk, a, sig).value, pk, a)
    ensures pk in s.workers ==> Known(s, pk) == s
  {
  }

  lemma SubmissionsKeepWallets(t: State, env: Env, j: JobId, result: string, pk: Pubkey)
    requires j in t.escrows
    ensures ResultFor(t, env, j, result, pk).Some? ==> SameWallets(t, ResultFor(t, env, j, result, pk).value)
  {
  }

  lemma OwnSubmissionsKeepWallets(t: State, env: Env, j: JobId, result: string)
    requires j in t.escrows
    ensures CompetitiveResult(t, env, j, result).Some? ==> SameWallets(t, CompetitiveResult(t, env, j, result).value)
    ensures StandardResult(t, env, j, result).Some? ==> SameWallets(t, StandardResult(t, env, j, result).value)
  {
  }

  lemma SignedCallAccepts(s: State, env: Env, op: Op)
    requires SignerOf(op).Some? && Attempt(s, env, op).Some?
    ensures Accepts(s, Attempt(s, env, op).value, SignerOf(op).value.0, SignerOf(op).value.1)
  {
    var pk, a := SignerOf(op).value.0, SignerOf(op).value.1;
    SigningAccepts(s, env, pk, a, op.sig);
    if op.SubmitResultFor? {
      SubmissionsKeepWallets(Authorized(Known(s, pk), env, pk, a, op.sig).value, env, op.job, op.result, pk);
    }
  }

  lemma CallbackIsSilent(s: State, j: JobId, results: seq<bool>)
    requires AfterSettleCallback(s, j, results).Some?
    ensures SameWallets(s, AfterSettleCallback(s, j, results).value)
  {
  }

  lemma SameWalletsAreSilent(s: State, u: State)
    requires SameWallets(s, u)
    ensures Silent(s, u)
  {
  }

  /** Opening, funding, claiming with a NEAR account, naming a winner. */
  lemma OpeningIsSilent(s: State, env: Env, op: Op)
    requires op.CreateEscrow? || op.FtOnTransfer? || op.TakeJob? || op.DesignateWinner?
    requires Attempt(s, env, op).Some?
    ensures SameWallets(s, Attempt(s, env, op).value)
  {
  }

  lemma UnsignedCallIsSilent(s: State, env: Env, op: Op)
    requires JobsInv(s) && KeysOk(s) && SignerOf(op).None? && Attempt(s, env, op).Some?
    ensures Silent(s, Attempt(s, env, op).value)
  {
    if JobOf(op).Some? {
      if SettlingOp(op) {
        SettlingTraffic(s, env, op);
      } else if op.SettleCallback? {
        CallbackIsSilent(s, op.job, op.results);
      } else if op.SubmitResult? {
        OwnSubmissionsKeepWallets(s, env, op.job, op.result);
      } else {
        OpeningIsSilent(s, env, op);
      }
      SameWalletsAreSilent(s, Attempt(s, env, op).value);
    }
  }

  // ---- the record of accepted messages ----

  /** The latest nonce of a key lies above all it was accepted with; only at the largest value does
      it stand still. */
  predicate Spent(a: Accepted, nonce: nat) {
    a.nonce < nonce || a.nonce == nonce == U64_MAX
  }

  ghost predicate Recorded(self: AccountId, a: Accepted) {
    exists action :: a.message == Messages.Message(self, action, a.nonce)
  }

  ghost predicate NoncesInv(s: State) {
    && (forall pk :: NonceOf(s, pk) <= U64_MAX)
    && (forall i :: 0 <= i < |s.accepted| ==> Recorded(s.cfg.self, s.accepted[i]))
    && (forall i :: 0 <= i < |s.accepted| ==> Spent(s.accepted[i], NonceOf(s, s.accepted[i].pubkey)))
    && (forall i, k :: 0 <= i < k < |s.accepted| && s.accepted[i].pubkey == s.accepted[k].pubkey ==>
          Spent(s.accepted[i], s.accepted[k].nonce))
  }

  lemma StepKeepsNonces(s: State, call: Call)
    requires JobsInv(s) && KeysOk(s) && NoncesInv(s)
    ensures NoncesInv(Apply(s, call)) && Apply(s, call).cfg.self == s.cfg.self
  {
    var env, op := call.env, call.op;
    if Attempt(s, env, op).Some? {
      var u := Attempt(s, env, op).value;
      if SignerOf(op).Some? {
        SignedCallAccepts(s, env, op);
        AcceptingKeepsNonces(s, u, SignerOf(op).value.0, SignerOf(op).value.1);
      } else {
        UnsignedCallIsSilent(s, env, op);
      }
    }
  }

  lemma AcceptingKeepsNonces(s: State, u: State, pk: Pubkey, a: Messages.Action)
    requires NoncesInv(s) && Accepts(s, u, pk, a)
    ensures NoncesInv(u)
  {
    var last := u.accepted[|s.accepted|];
    assert Recorded(s.cfg.self, last);
    forall k
      ensures NonceOf(u, k) <= U64_MAX
    {
      assert NonceOf(s, k) <= U64_MAX;
    }
    forall i | 0 <= i < |s.accepted|
      ensures Spent(s.accepted[i], NonceOf(u, s.accepted[i].pubkey))
    {
      assert NonceOf(s, s.accepted[i].pubkey) <= U64_MAX;
      assert Spent(s.accepted[i], NonceOf(s, s.accepted[i].pubkey));
    }
  }

  lemma {:induction false} RunKeepsNonces(s: State, calls: seq<Call>)
    requires JobsInv(s) && KeysOk(s) && NoncesInv(s)
    ensures JobsInv(Run(s, calls)) && KeysOk(Run(s, calls)) && NoncesInv(Run(s, calls))
  {
    if calls != [] {
      var before := calls[..|calls| - 1];
      RunKeepsNonces(s, before);
      StepKeepsNonces(Run(s, before), calls[|calls| - 1]);
      StepKeepsKeys(Run(s, before), calls[|calls| - 1]);
      StepKeepsJobs(Run(s, before), calls[|calls| - 1]);
    }
  }

  /** In every run, over all four kinds of signed action: a text is accepted a second time for the same
      key only when both times its nonce was the largest one. */
  lemma NoMessageTwice(s: State, i: nat, k: nat)
    requires EscrowTheorems.Reachable(s) && i < k < |s.accepted|
    requires s.accepted[i].pubkey == s.accepted[k].pubkey && s.accepted[i].message == s.accepted[k].message
    ensures s.accepted[i].nonce == s.accepted[k].nonce == U64_MAX
  {
    var self, owner, allowed, calls :| s == Run(Initial(self, owner, allowed), calls);
    RunKeepsNonces(Initial(self, owner, allowed), calls);
    assert Recorded(s.cfg.self, s.accepted[i]) && Recorded(s.cfg.self, s.accepted[k]);
    var a :| s.accepted[i].message == Messages.Message(s.cfg.self, a, s.accepted[i].nonce);
    var b :| s.accepted[k].message == Messages.Message(s.cfg.self, b, s.accepted[k].nonce);
    Messages.NonceReadable(s.cfg.self, a, s.accepted[i].nonce, b, s.accepted[k].nonce);
    assert Spent(s.accepted[i], s.accepted[k].nonce);
  }

  /** And there the guard is gone: with the nonce saturated, what was accepted once is accepted again. */
  lemma LargestNonceReplays(s: State, env: Env, pk: Pubkey, a: Messages.Action, sig: seq<Byte>)
    requires Authorized(s, env, pk, a, sig).Some?
    ensures s.workers[pk].nonce == U64_MAX ==> Authorized(Authorized(s, env, pk, a, sig).value, env, pk, a, sig).Some?
  {
  }

  // ---- credits ----

  lemma CallbackPays(s: State, j: JobId, results: seq<bool>)
    requires AfterSettleCallback(s, j, results).Some? && JobInv(s.escrows[j], s.LedgerOf(j))
    ensures CreditPaid(s, AfterSettleCallback(s, j, results).value, j)
  {
    if AllOk(results) {
      FinishedTraffic(s, j);
      PayingInsidePays(s, Finished(s, j), j, s.escrows[j]);
    } else {
      FailedShape(s, j);
    }
  }

  lemma FundingCreditsNobody(s: State, env: Env, sender: AccountId, amount: nat, j: JobId)
    ensures AfterFtOnTransfer(s, env, sender, amount, j).0.LedgerOf(j).credited == s.LedgerOf(j).credited
  {
  }

  lemma OwnCallPays(s: State, env: Env, op: Op)
    requires JobsInv(s) && KeysOk(s) && JobOf(op).Some? && Attempt(s, env, op).Some?
    ensures CreditPaid(s, Attempt(s, env, op).value, JobOf(op).value)
  {
    assert JobOk(s, JobOf(op).value);
    if SettlingOp(op) {
      SettlingTraffic(s, env, op);
      SettlingPays(s, Attempt(s, env, op).value, JobOf(op).value);
    } else if op.SettleCallback? {
      CallbackPays(s, op.job, op.results);
    } else if op.FtOnTransfer? {
      FundingCreditsNobody(s, env, op.sender, op.amount, op.job);
    } else {
      StillTraffic(s, env, op, "another token");
    }
  }

  /** The ledger of the exactly-once theorem is not just a number: whenever a call books a credit for
      a job, the job's worker holds exactly that much more of the job's token. */
  lemma CreditReachesWallet(s: State, call: Call, j: JobId)
    requires EscrowTheorems.Reachable(s) && (call.op.CleanupCompleted? ==> j !in call.op.gone)
    ensures CreditPaid(s, Apply(s, call), j)
  {
    var self, owner, allowed, calls :| s == Run(Initial(self, owner, allowed), calls);
    RunKeepsNonces(Initial(self, owner, allowed), calls);
    var env, op := call.env, call.op;
    hide CreditPaid, JobsInv;
    if Attempt(s, env, op).Some? {
      if JobOf(op) == Some(j) {
        OwnCallPays(s, env, op);
      } else if JobOf(op).Some? {
        if !(op.FtOnTransfer? && op.job !in s.escrows) {
          CallTouches(s, env, op);
        }
        assert Apply(s, call).LedgerOf(j) == s.LedgerOf(j);
      } else if !op.CleanupCompleted? {
        WalletCallsKeepJobs(s, env, op);
      }
    }
  }
}

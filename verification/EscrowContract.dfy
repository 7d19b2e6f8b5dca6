/** The contract as it runs: one object whose calls read an escrow, change it, and write it back.
    Every call is proved to do exactly what `EscrowSpec` says, the functions the theorems on runs are
    about; a call that returns `ok == false` panicked and was reverted. */
module EscrowContract {
  import opened Basics
  import opened EscrowState
  import opened EscrowSpec
  import opened EscrowRuns
  import Hex
  import Messages
  import Consensus
  import Signatures

  /** A settlement that finished, told field by field. */
  lemma FieldByField(s: State, j: JobId, t: State)
    requires j in s.escrows
    requires t.escrows == s.escrows[j := FinishedJob(s.escrows[j])]
    requires t.balances == WithPendingCredits(s.balances, s.escrows[j])
    requires t.ledgers == s.ledgers[j := FinishedLedger(s.escrows[j], s.LedgerOf(j))]
    requires t.stats == s.stats.Move(s.escrows[j].status, FinishedJob(s.escrows[j]).status)
    requires t.underflows == s.underflows + s.stats.Underflow(s.escrows[j].status)
    requires t.outbox == FinishedOutbox(s.outbox, s.cfg.storageDeposit, j, s.escrows[j])
    requires t.cfg == s.cfg && t.workers == s.workers && t.pausedWorkers == s.pausedWorkers
    requires t.index == s.index && t.issued == s.issued && t.accepted == s.accepted
    ensures t == Finished(s, j)
  {
  }

  /** The finished jobs among the first `n` of the order. */
  ghost predicate Picked(
    order: seq<JobId>, n: nat, escrows: map<JobId, Escrow>, toRemove: seq<JobId>, gone: set<JobId>)
  {
    && n <= |order| && gone == (set j | j in toRemove) && |gone| == |toRemove|
    && forall j :: j in gone <==> j in order[..n] && j in escrows && Terminal(escrows[j])
  }

  lemma PickOne(order: seq<JobId>, n: nat, escrows: map<JobId, Escrow>, toRemove: seq<JobId>, gone: set<JobId>)
    requires Picked(order, n, escrows, toRemove, gone) && n < |order| && order[n] in escrows
    requires forall i, k :: 0 <= i < k < |order| ==> order[i] != order[k]
    ensures if Terminal(escrows[order[n]])
            then Picked(order, n + 1, escrows, toRemove + [order[n]], gone + {order[n]})
            else Picked(order, n + 1, escrows, toRemove, gone)
  {
    assert order[..n + 1] == order[..n] + [order[n]];
    assert order[n] !in order[..n];
  }

  class Contract {
    const self: AccountId
    var owner: AccountId
    var paused: bool
    var escrows: map<JobId, Escrow>
    var verifierSet: seq<Signatures.VerifierInfo>
    var consensusThreshold: nat
    var dataIdIndex: map<string, JobId>
    var storageDepositYocto: nat
    var workerStakeYocto: nat
    var workers: map<Pubkey, Worker>
    var balances: map<string, nat>
    var pausedWorkers: set<Pubkey>
    var allowedTokens: seq<AccountId>
    var stats: Stats

    ghost var outbox: seq<Promise>
    ghost var issued: set<DataId>
    ghost var ledgers: map<JobId, Ledger>
    ghost var accepted: seq<Accepted>
    ghost var underflows: nat

    /** The abstract value all contracts speak of. */
    ghost function View(): State
      reads this
    {
      State(
        Config(self, owner, paused, storageDepositYocto, workerStakeYocto, allowedTokens),
        escrows, workers, pausedWorkers, balances, dataIdIndex, stats, outbox, issued, ledgers, accepted, underflows)
    }

    ghost function LedgerOf(j: JobId): Ledger
      reads this
    {
      View().LedgerOf(j)
    }

    constructor (self: AccountId, signer: AccountId, verifiers: seq<Signatures.VerifierInfo>, threshold: nat,
        allowed: seq<AccountId>)
      requires Signatures.ValidSetup(verifiers, threshold)
      ensures View() == Initial(self, signer, allowed)
      ensures verifierSet == verifiers && consensusThreshold == threshold
    {
      this.self := self;
      owner, paused := signer, false;
      escrows, workers, balances, dataIdIndex, pausedWorkers := map[], map[], map[], map[], {};
      verifierSet, consensusThreshold := verifiers, threshold;
      storageDepositYocto, workerStakeYocto := STORAGE_DEPOSIT_YOCTO, WORKER_STAKE_YOCTO;
      allowedTokens := allowed;
      stats := Stats(0, 0, 0, 0, 0, 0, 0, 0, 0);
      outbox, issued, ledgers, accepted, underflows := [], {}, map[], [], 0;
    }

    // ---- helpers ----

    method Decrement(st: Status)
      modifies this`stats
      ensures stats == old(stats).With(st, SatSub(old(stats).Get(st), 1))
    {
      match st {
        case PendingFunding => stats := stats.(pendingFunding := SatSub(stats.pendingFunding, 1));
        case Open => stats := stats.(open := SatSub(stats.open, 1));
        case InProgress => stats := stats.(inProgress := SatSub(stats.inProgress, 1));
        case Verifying => stats := stats.(verifying := SatSub(stats.verifying, 1));
        case Claimed => stats := stats.(claimed := SatSub(stats.claimed, 1));
        case Refunded => stats := stats.(refunded := SatSub(stats.refunded, 1));
        case Cancelled => stats := stats.(cancelled := SatSub(stats.cancelled, 1));
        case SettlementFailed => stats := stats.(settlementFailed := SatSub(stats.settlementFailed, 1));
      }
    }

    method Increment(st: Status)
      modifies this`stats
      ensures stats == old(stats).With(st, SatAdd(old(stats).Get(st), 1, U64_MAX))
    {
      match st {
        case PendingFunding => stats := stats.(pendingFunding := SatAdd(stats.pendingFunding, 1, U64_MAX));
        case Open => stats := stats.(open := SatAdd(stats.open, 1, U64_MAX));
        case InProgress => stats := stats.(inProgress := SatAdd(stats.inProgress, 1, U64_MAX));
        case Verifying => stats := stats.(verifying := SatAdd(stats.verifying, 1, U64_MAX));
        case Claimed => stats := stats.(claimed := SatAdd(stats.claimed, 1, U64_MAX));
        case Refunded => stats := stats.(refunded := SatAdd(stats.refunded, 1, U64_MAX));
        case Cancelled => stats := stats.(cancelled := SatAdd(stats.cancelled, 1, U64_MAX));
        case SettlementFailed => stats := stats.(settlementFailed := SatAdd(stats.settlementFailed, 1, U64_MAX));
      }
    }

    method TransitionStats(from: Status, to: Status)
      modifies this`stats, this`underflows
      ensures stats == old(stats).Move(from, to) && underflows == old(underflows) + old(stats).Underflow(from)
    {
      underflows := underflows + stats.Underflow(from);
      Decrement(from);
      Increment(to);
    }

    method CreditBalance(pk: Pubkey, token: string, amount: nat)
      modifies this`balances
      ensures balances == Credit(old(balances), pk, token, amount)
    {
      var key := BalanceKey(pk, token);
      var current := if key in balances then balances[key] else 0;
      balances := balances[key := SatAdd(current, amount, U128_MAX)];
    }

    method DebitBalance(pk: Pubkey, token: string, amount: nat) returns (ok: bool)
      modifies this`balances
      ensures ok <==> Debit(old(balances), pk, token, amount).Some?
      ensures balances == if ok then Debit(old(balances), pk, token, amount).value else old(balances)
    {
      var key := BalanceKey(pk, token);
      var current := if key in balances then balances[key] else 0;
      if current < amount {
        return false;
      }
      balances := balances[key := SatSub(current, amount)];
      return true;
    }

    method Launch(p: Promise)
      modifies this`outbox
      ensures outbox == old(outbox) + [p]
    {
      outbox := outbox + [p];
    }

    /** The runtime's revert after a panic part-way through a call. */
    method Revert(savedEscrows: map<JobId, Escrow>, savedIndex: map<string, JobId>, savedStats: Stats, ghost s: State)
      requires savedEscrows == s.escrows && savedIndex == s.index && savedStats == s.stats
      requires View().cfg == s.cfg && workers == s.workers && pausedWorkers == s.pausedWorkers
      requires balances == s.balances && issued == s.issued && accepted == s.accepted
      modifies this`escrows, this`dataIdIndex, this`stats, this`outbox, this`ledgers, this`underflows
      ensures View() == s
    {
      escrows, dataIdIndex, stats := savedEscrows, savedIndex, savedStats;
      outbox, ledgers, underflows := s.outbox, s.ledgers, s.underflows;
    }

    // ---- settlement ----

    /** `_settle_escrow`: launch the transfers; with none to make, settle at once. */
    method SettleEscrow(j: JobId) returns (ok: bool)
      modifies this
      ensures ok <==> AfterSettle(old(View()), j).Some?
      ensures View() == if ok then AfterSettle(old(View()), j).value else old(View())
      ensures unchanged(this`verifierSet) && unchanged(this`consensusThreshold)
    {
      if j !in escrows || escrows[j].target.None? {
        return false;
      }
      if escrows[j].workerPubkey.Some? {
        ok := SettleInternal(j, escrows[j].target.value);
      } else {
        ok := SettleExternal(j, escrows[j].target.value);
      }
    }

    /** An internal worker: its credits are put on hold, the rest is transferred. */
    method SettleInternal(j: JobId, target: Target) returns (ok: bool)
      requires j in escrows && escrows[j].target == Some(target) && escrows[j].workerPubkey.Some?
      modifies this`escrows, this`balances, this`ledgers, this`stats, this`underflows, this`outbox
      ensures ok <==> AfterSettle(old(View()), j).Some?
      ensures View() == if ok then AfterSettle(old(View()), j).value else old(View())
    {
      var escrow := escrows[j];
      var total, fee := escrow.terms.amount, escrow.terms.fee;
      var net := SatSub(total, fee);
      var transfers: seq<Transfer> := [];
      // stale credits from an earlier attempt are dropped
      escrow := escrow.(pendingPayout := None, pendingStake := None);
      match target {
        case Claim =>
          if net == 0 {
            return false;
          }
          escrow := escrow.(pendingPayout := Some(net), pendingStake := escrow.workerStake);
          if fee > 0 {
            transfers := transfers + [Transfer(owner, fee)];
          }
          escrows := escrows[j := escrow];
          if transfers == [] {
            FinishNow(j);
            return true;
          }
        case Refund =>
          if net == 0 {
            return false;
          }
          escrow := escrow.(pendingStake := escrow.workerStake);
          escrows := escrows[j := escrow];
          transfers := [Transfer(escrow.terms.agent, net)];
          if fee > 0 {
            transfers := transfers + [Transfer(owner, fee)];
          }
        case FullRefund =>
          if total == 0 {
            return false;
          }
          escrow := escrow.(pendingStake := escrow.workerStake);
          escrows := escrows[j := escrow];
          transfers := [Transfer(escrow.terms.agent, total)];
      }
      assert Plan(old(escrows[j]), owner).value == transfers;
      Launch(Batch(j, escrow.terms.token, transfers));
      return true;
    }

    /** A worker with a NEAR account, or none: everything is transferred. */
    method SettleExternal(j: JobId, target: Target) returns (ok: bool)
      requires j in escrows && escrows[j].target == Some(target) && escrows[j].workerPubkey.None?
      modifies this`outbox
      ensures ok <==> AfterSettle(old(View()), j).Some?
      ensures View() == if ok then AfterSettle(old(View()), j).value else old(View())
    {
      var escrow := escrows[j];
      var total, fee := escrow.terms.amount, escrow.terms.fee;
      var net := SatSub(total, fee);
      var transfers: seq<Transfer> := [];
      match target {
        case Claim =>
          if escrow.worker.None? || net == 0 {
            return false;
          }
          transfers := [Transfer(escrow.worker.value, net)];
          if fee > 0 {
            transfers := transfers + [Transfer(owner, fee)];
          }
        case Refund =>
          if net == 0 {
            return false;
          }
          transfers := [Transfer(escrow.terms.agent, net)];
          if fee > 0 {
            transfers := transfers + [Transfer(owner, fee)];
          }
        case FullRefund =>
          if total == 0 {
            return false;
          }
          transfers := [Transfer(escrow.terms.agent, total)];
      }
      assert View().Put(j, escrow) == View();
      assert Plan(escrow, owner).value == transfers;
      Launch(Batch(j, escrow.terms.token, transfers));
      return true;
    }

    method ApplyPendingCredits(escrow: Escrow) returns (e: Escrow)
      modifies this`balances
      ensures balances == WithPendingCredits(old(balances), escrow)
      ensures e == if escrow.workerPubkey.Some? then escrow.(pendingPayout := None, pendingStake := None) else escrow
    {
      e := escrow;
      if escrow.workerPubkey.Some? {
        var pk := escrow.workerPubkey.value;
        if escrow.pendingPayout.Some? {
          CreditBalance(pk, escrow.terms.token, escrow.pendingPayout.value);
        }
        if escrow.pendingStake.Some? {
          CreditBalance(pk, NEAR_TOKEN_ID, escrow.pendingStake.value);
        }
        e := e.(pendingPayout := None, pendingStake := None);
      }
    }

    method ReturnDeposits(j: JobId, escrow: Escrow)
      modifies this`outbox
      ensures outbox == FinishedOutbox(old(outbox), storageDepositYocto, j, escrow)
    {
      Launch(Near(escrow.terms.agent, storageDepositYocto, StorageRefund));
      if escrow.workerPubkey.None? {
        if escrow.workerStake.Some? {
          if escrow.worker.Some? {
            Launch(Near(escrow.worker.value, escrow.workerStake.value, StakeOf(j)));
          }
        }
      }
    }

    /** The success branch shared by `settle_callback` and `_settle_callback_internal`; the latter is only
        reached with an internal worker, whose stake is credited rather than transferred. */
    method Finalize(j: JobId)
      requires j in escrows && escrows[j].target.Some?
      modifies this`escrows, this`balances, this`ledgers, this`stats, this`underflows, this`outbox
      ensures escrows == old(escrows)[j := FinishedJob(old(escrows)[j])]
      ensures balances == WithPendingCredits(old(balances), old(escrows)[j])
      ensures ledgers == old(ledgers)[j := FinishedLedger(old(escrows)[j], old(LedgerOf(j)))]
      ensures stats == old(stats).Move(old(escrows)[j].status, FinishedJob(old(escrows)[j]).status)
      ensures underflows == old(underflows) + old(stats).Underflow(old(escrows)[j].status)
      ensures outbox == FinishedOutbox(old(outbox), storageDepositYocto, j, old(escrows)[j])
    {
      ghost var before, booked := escrows[j], LedgerOf(j);
      var escrow := escrows[j];
      var target, oldStatus := escrow.target.value, escrow.status;
      escrow := ApplyPendingCredits(escrow);
      escrow := escrow.(status := if target == Claim then Claimed else Refunded);
      TransitionStats(oldStatus, escrow.status);
      escrow := escrow.(target := None);
      ReturnDeposits(j, escrow);
      escrow := escrow.(workerStake := None);
      escrows := escrows[j := escrow];
      ledgers := ledgers[j := FinishedLedger(before, booked)];
      assert escrow == FinishedJob(before);
    }

    method FinishNow(j: JobId)
      requires j in escrows && escrows[j].target.Some?
      modifies this`escrows, this`balances, this`ledgers, this`stats, this`underflows, this`outbox
      ensures View() == Finished(old(View()), j)
    {
      ghost var s := View();
      Finalize(j);
      FieldByField(s, j, View());
    }

    /** The batch of transfers is through: with every result good the escrow is final. */
    method SettleCallback(j: JobId, results: seq<bool>) returns (ok: bool)
      modifies this
      ensures ok <==> AfterSettleCallback(old(View()), j, results).Some?
      ensures View() == if ok then AfterSettleCallback(old(View()), j, results).value else old(View())
    {
      if |results| == 0 || j !in escrows || escrows[j].target.None? {
        return false;
      }
      var allOk, i := true, 0;
      while i < |results| && allOk
        invariant 0 <= i <= |results|
        invariant allOk <==> forall k :: 0 <= k < i ==> results[k]
      {
        if !results[i] {
          allOk := false;
        }
        i := i + 1;
      }
      assert allOk <==> AllOk(results);
      if allOk {
        FinishNow(j);
      } else {
        var escrow := escrows[j];
        TransitionStats(escrow.status, SettlementFailed);
        escrows := escrows[j := escrow.(status := SettlementFailed)];
      }
      return true;
    }

    /** The owner at once, anyone after expiry; the sixth attempt gives up and keeps the target. */
    method RetrySettlement(env: Env, j: JobId) returns (ok: bool)
      modifies this
      ensures ok <==> AfterRetry(old(View()), env, j).Some?
      ensures View() == if ok then AfterRetry(old(View()), env, j).value else old(View())
    {
      if j !in escrows {
        return false;
      }
      var escrow := escrows[j];
      var valid := escrow.status == SettlementFailed
        || (escrow.status == Verifying && escrow.target.Some?)
        || (escrow.status == Cancelled && escrow.target.Some?);
      if !valid || escrow.target.None? {
        return false;
      }
      escrow := escrow.(retryCount := (escrow.retryCount + 1) % 256);
      if escrow.retryCount > MAX_SETTLEMENT_RETRIES {
        GiveUp(j, escrow);
        return true;
      }
      if env.predecessor != owner && env.nowMs <= escrow.terms.createdAt + escrow.terms.timeoutMs {
        return false;
      }
      ok := SettleWith(j, escrow);
    }

    method GiveUp(j: JobId, escrow: Escrow)
      modifies this`escrows, this`stats, this`underflows, this`outbox
      ensures View() == GivenUp(old(View()), j, escrow)
    {
      TransitionStats(SettlementFailed, Cancelled);
      escrows := escrows[j := escrow.(status := Cancelled)];
      Launch(Near(escrow.terms.agent, storageDepositYocto, StorageRefund));
    }

    /** Write the escrow and settle it; should that panic, the runtime reverts the write. */
    method SettleWith(j: JobId, escrow: Escrow) returns (ok: bool)
      modifies this
      ensures ok <==> AfterSettle(old(View()).Put(j, escrow), j).Some?
      ensures View() == if ok then AfterSettle(old(View()).Put(j, escrow), j).value else old(View())
    {
      var saved := escrows;
      escrows := escrows[j := escrow];
      ok := SettleEscrow(j);
      if !ok {
        escrows := saved;
      }
    }

    // ---- verification ----

    method Unindex(dataId: Option<DataId>)
      modifies this`dataIdIndex
      ensures View() == Unindexed(old(View()), dataId)
    {
      if dataId.Some? {
        dataIdIndex := dataIdIndex - {Hex.Encode(dataId.value)};
      }
    }

    /** The stake leaves the escrow of `j`: to an account, or to nobody. */
    method ReleaseStake(j: JobId, to: Option<AccountId>)
      requires j in escrows
      modifies this`escrows, this`outbox, this`ledgers
      ensures View() == Released(old(View()), j, to)
    {
      var escrow := escrows[j];
      ghost var l := LedgerOf(j);
      if escrow.workerStake.Some? {
        var stake := escrow.workerStake.value;
        if to.Some? {
          Launch(Near(to.value, stake, StakeOf(j)));
          ledgers := ledgers[j := l.(stakeOut := l.stakeOut + stake)];
        } else {
          ledgers := ledgers[j := l.(retained := l.retained + stake)];
        }
        escrows := escrows[j := escrow.(workerStake := None)];
      }
    }

    /** The yield came back: with a payload, with text that is no JSON, or not in time. */
    method VerificationCallback(j: JobId, payload: Payload) returns (ok: bool)
      modifies this
      ensures ok <==> AfterVerification(old(View()), j, payload).Some?
      ensures View() == if ok then AfterVerification(old(View()), j, payload).value else old(View())
    {
      if j !in escrows {
        return false;
      }
      if escrows[j].status != Verifying {
        return true;
      }
      ghost var s := View();
      var savedEscrows, savedIndex, savedStats := escrows, dataIdIndex, stats;
      JudgeEscrow(j, payload);
      ok := SettleEscrow(j);
      if !ok {
        Revert(savedEscrows, savedIndex, savedStats, s);
      }
    }

    /** A verdict only passes at or above the threshold, whatever it says itself. */
    method ReadVerdict(payload: Payload, threshold: nat) returns (verdict: Option<Verdict>)
      ensures verdict == VerdictOf(payload, threshold)
    {
      match payload {
        case Parsed(score_, passed_, detail_) =>
          var score := (if score_.Some? then score_.value else 0) % 256;
          var rawPassed := passed_.Some? && passed_.value;
          var actuallyPassed := rawPassed && score >= threshold;
          verdict := Some(Verdict(score, actuallyPassed, if detail_.Some? then detail_.value else "no detail"));
        case _ =>
          verdict := None;
      }
    }

    /** Read the payload into verdict and target; without a verdict the stake leaves as well. */
    method JudgeEscrow(j: JobId, payload: Payload)
      requires j in escrows
      modifies this`escrows, this`outbox, this`ledgers, this`dataIdIndex
      ensures View() == JudgedState(old(View()), j, payload)
    {
      var dataId := escrows[j].dataId;
      var verdict := ReadVerdict(payload, escrows[j].terms.scoreThreshold);
      var target := if verdict.None? then FullRefund else if verdict.value.passed then Claim else Refund;
      if verdict.None? {
        // no verdict: an internal worker's stake is put on hold, and dropped by the settlement that follows
        ReleaseStake(j, if escrows[j].workerPubkey.Some? then None else escrows[j].worker);
      }
      Unindex(dataId);
      var escrow := escrows[j];
      escrow := escrow.(yieldConsumed := true, verdict := verdict, target := Some(target), dataId := None);
      escrows := escrows[j := escrow];
    }

    ghost function Setup(): Consensus.Setup
      reads this
    {
      Consensus.Setup(verifierSet, consensusThreshold)
    }

    /** Anyone may relay a verdict that enough verifiers signed for this data id. Nothing is written: the
        escrow changes when the runtime delivers the payload to `VerificationCallback`. */
    method ResumeVerificationMulti(
      dataIdHex: string, verdictJson: string, sigs: seq<Signatures.VerifierSignature>,
      ed25519: Ed25519, isVerdict: string -> bool)
      returns (resumed: Option<(seq<Byte>, string)>)
      ensures resumed.Some? <==>
        && Consensus.Resumable(View(), dataIdHex)
        && Consensus.ManySigned(Setup(), dataIdHex, verdictJson, sigs, ed25519) && isVerdict(verdictJson)
      ensures resumed.Some? <==>
        && NamesYield(dataIdHex) && verifierSet != [] && |sigs| <= |verifierSet| && isVerdict(verdictJson)
        && |Signatures.Signers(verifierSet, dataIdHex + ":" + verdictJson, sigs, ed25519)| % 256 >= consensusThreshold
      ensures resumed.Some? ==>
        && resumed.value == (Hex.Decode(dataIdHex).value, verdictJson)
        && |Signatures.Signers(verifierSet, Signatures.ScopedMessage(dataIdHex, verdictJson), sigs, ed25519)|
             >= consensusThreshold
    {
      if |verifierSet| == 0 || |sigs| > |verifierSet| {
        return None;
      }
      var message := Signatures.ScopedMessage(dataIdHex, verdictJson);
      var validSigs := Signatures.CountValidSignatures(verifierSet, message, sigs, ed25519);
      if validSigs < consensusThreshold || !isVerdict(verdictJson) {
        return None;
      }
      resumed := ResumeYield(dataIdHex, verdictJson);
    }

    /** One active verifier's signature, whatever the threshold. */
    method ResumeVerification(
      dataIdHex: string, verdictJson: string, verifierIndex: Byte, signature: seq<Byte>, ed25519: Ed25519)
      returns (resumed: Option<(seq<Byte>, string)>)
      ensures resumed.Some? <==>
        && Consensus.Resumable(View(), dataIdHex)
        && Consensus.OneSigned(Setup(), dataIdHex, verdictJson, verifierIndex, signature, ed25519)
      ensures resumed.Some? ==>
        && NamesYield(dataIdHex) && verifierIndex < |verifierSet| && verifierSet[verifierIndex].active
        && var key := Hex.Decode(verifierSet[verifierIndex].publicKey);
          && key.Some? && |key.value| == 32 && |signature| == 64
          && ed25519(key.value, dataIdHex + ":" + verdictJson, signature)
      ensures resumed.Some? ==> resumed.value == (Hex.Decode(dataIdHex).value, verdictJson)
    {
      if |verifierSet| == 0 || verifierIndex >= |verifierSet| || !verifierSet[verifierIndex].active {
        return None;
      }
      var message := Signatures.ScopedMessage(dataIdHex, verdictJson);
      var publicKey := verifierSet[verifierIndex].publicKey;
      if |signature| != 64 || !Consensus.Digits(publicKey) {
        return None;
      }
      var key := Hex.Decode(publicKey);
      if key.None? || |key.value| != 32 || !ed25519(key.value, message, signature) {
        return None;
      }
      resumed := ResumeYield(dataIdHex, verdictJson);
    }

    /** The text spells an id of 32 bytes, and if it is listed, its job is there and was not judged. */
    ghost predicate NamesYield(dataIdHex: string)
      reads this
    {
      && |dataIdHex| == 64 && Hex.Decode(dataIdHex).Some?
      && (dataIdHex in dataIdIndex ==>
            dataIdIndex[dataIdHex] in escrows && !escrows[dataIdIndex[dataIdHex]].yieldConsumed)
    }

    /** The part both entries share: the guard against resuming twice, and the id. */
    method ResumeYield(dataIdHex: string, verdictJson: string) returns (resumed: Option<(seq<Byte>, string)>)
      ensures resumed.Some? <==> Consensus.Resumable(View(), dataIdHex)
      ensures resumed.Some? <==> NamesYield(dataIdHex)
      ensures resumed.Some? ==> resumed.value == (Hex.Decode(dataIdHex).value, verdictJson)
    {
      if dataIdHex in dataIdIndex {
        var j := dataIdIndex[dataIdHex];
        if j !in escrows || escrows[j].yieldConsumed {
          return None;
        }
      }
      if |dataIdHex| != 64 {
        return None;
      }
      var dataId := Hex.DecodeSafe(dataIdHex);
      if dataId.None? {
        return None;
      }
      return Some((dataId.value, verdictJson));
    }

    /** Owner only; accounts are not repeated. */
    method AddVerifier(env: Env, account: string, publicKey: string)
      modifies this`verifierSet
      ensures Setup() == Consensus.Reconfigured(old(Setup()), owner, Consensus.AddVerifier(env, account, publicKey))
      ensures verifierSet == old(verifierSet)
        + if env.predecessor == owner && |publicKey| == 64
             && forall i :: 0 <= i < |old(verifierSet)| ==> old(verifierSet)[i].account != account
          then [Signatures.VerifierInfo(account, publicKey, true)] else []
    {
      if env.predecessor != owner || |publicKey| != 64 {
        return;
      }
      for i := 0 to |verifierSet|
        invariant forall k :: 0 <= k < i ==> verifierSet[k].account != account
      {
        if verifierSet[i].account == account {
          return;
        }
      }
      verifierSet := verifierSet + [Signatures.VerifierInfo(account, publicKey, true)];
    }

    /** The entry stays in place, so indices do not shift. */
    method DeactivateVerifier(env: Env, index: Byte)
      modifies this`verifierSet
      ensures Setup() == Consensus.Reconfigured(old(Setup()), owner, Consensus.DeactivateVerifier(env, index))
      ensures |verifierSet| == |old(verifierSet)|
      ensures forall i :: 0 <= i < |verifierSet| ==>
        verifierSet[i] == if env.predecessor == owner && i == index then old(verifierSet)[i].(active := false)
                          else old(verifierSet)[i]
    {
      if env.predecessor == owner && index < |verifierSet| {
        verifierSet := verifierSet[index := verifierSet[index].(active := false)];
      }
    }

    method SetConsensusThreshold(env: Env, threshold: Byte)
      modifies this`consensusThreshold
      ensures Setup() == Consensus.Reconfigured(old(Setup()), owner, Consensus.SetThreshold(env, threshold))
      ensures consensusThreshold == if env.predecessor == owner && threshold >= 1
                                       && threshold <= |Signatures.ActiveSet(verifierSet)|
                                    then threshold else old(consensusThreshold)
    {
      Signatures.ActiveCounts(verifierSet);
      if env.predecessor == owner && 1 <= threshold <= Signatures.ActiveCount(verifierSet) {
        consensusThreshold := threshold;
      }
    }

    // ---- cancelling and refunding ----

    method MarkCancelled(j: JobId, from: Status)
      requires j in escrows
      modifies this`escrows, this`stats, this`underflows, this`outbox
      ensures View() == MarkedCancelled(old(View()), j, from)
    {
      var escrow := escrows[j];
      TransitionStats(from, Cancelled);
      escrow := escrow.(status := Cancelled);
      escrows := escrows[j := escrow];
      Launch(Near(escrow.terms.agent, storageDepositYocto, StorageRefund));
    }

    method RefundAll(j: JobId) returns (ok: bool)
      requires j in escrows
      modifies this
      ensures ok <==> FullyRefunding(old(View()), j).Some?
      ensures View() == if ok then FullyRefunding(old(View()), j).value else old(View())
    {
      ok := SettleWith(j, escrows[j].(target := Some(FullRefund)));
    }

    method CancelEscrow(env: Env, j: JobId) returns (ok: bool)
      modifies this
      ensures ok <==> AfterCancel(old(View()), env, j).Some?
      ensures View() == if ok then AfterCancel(old(View()), env, j).value else old(View())
    {
      if j !in escrows || env.signer != escrows[j].terms.agent {
        return false;
      }
      match escrows[j].status {
        case PendingFunding =>
          MarkCancelled(j, PendingFunding);
          return true;
        case Open =>
          ok := RefundAll(j);
        case _ =>
          return false;
      }
    }

    method Abandon(j: JobId, to: Option<AccountId>)
      requires j in escrows
      modifies this`escrows, this`outbox, this`ledgers, this`dataIdIndex
      ensures View() == Abandoned(old(View()), j, to)
    {
      var dataId := escrows[j].dataId;
      ReleaseStake(j, to);
      Unindex(dataId);
      escrows := escrows[j := escrows[j].(dataId := None, yieldConsumed := false)];
    }

    method CallOff(j: JobId)
      requires j in escrows
      modifies this`escrows, this`outbox, this`ledgers, this`dataIdIndex, this`stats, this`underflows
      ensures View() == CalledOff(old(View()), j)
    {
      Abandon(j, escrows[j].worker);
      MarkCancelled(j, Verifying);
    }

    method CallOffAndRefund(j: JobId) returns (ok: bool)
      requires j in escrows
      modifies this
      ensures ok <==> FullyRefunding(CalledOff(old(View()), j), j).Some?
      ensures View() == if ok then FullyRefunding(CalledOff(old(View()), j), j).value else old(View())
    {
      ghost var s := View();
      var savedEscrows, savedIndex, savedStats := escrows, dataIdIndex, stats;
      CallOff(j);
      ok := RefundAll(j);
      if !ok {
        Revert(savedEscrows, savedIndex, savedStats, s);
      }
    }

    method ForceCancelVerifying(env: Env, j: JobId) returns (ok: bool)
      modifies this
      ensures ok <==> AfterForceCancel(old(View()), env, j).Some?
      ensures View() == if ok then AfterForceCancel(old(View()), env, j).value else old(View())
    {
      if env.predecessor != owner || j !in escrows || escrows[j].status != Verifying {
        return false;
      }
      var escrow := escrows[j];
      var start := if escrow.verifyingSince.Some? then escrow.verifyingSince.value else escrow.terms.createdAt;
      if env.nowMs < start + VERIFICATION_SAFETY_TIMEOUT_MS {
        return false;
      }
      ok := CallOffAndRefund(j);
    }

    /** Release the stake, then settle with a full refund; should that panic, the runtime reverts it all. */
    method ReleaseAndRefund(j: JobId, to: Option<AccountId>) returns (ok: bool)
      requires j in escrows
      modifies this
      ensures ok <==> FullyRefunding(Released(old(View()), j, to), j).Some?
      ensures View() == if ok then FullyRefunding(Released(old(View()), j, to), j).value else old(View())
    {
      ghost var s := View();
      var savedEscrows, savedIndex, savedStats := escrows, dataIdIndex, stats;
      ReleaseStake(j, to);
      ok := RefundAll(j);
      if !ok {
        Revert(savedEscrows, savedIndex, savedStats, s);
      }
    }

    method AbandonAndRefund(j: JobId, to: Option<AccountId>) returns (ok: bool)
      requires j in escrows
      modifies this
      ensures ok <==> FullyRefunding(Abandoned(old(View()), j, to), j).Some?
      ensures View() == if ok then FullyRefunding(Abandoned(old(View()), j, to), j).value else old(View())
    {
      ghost var s := View();
      var savedEscrows, savedIndex, savedStats := escrows, dataIdIndex, stats;
      Abandon(j, to);
      ok := RefundAll(j);
      if !ok {
        Revert(savedEscrows, savedIndex, savedStats, s);
      }
    }

    method RefundExpired(env: Env, j: JobId) returns (ok: bool)
      modifies this
      ensures ok <==> AfterRefundExpired(old(View()), env, j).Some?
      ensures View() == if ok then AfterRefundExpired(old(View()), env, j).value else old(View())
    {
      if paused || j !in escrows || env.nowMs <= escrows[j].terms.createdAt + escrows[j].terms.timeoutMs {
        return false;
      }
      var escrow := escrows[j];
      match escrow.status {
        case PendingFunding =>
          MarkCancelled(j, PendingFunding);
          return true;
        case Open =>
          ok := RefundAll(j);
        case InProgress =>
          ok := ReleaseAndRefund(j, Some(escrow.terms.agent)); // forfeited
        case Verifying =>
          var start := if escrow.verifyingSince.Some? then escrow.verifyingSince.value else escrow.terms.createdAt;
          if env.nowMs < start + VERIFICATION_SAFETY_TIMEOUT_MS {
            return false;
          }
          ok := AbandonAndRefund(j, if escrow.workerPubkey.Some? then None else escrow.worker);
        case SettlementFailed =>
          ok := SettleEscrow(j);
        case _ =>
          return false;
      }
    }

    // ---- wallet ----

    method RegisterWorker(env: Env, pk: Pubkey) returns (ok: bool)
      modifies this
      ensures ok <==> AfterRegisterWorker(old(View()), env, pk).Some?
      ensures View() == if ok then AfterRegisterWorker(old(View()), env, pk).value else old(View())
    {
      if env.predecessor != owner || |pk| == 0 || |pk| != 64 || pk in workers || pk in pausedWorkers {
        return false;
      }
      workers := workers[pk := Worker(None, 0)];
      return true;
    }

    method DepositToWorker(env: Env, pk: Pubkey) returns (ok: bool)
      modifies this
      ensures ok <==> AfterDepositToWorker(old(View()), env, pk).Some?
      ensures View() == if ok then AfterDepositToWorker(old(View()), env, pk).value else old(View())
    {
      if env.deposit == 0 || pk !in workers || pk in pausedWorkers {
        return false;
      }
      CreditBalance(pk, NEAR_TOKEN_ID, env.deposit);
      return true;
    }

    /** Check the worker's signature over the action and its nonce, then move the nonce on. */
    method Authorize(env: Env, pk: Pubkey, a: Messages.Action, sig: seq<Byte>) returns (ok: bool)
      modifies this`workers, this`accepted
      ensures ok <==> Authorized(old(View()), env, pk, a, sig).Some?
      ensures View() == if ok then Authorized(old(View()), env, pk, a, sig).value else old(View())
    {
      if pk !in workers {
        return false;
      }
      var worker := workers[pk];
      var message := Messages.Message(self, a, worker.nonce);
      var key := Hex.Decode(pk);
      if key.None? || |key.value| != 32 || |sig| != 64 || !env.ed25519(key.value, message, sig) {
        return false;
      }
      accepted := accepted + [Accepted(pk, message, worker.nonce)];
      workers := workers[pk := worker.(nonce := SatAdd(worker.nonce, 1, U64_MAX))];
      return true;
    }

    method Withdraw(env: Env, pk: Pubkey, token: string, amount: nat, to: AccountId, sig: seq<Byte>) returns (ok: bool)
      modifies this
      ensures ok <==> AfterWithdraw(old(View()), env, pk, token, amount, to, sig).Some?
      ensures View() == if ok then AfterWithdraw(old(View()), env, pk, token, amount, to, sig).value else old(View())
    {
      if pk in pausedWorkers {
        return false;
      }
      var savedWorkers, savedBalances := workers, balances;
      ghost var savedAccepted := accepted;
      ok := Authorize(env, pk, Messages.Withdrawal(token, amount, to), sig);
      if !ok {
        return;
      }
      ok := PayOut(pk, token, amount, to);
      if !ok {
        workers, balances, accepted := savedWorkers, savedBalances, savedAccepted;
      }
    }

    /** After a refusal only the balances may have changed, and the caller's panic reverts them. */
    method PayOut(pk: Pubkey, token: string, amount: nat, to: AccountId) returns (ok: bool)
      modifies this`balances, this`outbox
      ensures ok <==> Paid(old(View()), pk, token, amount, to).Some?
      ensures ok ==> View() == Paid(old(View()), pk, token, amount, to).value
      ensures !ok ==> View() == old(View()).(balances := balances)
    {
      ok := DebitBalance(pk, token, amount);
      if !ok {
        return;
      }
      if token == NEAR_TOKEN_ID {
        Launch(Near(to, amount, Wallet));
      } else if Messages.ValidAccountId(token) {
        Launch(Ft(token, Transfer(to, amount)));
      } else {
        ok := false;
      }
    }

    method LinkNearAccount(env: Env, pk: Pubkey, account: AccountId, sig: seq<Byte>) returns (ok: bool)
      modifies this
      ensures ok <==> AfterLinkNearAccount(old(View()), env, pk, account, sig).Some?
      ensures View() == if ok then AfterLinkNearAccount(old(View()), env, pk, account, sig).value else old(View())
    {
      ok := Authorize(env, pk, Messages.Link(account), sig);
      if ok {
        workers := workers[pk := workers[pk].(account := Some(account))];
      }
    }

    // ---- creation, funding, claiming ----

    method CreateEscrow(env: Env, a: CreateArgs) returns (ok: bool)
      modifies this
      ensures ok <==> AfterCreate(old(View()), env, a).Some?
      ensures View() == if ok then AfterCreate(old(View()), env, a).value else old(View())
    {
      if paused || |a.job| == 0 || |a.job| > MAX_JOB_ID_LEN {
        return false;
      }
      if allowedTokens != [] && a.token !in allowedTokens {
        return false;
      }
      if a.amount == 0 || a.timeoutHours > 8760 || a.job in escrows {
        return false;
      }
      var fee := if a.fee.Some? then a.fee.value else 0;
      if fee >= a.amount || (a.scoreThreshold.Some? && a.scoreThreshold.value > 100) {
        return false;
      }
      if |a.taskDescription| > MAX_TASK_DESCRIPTION_LEN || |a.criteria| == 0 || |a.criteria| > MAX_CRITERIA_LEN {
        return false;
      }
      if env.deposit < storageDepositYocto {
        return false;
      }
      var mode := if a.maxSubmissions.Some? then Competitive else Standard;
      var threshold := if a.scoreThreshold.Some? then a.scoreThreshold.value else 80;
      var terms := Terms(env.signer, a.amount, a.token, env.nowMs, a.timeoutHours * 3_600_000, a.taskDescription,
                         a.criteria, fee, threshold, mode, a.maxSubmissions, a.deadlineBlock);
      escrows := escrows[a.job := Escrow(terms, PendingFunding, None, None, None, None, None, None, false, None,
                                         None, None, None, 0, [], None)];
      stats := stats.(totalCreated := stats.totalCreated + 1, pendingFunding := stats.pendingFunding + 1);
      return true;
    }

    method FtOnTransfer(env: Env, sender: AccountId, amount: nat, j: JobId) returns (unused: nat)
      modifies this
      ensures (View(), unused) == AfterFtOnTransfer(old(View()), env, sender, amount, j)
    {
      var token := env.predecessor;
      if allowedTokens != [] && token !in allowedTokens {
        return amount;
      }
      if j !in escrows {
        return amount;
      }
      var escrow := escrows[j];
      if sender != escrow.terms.agent || token != escrow.terms.token || amount != escrow.terms.amount
         || escrow.status != PendingFunding {
        return amount;
      }
      ghost var l := LedgerOf(j);
      TransitionStats(PendingFunding, Open);
      escrows := escrows[j := escrow.(status := Open)];
      ledgers := ledgers[j := l.(openings := l.openings + 1)];
      return 0;
    }

    method ClaimJob(env: Env, j: JobId) returns (ok: bool)
      modifies this
      ensures ok <==> AfterClaim(old(View()), env, j).Some?
      ensures View() == if ok then AfterClaim(old(View()), env, j).value else old(View())
    {
      if paused || j !in escrows {
        return false;
      }
      var escrow := escrows[j];
      if escrow.status != Open || escrow.worker.Some? || env.signer == escrow.terms.agent
         || env.deposit < workerStakeYocto {
        return false;
      }
      Bind(j, env.signer, escrow.workerPubkey, env.deposit);
      return true;
    }

    /** The worker, the stake and the new status are written; the counters follow. */
    method Bind(j: JobId, worker: AccountId, pk: Option<Pubkey>, stake: nat)
      requires j in escrows && escrows[j].status == Open
      modifies this`escrows, this`stats, this`underflows, this`ledgers
      ensures View() == Bound(old(View()), j, worker, pk, stake)
    {
      ghost var l := LedgerOf(j);
      var escrow := escrows[j];
      var oldStatus := escrow.status;
      escrow := escrow.(workerPubkey := pk, worker := Some(worker), workerStake := Some(stake), status := InProgress);
      TransitionStats(oldStatus, InProgress);
      escrows := escrows[j := escrow];
      ledgers := ledgers[j := l.(stakeIn := l.stakeIn + stake)];
    }

    method ClaimJobFor(env: Env, j: JobId, pk: Pubkey, sig: seq<Byte>) returns (ok: bool)
      modifies this
      ensures ok <==> AfterClaimFor(old(View()), env, j, pk, sig).Some?
      ensures View() == if ok then AfterClaimFor(old(View()), env, j, pk, sig).value else old(View())
    {
      if paused || pk in pausedWorkers {
        return false;
      }
      var savedWorkers := workers;
      ghost var savedAccepted := accepted;
      ok := Authorize(env, pk, Messages.ClaimJob(j), sig);
      if !ok {
        return;
      }
      ok := j in escrows;
      if ok {
        ok := TakeInternally(env, j, pk);
      }
      if !ok {
        workers, accepted := savedWorkers, savedAccepted;
      }
    }

    method TakeInternally(env: Env, j: JobId, pk: Pubkey) returns (ok: bool)
      requires j in escrows
      modifies this`escrows, this`balances, this`stats, this`underflows, this`ledgers
      ensures ok <==> ClaimedFor(old(View()), env, j, pk).Some?
      ensures View() == if ok then ClaimedFor(old(View()), env, j, pk).value else old(View())
    {
      var escrow := escrows[j];
      if escrow.status != Open || escrow.worker.Some? || escrow.workerPubkey.Some? || pk == escrow.terms.agent {
        return false;
      }
      ok := DebitBalance(pk, NEAR_TOKEN_ID, workerStakeYocto);
      if !ok {
        return;
      }
      Bind(j, env.signer, Some(pk), workerStakeYocto);
    }

    // ---- submitting ----

    /** `promise_yield_create`: the id is new, and is indexed with the job that waits on it. */
    method StartYield(env: Env, j: JobId)
      modifies this`outbox, this`issued, this`dataIdIndex
      ensures View() == Yielded(old(View()), env, j)
    {
      Launch(Yield(env.yieldId, j));
      issued := issued + {env.yieldId};
      dataIdIndex := dataIdIndex[Hex.Encode(env.yieldId) := j];
    }

    method FindWorker(subs: seq<Submission>, worker: AccountId) returns (found: bool)
      ensures found <==> SubmittedBy(subs, worker)
    {
      found := false;
      for i := 0 to |subs|
        invariant found <==> exists k :: 0 <= k < i && subs[k].worker == worker
      {
        found := found || subs[i].worker == worker;
      }
    }

    method FindKey(subs: seq<Submission>, pk: Pubkey) returns (found: bool)
      ensures found <==> SubmittedWith(subs, pk)
    {
      found := false;
      for i := 0 to |subs|
        invariant found <==> exists k :: 0 <= k < i && subs[k].pubkey == Some(pk)
      {
        found := found || subs[i].pubkey == Some(pk);
      }
    }

    method AddSubmission(j: JobId, sub: Submission, ghost paid: nat)
      requires j in escrows
      modifies this`escrows, this`ledgers
      ensures View() == WithSubmission(old(View()), j, sub, paid)
    {
      var escrow := escrows[j];
      ghost var l := LedgerOf(j);
      escrows := escrows[j := escrow.(submissions := escrow.submissions + [sub])];
      ledgers := ledgers[j := l.(stakeIn := l.stakeIn + paid, retained := l.retained + SatSub(paid, sub.stake))];
    }

    method SubmitResult(env: Env, j: JobId, result: string) returns (ok: bool)
      requires env.yieldId !in issued
      modifies this
      ensures ok <==> AfterSubmitResult(old(View()), env, j, result).Some?
      ensures View() == if ok then AfterSubmitResult(old(View()), env, j, result).value else old(View())
    {
      if paused || j !in escrows || |result| == 0 || |result| > MAX_RESULT_LEN {
        return false;
      }
      var escrow := escrows[j];
      if escrow.terms.mode == Competitive {
        if escrow.status != Open || |result| > MAX_COMPETITIVE_RESULT_LEN {
          return false;
        }
        if escrow.terms.deadlineBlock.Some? && env.height > escrow.terms.deadlineBlock.value {
          return false;
        }
        if env.deposit < workerStakeYocto {
          return false;
        }
        var again := FindWorker(escrow.submissions, env.signer);
        if again {
          if env.deposit > 0 {
            Launch(Near(env.signer, env.deposit, Excess));
          }
          return true;
        }
        var max := if escrow.terms.maxSubmissions.Some? then escrow.terms.maxSubmissions.value else U32_MAX;
        if |escrow.submissions| >= max {
          return false;
        }
        AddSubmission(j, Submission(env.signer, result, workerStakeYocto, None), env.deposit);
        return true;
      }
      if escrow.status == Verifying && escrow.worker == Some(env.signer) && escrow.dataId.Some? {
        return true;
      }
      if escrow.status != InProgress || escrow.worker != Some(env.signer) {
        return false;
      }
      escrow := escrow.(result := Some(result));
      escrow := escrow.(dataId := Some(env.yieldId), status := Verifying, verifyingSince := Some(env.nowMs));
      escrows := escrows[j := escrow];
      StartYield(env, j);
      return true;
    }

    method SubmitResultFor(env: Env, j: JobId, result: string, pk: Pubkey, sig: seq<Byte>) returns (ok: bool)
      requires env.yieldId !in issued
      modifies this
      ensures ok <==> AfterSubmitResultFor(old(View()), env, j, result, pk, sig).Some?
      ensures View() == if ok then AfterSubmitResultFor(old(View()), env, j, result, pk, sig).value else old(View())
    {
      hide Authorized, ResultFor;
      if paused || |result| == 0 || |result| > MAX_RESULT_LEN || pk in pausedWorkers || j !in escrows {
        return false;
      }
      var savedWorkers, savedBalances := workers, balances;
      ghost var s := View();
      ok := RegisterAndAuthorize(env, pk, Messages.SubmitJob(j), sig);
      if !ok {
        return;
      }
      assert View() == s.(workers := workers, accepted := accepted);
      ok := SubmitSigned(env, j, result, pk);
      if !ok {
        workers, balances, accepted := savedWorkers, savedBalances, s.accepted;
      }
    }

    /** After a refusal only the balances may have changed, and the caller's panic reverts them. */
    method SubmitSigned(env: Env, j: JobId, result: string, pk: Pubkey) returns (ok: bool)
      requires j in escrows && env.yieldId !in issued
      modifies this`escrows, this`ledgers, this`balances, this`stats, this`underflows, this`outbox, this`issued,
        this`dataIdIndex
      ensures ok <==> ResultFor(old(View()), env, j, result, pk).Some?
      ensures ok ==> View() == ResultFor(old(View()), env, j, result, pk).value
      ensures !ok ==> View() == old(View()).(balances := balances)
    {
      if escrows[j].terms.mode == Competitive {
        ok := SubmitCompetitive(env, j, result, pk);
      } else {
        ok := SubmitStandard(env, j, result, pk);
      }
    }

    /** A worker's first submission registers it. */
    method RegisterAndAuthorize(env: Env, pk: Pubkey, a: Messages.Action, sig: seq<Byte>) returns (ok: bool)
      modifies this`workers, this`accepted
      ensures ok <==> Authorized(Known(old(View()), pk), env, pk, a, sig).Some?
      ensures View() == if ok then Authorized(Known(old(View()), pk), env, pk, a, sig).value else old(View())
    {
      var savedWorkers := workers;
      if pk !in workers {
        workers := workers[pk := Worker(None, 0)];
      }
      ok := Authorize(env, pk, a, sig);
      if !ok {
        workers := savedWorkers;
      }
    }

    /** The standard branch: the result of the worker who claimed. */
    method SubmitStandard(env: Env, j: JobId, result: string, pk: Pubkey) returns (ok: bool)
      requires j in escrows && env.yieldId !in issued
      modifies this`escrows, this`stats, this`underflows, this`outbox, this`issued, this`dataIdIndex
      ensures ok <==> StandardResultFor(old(View()), env, j, result, pk).Some?
      ensures View() == if ok then StandardResultFor(old(View()), env, j, result, pk).value else old(View())
    {
      var escrow := escrows[j];
      if escrow.status == Verifying && escrow.workerPubkey == Some(pk) && escrow.dataId.Some? {
        return true;
      }
      if escrow.status != InProgress || escrow.workerPubkey != Some(pk) {
        return false;
      }
      escrow := escrow.(result := Some(result));
      escrow := escrow.(dataId := Some(env.yieldId), status := Verifying, verifyingSince := Some(env.nowMs));
      TransitionStats(InProgress, Verifying);
      escrows := escrows[j := escrow];
      StartYield(env, j);
      return true;
    }

    /** The competitive branch: stake first, give it back for a repeated submission. After a refusal only
        the balances may have changed, and the caller's panic reverts them. */
    method SubmitCompetitive(env: Env, j: JobId, result: string, pk: Pubkey) returns (ok: bool)
      requires j in escrows
      modifies this`escrows, this`ledgers, this`balances
      ensures ok <==> CompetitiveResultFor(old(View()), env, j, result, pk).Some?
      ensures ok ==> View() == CompetitiveResultFor(old(View()), env, j, result, pk).value
      ensures !ok ==> View() == old(View()).(balances := balances)
    {
      var escrow := escrows[j];
      if escrow.status != Open || |result| > MAX_COMPETITIVE_RESULT_LEN {
        return false;
      }
      if escrow.terms.deadlineBlock.Some? && env.height > escrow.terms.deadlineBlock.value {
        return false;
      }
      ok := DebitBalance(pk, NEAR_TOKEN_ID, workerStakeYocto);
      if !ok {
        return;
      }
      var again := FindKey(escrow.submissions, pk);
      if again {
        CreditBalance(pk, NEAR_TOKEN_ID, workerStakeYocto);
        return true;
      }
      var max := if escrow.terms.maxSubmissions.Some? then escrow.terms.maxSubmissions.value else U32_MAX;
      if |escrow.submissions| >= max {
        return false;
      }
      AddSubmission(j, Submission(env.signer, result, workerStakeYocto, Some(pk)), workerStakeYocto);
      return true;
    }

    /** Pay every submission but the winner's its stake back. */
    method RefundLosers(j: JobId, subs: seq<Submission>, winner: nat)
      modifies this`outbox
      ensures outbox == old(outbox) + Refunds(j, subs, winner)
    {
      assert subs[..0] == [];
      for i := 0 to |subs|
        invariant outbox == old(outbox) + Refunds(j, subs[..i], winner)
      {
        assert subs[..i + 1][..i] == subs[..i];
        if i != winner {
          Launch(Near(subs[i].worker, subs[i].stake, StakeOf(j)));
        }
      }
      assert subs[..|subs|] == subs;
    }

    method DesignateWinner(env: Env, j: JobId, idx: nat) returns (ok: bool)
      requires env.yieldId !in issued
      modifies this
      ensures ok <==> AfterDesignateWinner(old(View()), env, j, idx).Some?
      ensures View() == if ok then AfterDesignateWinner(old(View()), env, j, idx).value else old(View())
    {
      if j !in escrows || escrows[j].terms.mode != Competitive {
        return false;
      }
      var escrow := escrows[j];
      if escrow.status == Verifying && escrow.winner == Some(idx) && escrow.dataId.Some? {
        return true;
      }
      if escrow.status != Open || (env.predecessor != escrow.terms.agent && env.predecessor != owner) {
        return false;
      }
      if env.nowMs > escrow.terms.createdAt + escrow.terms.timeoutMs {
        return false;
      }
      if escrow.terms.deadlineBlock.Some? && env.height > escrow.terms.deadlineBlock.value {
        return false;
      }
      if idx >= |escrow.submissions| {
        return false;
      }
      NameWinner(env, j, idx);
      StartYield(env, j);
      return true;
    }

    method NameWinner(env: Env, j: JobId, idx: nat)
      requires j in escrows && idx < |escrows[j].submissions|
      modifies this`escrows, this`stats, this`underflows, this`outbox, this`ledgers
      ensures View() == WinnerNamed(old(View()), env, j, idx)
    {
      RefundLosers(j, escrows[j].submissions, idx);
      BindWinner(env, j, idx);
    }

    method BindWinner(env: Env, j: JobId, idx: nat)
      requires j in escrows && idx < |escrows[j].submissions|
      modifies this`escrows, this`stats, this`underflows, this`ledgers
      ensures View() == WinnerBound(old(View()), env, j, idx)
    {
      var escrow := escrows[j];
      ghost var l, before := LedgerOf(j), escrow;
      var winner := escrow.submissions[idx];
      TransitionStats(Open, Verifying);
      escrow := escrow.(worker := Some(winner.worker), result := Some(winner.result), winner := Some(idx),
                        status := Verifying, verifyingSince := Some(env.nowMs), workerStake := Some(winner.stake),
                        dataId := Some(env.yieldId));
      assert escrow == Designated(before, env, idx);
      escrows := escrows[j := escrow];
      ledgers := ledgers[j := l.(stakeOut := l.stakeOut + SatSub(StakeSum(before.submissions), winner.stake))];
    }

    // ---- cleaning up ----

    /** Remove up to `maxCount` finished escrows, in the storage's iteration order. */
    method CleanupCompleted(order: seq<JobId>, maxCount: nat) returns (count: nat, ghost gone: set<JobId>)
      requires forall j :: j in order <==> j in escrows
      requires forall i, k :: 0 <= i < k < |order| ==> order[i] != order[k]
      modifies this
      ensures View() == Removed(old(View()), gone)
      ensures forall j :: j in gone ==> j in old(escrows) && Terminal(old(escrows)[j])
      ensures count == |gone| <= maxCount
      ensures count < maxCount ==> forall j :: j in old(escrows) && Terminal(old(escrows)[j]) ==> j in gone
    {
      gone := {};
      if maxCount == 0 {
        assert Removed(View(), {}) == View();
        return 0, {};
      }
      var toRemove;
      toRemove, gone := SelectFinished(order, maxCount);
      count := |toRemove|;
      ghost var s := View();
      escrows := escrows - set j | j in toRemove;
      ledgers := Removed(s, gone).ledgers;
    }

    /** The first `maxCount` finished escrows in iteration order. */
    method SelectFinished(order: seq<JobId>, maxCount: nat) returns (toRemove: seq<JobId>, ghost gone: set<JobId>)
      requires forall j :: j in order <==> j in escrows
      requires forall i, k :: 0 <= i < k < |order| ==> order[i] != order[k]
      ensures gone == set j | j in toRemove
      ensures |gone| == |toRemove| <= maxCount
      ensures forall j :: j in gone ==> j in escrows && Terminal(escrows[j])
      ensures |toRemove| < maxCount ==> forall j :: j in escrows && Terminal(escrows[j]) ==> j in gone
    {
      toRemove, gone := [], {};
      var i := 0;
      while i < |order| && |toRemove| < maxCount
        invariant |toRemove| <= maxCount && Picked(order, i, escrows, toRemove, gone)
      {
        PickOne(order, i, escrows, toRemove, gone);
        var status := escrows[order[i]].status;
        if status == Claimed || status == Refunded || status == Cancelled {
          toRemove := toRemove + [order[i]];
          gone := gone + {order[i]};
        }
        i := i + 1;
      }
      assert i == |order| ==> order[..i] == order;
    }
  }
}

/** From the verifiers' signatures to the payout: the contract with its set of verifiers, and the runtime
    that carries a resumed verdict back into the contract. */
module Consensus {
  import opened Basics
  import opened EscrowState
  import opened EscrowSpec
  import opened EscrowRuns
  import EscrowTraffic
  import Hex
  import Messages
  import Signatures

  /** What the runtime decides: how signatures verify, which texts the contract takes for a verdict, and
      what the callback reads from a text. */
  datatype Runtime = Runtime(ed25519: Ed25519, isVerdict: string -> bool, read: string -> Payload)

  datatype Setup = Setup(verifiers: seq<Signatures.VerifierInfo>, threshold: nat)

  /** How a yield was resumed: with a list of signatures, or with the signature of one verifier. */
  datatype Proof =
    | ByMany(sigs: seq<Signatures.VerifierSignature>)
    | ByOne(index: nat, signature: seq<Byte>)

  /** A resumption that the contract let through: for which id, as which text, with which verdict, and the
      verifiers of that moment. */
  datatype Resumption = Resumption(id: DataId, text: string, json: string, proof: Proof, setup: Setup)

  datatype Machine = Machine(escrow: State, setup: Setup, resumptions: seq<Resumption>)

  /** Any call but the yield callback; the owner's changes to the verifiers; resumptions by anyone; and the
      runtime calling back, with the payload or without one, once or more than once. */
  datatype Step =
    | Make(call: Call)
    | AddVerifier(env: Env, account: string, publicKey: string)
    | DeactivateVerifier(env: Env, index: nat)
    | SetThreshold(env: Env, threshold: nat)
    | Resume(text: string, json: string, proof: Proof)
    | Deliver(id: DataId, job: JobId, env: Env, lost: bool)

  // ---- resuming ----

  /** The active verifiers that signed this verdict for this id. */
  function SignersOf(r: Resumption, rt: Runtime): set<nat> {
    var message := Signatures.ScopedMessage(r.text, r.json);
    match r.proof
    case ByMany(sigs) => Signatures.Signers(r.setup.verifiers, message, sigs, rt.ed25519)
    case ByOne(i, signature) =>
      if i < |r.setup.verifiers| && r.setup.verifiers[i].active
         && Signatures.Verifies(r.setup.verifiers[i], message, signature, rt.ed25519) then {i} else {}
  }

  /** `hex::decode`, which takes digits only. */
  predicate Digits(text: string) {
    forall i :: 0 <= i < |text| ==> Hex.DigitValue(text[i]).Some?
  }

  /** What the consensus entry asks for; the count of signers is kept in 8 bits. */
  predicate ManySigned(
    setup: Setup, text: string, json: string, sigs: seq<Signatures.VerifierSignature>, ed25519: Ed25519)
  {
    && setup.verifiers != [] && |sigs| <= |setup.verifiers|
    && |Signatures.Signers(setup.verifiers, Signatures.ScopedMessage(text, json), sigs, ed25519)| % 256
         >= setup.threshold
  }

  /** What the single-signer entry asks for. */
  predicate OneSigned(setup: Setup, text: string, json: string, i: nat, signature: seq<Byte>, ed25519: Ed25519) {
    && i < |setup.verifiers| && setup.verifiers[i].active && Digits(setup.verifiers[i].publicKey)
    && Signatures.Verifies(setup.verifiers[i], Signatures.ScopedMessage(text, json), signature, ed25519)
  }

  /** The signatures the contract asks for. */
  predicate SignedOff(r: Resumption, rt: Runtime) {
    match r.proof
    case ByMany(sigs) => ManySigned(r.setup, r.text, r.json, sigs, rt.ed25519) && rt.isVerdict(r.json)
    case ByOne(i, signature) => i < 256 && OneSigned(r.setup, r.text, r.json, i, signature, rt.ed25519)
  }

  /** An id resumes the yield it spells, if the job it is listed for has not been judged. */
  predicate Resumable(s: State, text: string) {
    && |text| == 64 && Hex.Decode(text).Some?
    && (text in s.index ==> s.index[text] in s.escrows && !s.escrows[s.index[text]].yieldConsumed)
  }

  function AfterResume(m: Machine, rt: Runtime, text: string, json: string, proof: Proof): Machine {
    if !Resumable(m.escrow, text) then m
    else
      var r := Resumption(Hex.Decode(text).value, text, json, proof, m.setup);
      if SignedOff(r, rt) then m.(resumptions := m.resumptions + [r]) else m
  }

  /** The first resumption of a yield counts; the runtime ignores later ones. */
  function ResumptionOf(rs: seq<Resumption>, id: DataId): Option<Resumption> {
    if rs == [] then None
    else
      var before, last := ResumptionOf(rs[..|rs| - 1], id), rs[|rs| - 1];
      if before.Some? then before else if last.id == id then Some(last) else None
  }

  /** What the callback gets to read. */
  function PayloadFor(m: Machine, rt: Runtime, id: DataId, lost: bool): Payload {
    var r := ResumptionOf(m.resumptions, id);
    if r.None? || lost then TimedOut else rt.read(r.value.json)
  }

  function AfterDeliver(m: Machine, rt: Runtime, id: DataId, j: JobId, env: Env, lost: bool): Machine {
    if Yield(id, j) !in m.escrow.outbox then m
    else m.(escrow := Apply(m.escrow, Call(env, VerificationCallback(j, PayloadFor(m, rt, id, lost)))))
  }

  predicate OwnersStep(step: Step) {
    step.AddVerifier? || step.DeactivateVerifier? || step.SetThreshold?
  }

  function Reconfigured(setup: Setup, owner: AccountId, step: Step): Setup
    requires OwnersStep(step)
  {
    var vs := setup.verifiers;
    if step.env.predecessor != owner then setup
    else
      match step
      case AddVerifier(_, account, publicKey) =>
        if |publicKey| == 64 && forall i :: 0 <= i < |vs| ==> vs[i].account != account
        then setup.(verifiers := vs + [Signatures.VerifierInfo(account, publicKey, true)]) else setup
      case DeactivateVerifier(_, i) =>
        if i < |vs| && i < 256 then setup.(verifiers := vs[i := vs[i].(active := false)]) else setup
      case SetThreshold(_, threshold) =>
        if 1 <= threshold <= Signatures.ActiveCount(vs) && threshold < 256
        then setup.(threshold := threshold) else setup
  }

  function Next(m: Machine, rt: Runtime, step: Step): Machine {
    match step
    case Make(call) => if call.op.VerificationCallback? then m else m.(escrow := Apply(m.escrow, call))
    case Resume(text, json, proof) => AfterResume(m, rt, text, json, proof)
    case Deliver(id, j, env, lost) => AfterDeliver(m, rt, id, j, env, lost)
    case _ => m.(setup := Reconfigured(m.setup, m.escrow.cfg.owner, step))
  }

  function RunMachine(m: Machine, rt: Runtime, steps: seq<Step>): Machine {
    if steps == [] then m else Next(RunMachine(m, rt, steps[..|steps| - 1]), rt, steps[|steps| - 1])
  }

  predicate Start(m: Machine, self: AccountId, owner: AccountId, allowed: seq<AccountId>) {
    && m.escrow == Initial(self, owner, allowed) && m.resumptions == []
    && Signatures.ValidSetup(m.setup.verifiers, m.setup.threshold) && m.setup.threshold < 256
  }

  ghost predicate ReachableMachine(m: Machine, rt: Runtime) {
    exists m0, self, owner, allowed, steps :: Start(m0, self, owner, allowed) && m == RunMachine(m0, rt, steps)
  }

  // ---- only the yield callback judges ----

  /** Job `j` has the verdict it had; a new job has none. */
  predicate SameVerdict(s: State, u: State, j: JobId) {
    j in u.escrows ==>
      if j in s.escrows then u.escrows[j].verdict == s.escrows[j].verdict else u.escrows[j].verdict.None?
  }

  lemma SettleKeepsVerdict(t: State, j: JobId)
    requires AfterSettle(t, j).Some?
    ensures SameVerdict(t, AfterSettle(t, j).value, j) && j in AfterSettle(t, j).value.escrows
  {
    SettleShape(t, j);
  }

  lemma RefundKeepsVerdict(t: State, j: JobId)
    requires j in t.escrows && FullyRefunding(t, j).Some?
    ensures SameVerdict(t, FullyRefunding(t, j).value, j)
  {
    SettleKeepsVerdict(t.Put(j, t.escrows[j].(target := Some(FullRefund))), j);
  }

  lemma RetryKeepsVerdict(s: State, env: Env, j: JobId)
    requires AfterRetry(s, env, j).Some?
    ensures SameVerdict(s, AfterRetry(s, env, j).value, j)
  {
    var e := s.escrows[j].(retryCount := (s.escrows[j].retryCount + 1) % 256);
    if e.retryCount <= MAX_SETTLEMENT_RETRIES {
      SettleKeepsVerdict(s.Put(j, e), j);
      assert AfterRetry(s, env, j) == AfterSettle(s.Put(j, e), j);
    }
  }

  lemma CancelKeepsVerdict(s: State, env: Env, j: JobId)
    requires AfterCancel(s, env, j).Some?
    ensures SameVerdict(s, AfterCancel(s, env, j).value, j)
  {
    if s.escrows[j].status == Open {
      RefundKeepsVerdict(s, j);
    }
  }

  lemma ForceCancelKeepsVerdict(s: State, env: Env, j: JobId)
    requires AfterForceCancel(s, env, j).Some?
    ensures SameVerdict(s, AfterForceCancel(s, env, j).value, j)
  {
    CalledOffJob(s, j);
    RefundKeepsVerdict(CalledOff(s, j), j);
  }

  lemma ExpiryKeepsVerdict(s: State, env: Env, j: JobId)
    requires AfterRefundExpired(s, env, j).Some?
    ensures SameVerdict(s, AfterRefundExpired(s, env, j).value, j)
  {
    var e := s.escrows[j];
    RefundExpiredIs(s, env, j);
    match e.status
    case PendingFunding =>
    case Open => RefundKeepsVerdict(s, j);
    case InProgress =>
      ReleaseBooks(s, j, Some(e.terms.agent));
      RefundKeepsVerdict(Released(s, j, Some(e.terms.agent)), j);
    case Verifying =>
      AbandonedJob(s, j, LegacyWorker(e));
      RefundKeepsVerdict(Abandoned(s, j, LegacyWorker(e)), j);
    case _ => SettleKeepsVerdict(s, j);
  }

  lemma SubmitForKeepsVerdict(s: State, env: Env, j: JobId, result: string, pk: Pubkey, sig: seq<Byte>)
    requires AfterSubmitResultFor(s, env, j, result, pk, sig).Some?
    ensures SameVerdict(s, AfterSubmitResultFor(s, env, j, result, pk, sig).value, j)
  {
    EscrowTraffic.SigningTraffic(Known(s, pk), env, pk, Messages.SubmitJob(j), sig);
  }

  lemma ClaimForKeepsVerdict(s: State, env: Env, j: JobId, pk: Pubkey, sig: seq<Byte>)
    requires AfterClaimFor(s, env, j, pk, sig).Some?
    ensures SameVerdict(s, AfterClaimFor(s, env, j, pk, sig).value, j)
  {
    EscrowTraffic.SigningTraffic(s, env, pk, Messages.ClaimJob(j), sig);
  }

  lemma SubmitKeepsVerdict(s: State, env: Env, j: JobId, result: string)
    requires AfterSubmitResult(s, env, j, result).Some?
    ensures SameVerdict(s, AfterSubmitResult(s, env, j, result).value, j)
  {
  }

  lemma CallbackKeepsVerdict(s: State, j: JobId, results: seq<bool>)
    requires AfterSettleCallback(s, j, results).Some?
    ensures SameVerdict(s, AfterSettleCallback(s, j, results).value, j)
  {
  }

  lemma OpeningKeepsVerdict(s: State, env: Env, op: Op)
    requires op.CreateEscrow? || op.FtOnTransfer? || op.TakeJob? || op.DesignateWinner?
    requires Attempt(s, env, op).Some?
    ensures SameVerdict(s, Attempt(s, env, op).value, JobOf(op).value)
  {
  }

  lemma JobCallKeepsVerdict(s: State, env: Env, op: Op)
    requires JobOf(op).Some? && Attempt(s, env, op).Some? && !op.VerificationCallback?
    ensures SameVerdict(s, Attempt(s, env, op).value, JobOf(op).value)
  {
    match op
    case TakeJobFor(j, pk, sig) => ClaimForKeepsVerdict(s, env, j, pk, sig);
    case SubmitResult(j, result) => SubmitKeepsVerdict(s, env, j, result);
    case SubmitResultFor(j, result, pk, sig) => SubmitForKeepsVerdict(s, env, j, result, pk, sig);
    case SettleCallback(j, results) => CallbackKeepsVerdict(s, j, results);
    case RetrySettlement(j) => RetryKeepsVerdict(s, env, j);
    case Cancel(j) => CancelKeepsVerdict(s, env, j);
    case ForceCancelVerifying(j) => ForceCancelKeepsVerdict(s, env, j);
    case RefundExpired(j) => ExpiryKeepsVerdict(s, env, j);
    case _ => OpeningKeepsVerdict(s, env, op);
  }

  lemma CallKeepsVerdicts(s: State, call: Call, j: JobId)
    requires JobsInv(s) && !call.op.VerificationCallback?
    ensures SameVerdict(s, Apply(s, call), j)
  {
    var env, op := call.env, call.op;
    if Attempt(s, env, op).Some? {
      if JobOf(op) == Some(j) {
        JobCallKeepsVerdict(s, env, op);
      } else if JobOf(op).Some? {
        if !(op.FtOnTransfer? && op.job !in s.escrows) {
          CallTouches(s, env, op);
        }
      } else if !op.CleanupCompleted? {
        WalletCallsKeepJobs(s, env, op);
      }
    }
  }

  // ---- promises once launched stay launched ----

  lemma CallbackKeepsOutbox(s: State, j: JobId, results: seq<bool>)
    requires AfterSettleCallback(s, j, results).Some?
    ensures s.outbox <= AfterSettleCallback(s, j, results).value.outbox
  {
  }

  lemma FundingKeepsOutbox(s: State, env: Env, sender: AccountId, amount: nat, j: JobId)
    ensures AfterFtOnTransfer(s, env, sender, amount, j).0.outbox == s.outbox
  {
  }

  lemma SettlingKeepsOutbox(s: State, u: State, j: JobId)
    requires EscrowTraffic.Settles(s, u, j)
    ensures s.outbox <= u.outbox
  {
  }

  lemma WalletCallKeepsOutbox(s: State, env: Env, op: Op)
    requires JobOf(op).None? && Attempt(s, env, op).Some?
    ensures s.outbox <= Attempt(s, env, op).value.outbox
  {
  }

  lemma CallKeepsOutbox(s: State, call: Call)
    requires JobsInv(s) && EscrowTraffic.KeysOk(s)
    ensures s.outbox <= Apply(s, call).outbox
  {
    var env, op := call.env, call.op;
    if Attempt(s, env, op).Some? {
      if EscrowTraffic.SettlingOp(op) {
        EscrowTraffic.SettlingTraffic(s, env, op);
        SettlingKeepsOutbox(s, Apply(s, call), JobOf(op).value);
      } else if op.SettleCallback? {
        CallbackKeepsOutbox(s, op.job, op.results);
      } else if op.FtOnTransfer? {
        FundingKeepsOutbox(s, env, op.sender, op.amount, op.job);
      } else if JobOf(op).Some? {
        EscrowTraffic.StillTraffic(s, env, op, "another token");
      } else {
        WalletCallKeepsOutbox(s, env, op);
      }
    }
  }

  // ---- every verdict has its resumption ----

  /** The verdict of `j` is what the callback read from the `k`-th resumption, whose yield was issued for
      that job. */
  predicate JudgedBy(m: Machine, rt: Runtime, j: JobId, e: Escrow, k: nat) {
    && k < |m.resumptions| && Yield(m.resumptions[k].id, j) in m.escrow.outbox
    && VerdictOf(rt.read(m.resumptions[k].json), e.terms.scoreThreshold) == e.verdict
  }

  ghost predicate Grounded(m: Machine, rt: Runtime, j: JobId, e: Escrow) {
    e.verdict.Some? ==> exists k: nat :: JudgedBy(m, rt, j, e, k)
  }

  ghost predicate MachineInv(m: Machine, rt: Runtime) {
    && JobsInv(m.escrow) && EscrowTraffic.KeysOk(m.escrow) && m.setup.threshold >= 1
    && (forall k :: 0 <= k < |m.resumptions| ==>
          SignedOff(m.resumptions[k], rt) && m.resumptions[k].setup.threshold >= 1)
    && (forall j :: j in m.escrow.escrows ==> Grounded(m, rt, j, m.escrow.escrows[j]))
  }

  lemma GroundCarries(m: Machine, m': Machine, rt: Runtime, j: JobId, e: Escrow, e': Escrow)
    requires Grounded(m, rt, j, e) && e'.verdict == e.verdict && e'.terms == e.terms
    requires m.escrow.outbox <= m'.escrow.outbox && m.resumptions <= m'.resumptions
    ensures Grounded(m', rt, j, e')
  {
    if e.verdict.Some? {
      var k: nat :| JudgedBy(m, rt, j, e, k);
      assert JudgedBy(m', rt, j, e', k);
    }
  }

  lemma EscrowKeepsSound(s: State, call: Call)
    requires JobsInv(s) && EscrowTraffic.KeysOk(s)
    ensures JobsInv(Apply(s, call)) && EscrowTraffic.KeysOk(Apply(s, call)) && s.outbox <= Apply(s, call).outbox
    ensures forall j :: j in s.escrows && j in Apply(s, call).escrows ==>
      Apply(s, call).escrows[j].terms == s.escrows[j].terms
  {
    StepKeepsJobs(s, call);
    EscrowTraffic.StepKeepsKeys(s, call);
    CallKeepsOutbox(s, call);
  }

  lemma CallKeepsGround(m: Machine, rt: Runtime, call: Call)
    requires MachineInv(m, rt) && !call.op.VerificationCallback?
    ensures MachineInv(m.(escrow := Apply(m.escrow, call)), rt)
  {
    var m' := m.(escrow := Apply(m.escrow, call));
    EscrowKeepsSound(m.escrow, call);
    forall j | j in m'.escrow.escrows
      ensures Grounded(m', rt, j, m'.escrow.escrows[j])
    {
      CallKeepsVerdicts(m.escrow, call, j);
      if j in m.escrow.escrows {
        GroundCarries(m, m', rt, j, m.escrow.escrows[j], m'.escrow.escrows[j]);
      }
    }
  }

  lemma {:induction false} ResumptionFound(rs: seq<Resumption>, id: DataId)
    requires ResumptionOf(rs, id).Some?
    ensures exists k :: 0 <= k < |rs| && rs[k] == ResumptionOf(rs, id).value && rs[k].id == id
  {
    var n := |rs| - 1;
    if ResumptionOf(rs[..n], id).Some? {
      ResumptionFound(rs[..n], id);
      var k :| 0 <= k < n && rs[..n][k] == ResumptionOf(rs[..n], id).value && rs[..n][k].id == id;
      assert rs[k] == ResumptionOf(rs, id).value;
    }
  }

  lemma CallbackJudges(s: State, j: JobId, payload: Payload)
    requires AfterVerification(s, j, payload).Some?
    ensures var e, u := s.escrows[j], AfterVerification(s, j, payload).value;
      && j in u.escrows
      && u.escrows[j].verdict
           == if e.status == Verifying then VerdictOf(payload, e.terms.scoreThreshold) else e.verdict
  {
    if s.escrows[j].status == Verifying {
      JudgedShape(s, j, payload);
      SettleKeepsVerdict(JudgedState(s, j, payload), j);
    }
  }

  /** What is read for an id comes from a resumption of that id. */
  lemma PayloadHasGround(m: Machine, m': Machine, rt: Runtime, id: DataId, j: JobId, lost: bool, e: Escrow)
    requires Yield(id, j) in m.escrow.outbox && m.escrow.outbox <= m'.escrow.outbox && m'.resumptions == m.resumptions
    requires e.verdict == VerdictOf(PayloadFor(m, rt, id, lost), e.terms.scoreThreshold)
    ensures Grounded(m', rt, j, e)
  {
    if e.verdict.Some? {
      ResumptionFound(m.resumptions, id);
      var k :| 0 <= k < |m.resumptions| && m.resumptions[k] == ResumptionOf(m.resumptions, id).value
        && m.resumptions[k].id == id;
      assert JudgedBy(m', rt, j, e, k);
    }
  }

  /** One job was judged, the others are what they were. */
  lemma JudgingKeepsGround(m: Machine, u: State, rt: Runtime, id: DataId, j: JobId, lost: bool, k: JobId)
    requires MachineInv(m, rt) && Yield(id, j) in m.escrow.outbox && m.escrow.outbox <= u.outbox
    requires j in m.escrow.escrows && OthersSame(m.escrow, u, j) && u.escrows[j].terms == m.escrow.escrows[j].terms
    requires var e := m.escrow.escrows[j];
      u.escrows[j].verdict
        == if e.status == Verifying then VerdictOf(PayloadFor(m, rt, id, lost), e.terms.scoreThreshold) else e.verdict
    requires k in u.escrows
    ensures Grounded(m.(escrow := u), rt, k, u.escrows[k])
  {
    if k == j && m.escrow.escrows[j].status == Verifying {
      PayloadHasGround(m, m.(escrow := u), rt, id, j, lost, u.escrows[j]);
    } else {
      GroundCarries(m, m.(escrow := u), rt, k, m.escrow.escrows[k], u.escrows[k]);
    }
  }

  lemma VerifiedIsSound(s: State, env: Env, j: JobId, payload: Payload)
    requires JobsInv(s) && EscrowTraffic.KeysOk(s) && AfterVerification(s, j, payload).Some?
    ensures var u := AfterVerification(s, j, payload).value;
      && JobsInv(u) && EscrowTraffic.KeysOk(u) && s.outbox <= u.outbox && OthersSame(s, u, j)
      && j in s.escrows && j in u.escrows && u.escrows[j].terms == s.escrows[j].terms
  {
    assert j in s.escrows;
    var call := Call(env, VerificationCallback(j, payload));
    assert Attempt(s, env, call.op) == AfterVerification(s, j, payload);
    assert Apply(s, call) == AfterVerification(s, j, payload).value;
    hide AfterVerification, Attempt, Apply;
    EscrowKeepsSound(s, call);
    CallTouches(s, env, call.op);
  }

  lemma VerifiedKeepsGround(m: Machine, rt: Runtime, id: DataId, j: JobId, env: Env, lost: bool)
    requires MachineInv(m, rt) && Yield(id, j) in m.escrow.outbox
    requires AfterVerification(m.escrow, j, PayloadFor(m, rt, id, lost)).Some?
    ensures MachineInv(m.(escrow := AfterVerification(m.escrow, j, PayloadFor(m, rt, id, lost)).value), rt)
  {
    var payload := PayloadFor(m, rt, id, lost);
    var u := AfterVerification(m.escrow, j, payload).value;
    VerifiedIsSound(m.escrow, env, j, payload);
    CallbackJudges(m.escrow, j, payload);
    forall k | k in u.escrows
      ensures Grounded(m.(escrow := u), rt, k, u.escrows[k])
    {
      JudgingKeepsGround(m, u, rt, id, j, lost, k);
    }
  }

  lemma AfterDeliverIs(m: Machine, rt: Runtime, id: DataId, j: JobId, env: Env, lost: bool)
    ensures var r := AfterVerification(m.escrow, j, PayloadFor(m, rt, id, lost));
      AfterDeliver(m, rt, id, j, env, lost)
        == if Yield(id, j) in m.escrow.outbox && r.Some? then m.(escrow := r.value) else m
  {
  }

  lemma DeliveryKeepsGround(m: Machine, rt: Runtime, id: DataId, j: JobId, env: Env, lost: bool)
    requires MachineInv(m, rt)
    ensures MachineInv(AfterDeliver(m, rt, id, j, env, lost), rt)
  {
    AfterDeliverIs(m, rt, id, j, env, lost);
    if Yield(id, j) in m.escrow.outbox && AfterVerification(m.escrow, j, PayloadFor(m, rt, id, lost)).Some? {
      VerifiedKeepsGround(m, rt, id, j, env, lost);
    }
  }

  lemma ResumptionKeepsGround(m: Machine, rt: Runtime, text: string, json: string, proof: Proof)
    requires MachineInv(m, rt)
    ensures MachineInv(AfterResume(m, rt, text, json, proof), rt)
  {
    var m' := AfterResume(m, rt, text, json, proof);
    forall j | j in m'.escrow.escrows
      ensures Grounded(m', rt, j, m'.escrow.escrows[j])
    {
      GroundCarries(m, m', rt, j, m.escrow.escrows[j], m'.escrow.escrows[j]);
    }
  }

  lemma ReconfiguringKeepsGround(m: Machine, rt: Runtime, step: Step)
    requires MachineInv(m, rt) && OwnersStep(step)
    ensures MachineInv(m.(setup := Reconfigured(m.setup, m.escrow.cfg.owner, step)), rt)
  {
    var m' := m.(setup := Reconfigured(m.setup, m.escrow.cfg.owner, step));
    forall j | j in m'.escrow.escrows
      ensures Grounded(m', rt, j, m'.escrow.escrows[j])
    {
      GroundCarries(m, m', rt, j, m.escrow.escrows[j], m'.escrow.escrows[j]);
    }
  }

  lemma StepKeepsGround(m: Machine, rt: Runtime, step: Step)
    requires MachineInv(m, rt)
    ensures MachineInv(Next(m, rt, step), rt)
  {
    match step
    case Make(call) => if !call.op.VerificationCallback? { CallKeepsGround(m, rt, call); }
    case Resume(text, json, proof) => ResumptionKeepsGround(m, rt, text, json, proof);
    case Deliver(id, j, env, lost) => DeliveryKeepsGround(m, rt, id, j, env, lost);
    case _ => ReconfiguringKeepsGround(m, rt, step);
  }

  lemma {:induction false} RunKeepsGround(m: Machine, rt: Runtime, steps: seq<Step>)
    requires MachineInv(m, rt)
    ensures MachineInv(RunMachine(m, rt, steps), rt)
  {
    if steps != [] {
      RunKeepsGround(m, rt, steps[..|steps| - 1]);
      StepKeepsGround(RunMachine(m, rt, steps[..|steps| - 1]), rt, steps[|steps| - 1]);
    }
  }

  lemma ReachableMachineInv(m: Machine, rt: Runtime)
    requires ReachableMachine(m, rt)
    ensures MachineInv(m, rt)
  {
    var m0, self, owner, allowed, steps :| Start(m0, self, owner, allowed) && m == RunMachine(m0, rt, steps);
    RunKeepsGround(m0, rt, steps);
  }

  // ---- the theorem ----

  /** Active verifiers of the moment signed, and as many as the threshold asks for; unless the single-signer
      entry was used, where one is taken whatever the threshold is. */
  predicate Agreed(r: Resumption, rt: Runtime) {
    var signers := SignersOf(r, rt);
    && signers != {} && (forall i :: i in signers ==> i < |r.setup.verifiers| && r.setup.verifiers[i].active)
    && (|signers| >= r.setup.threshold <==> r.proof.ByMany? || r.setup.threshold == 1)
  }

  lemma SignedOffAgreed(r: Resumption, rt: Runtime)
    requires SignedOff(r, rt) && r.setup.threshold >= 1
    ensures Agreed(r, rt)
  {
  }

  /** A resumption of a yield issued for `j`, read as passing at the threshold, and agreed on. */
  predicate Rests(m: Machine, rt: Runtime, j: JobId, threshold: nat, k: nat) {
    && k < |m.resumptions| && Yield(m.resumptions[k].id, j) in m.escrow.outbox
    && Passing(rt.read(m.resumptions[k].json), threshold) && Agreed(m.resumptions[k], rt)
  }

  lemma PassedRests(m: Machine, rt: Runtime, j: JobId, e: Escrow)
    requires Grounded(m, rt, j, e) && Passed(e)
    requires forall k :: 0 <= k < |m.resumptions| ==>
      SignedOff(m.resumptions[k], rt) && m.resumptions[k].setup.threshold >= 1
    ensures exists k: nat :: Rests(m, rt, j, e.terms.scoreThreshold, k)
  {
    var k: nat :| JudgedBy(m, rt, j, e, k);
    SignedOffAgreed(m.resumptions[k], rt);
    assert Rests(m, rt, j, e.terms.scoreThreshold, k);
  }

  lemma ClaimIsPassed(s: State, j: JobId)
    requires JobsInv(s) && j in s.escrows && (s.escrows[j].status == Claimed || s.escrows[j].target == Some(Claim))
    ensures Passed(s.escrows[j])
  {
    assert JobOk(s, j);
  }

  /** In every run: a Claimed job rests on a resumption of a yield issued for it, whose text the callback
      reads as passing at the job's threshold, and which active verifiers of that moment signed for that
      very id and text: threshold-many distinct ones if and only if it came through the consensus entry
      or the threshold was 1. */
  lemma ClaimedMeansSigned(m: Machine, rt: Runtime, j: JobId)
    requires ReachableMachine(m, rt) && j in m.escrow.escrows
    requires m.escrow.escrows[j].status == Claimed || m.escrow.escrows[j].target == Some(Claim)
    ensures exists k: nat :: Rests(m, rt, j, m.escrow.escrows[j].terms.scoreThreshold, k)
  {
    ReachableMachineInv(m, rt);
    ClaimIsPassed(m.escrow, j);
    PassedRests(m, rt, j, m.escrow.escrows[j]);
  }

  lemma ResumedByOne(m: Machine, rt: Runtime, id: DataId, json: string, i: nat, signature: seq<Byte>)
    requires ResumptionOf(m.resumptions, id).None? && Resumable(m.escrow, Hex.Encode(id))
    requires i < 256 && OneSigned(m.setup, Hex.Encode(id), json, i, signature, rt.ed25519)
    ensures var m1 := AfterResume(m, rt, Hex.Encode(id), json, ByOne(i, signature));
      m1.escrow == m.escrow && PayloadFor(m1, rt, id, false) == rt.read(json)
  {
    Hex.DecodeEncode(id);
    var r := Resumption(id, Hex.Encode(id), json, ByOne(i, signature), m.setup);
    ResumeAdds(m, rt, r);
    FirstResumption(m.resumptions, r);
  }

  /** A resumption that is signed off and spells its id is recorded. */
  lemma ResumeAdds(m: Machine, rt: Runtime, r: Resumption)
    requires Resumable(m.escrow, r.text) && Hex.Decode(r.text) == Some(r.id) && r.setup == m.setup && SignedOff(r, rt)
    ensures AfterResume(m, rt, r.text, r.json, r.proof) == m.(resumptions := m.resumptions + [r])
  {
  }

  lemma FirstResumption(rs: seq<Resumption>, r: Resumption)
    requires ResumptionOf(rs, r.id).None?
    ensures ResumptionOf(rs + [r], r.id) == Some(r)
  {
    assert (rs + [r])[..|rs|] == rs;
  }

  lemma DeliveredIs(m: Machine, rt: Runtime, id: DataId, j: JobId, env: Env, payload: Payload)
    requires Yield(id, j) in m.escrow.outbox && PayloadFor(m, rt, id, false) == payload
    requires AfterVerification(m.escrow, j, payload).Some?
    ensures AfterDeliver(m, rt, id, j, env, false).escrow == AfterVerification(m.escrow, j, payload).value
  {
    AfterDeliverIs(m, rt, id, j, env, false);
  }

  /** And one signature is enough, whatever the threshold: the single-signer entry does not look at it. */
  lemma OneSignerIsEnough(
    m: Machine, rt: Runtime, id: DataId, j: JobId, json: string, i: nat, signature: seq<Byte>, env: Env)
    requires ReachableMachine(m, rt) && j in m.escrow.escrows && m.escrow.escrows[j].status == Verifying
    requires Yield(id, j) in m.escrow.outbox && ResumptionOf(m.resumptions, id).None?
        && Resumable(m.escrow, Hex.Encode(id))
    requires i < 256 && OneSigned(m.setup, Hex.Encode(id), json, i, signature, rt.ed25519)
    requires Passing(rt.read(json), m.escrow.escrows[j].terms.scoreThreshold)
    ensures var m1 := AfterResume(m, rt, Hex.Encode(id), json, ByOne(i, signature));
      var e := AfterDeliver(m1, rt, id, j, env, false).escrow.escrows;
      && j in e && e[j].verdict.Some? && e[j].verdict.value.passed
      && (e[j].target == Some(Claim) || e[j].status == Claimed)
  {
    assert JobInv(m.escrow.escrows[j], m.escrow.LedgerOf(j)) by {
      ReachableMachineInv(m, rt);
      assert JobOk(m.escrow, j);
    }
    ResumedByOne(m, rt, id, json, i, signature);
    PassingPays(m.escrow, j, rt.read(json));
    DeliveredIs(AfterResume(m, rt, Hex.Encode(id), json, ByOne(i, signature)), rt, id, j, env, rt.read(json));
  }

  lemma PassingPays(s: State, j: JobId, payload: Payload)
    requires j in s.escrows && JobInv(s.escrows[j], s.LedgerOf(j)) && s.escrows[j].status == Verifying
    requires Passing(payload, s.escrows[j].terms.scoreThreshold)
    ensures AfterVerification(s, j, payload).Some?
    ensures var u := AfterVerification(s, j, payload).value;
      && j in u.escrows && u.escrows[j].verdict.Some? && u.escrows[j].verdict.value.passed
      && (u.escrows[j].target == Some(Claim) || u.escrows[j].status == Claimed)
  {
    var t := JudgedState(s, j, payload);
    JudgedShape(s, j, payload);
    JudgedIsReady(s.escrows[j], s.LedgerOf(j), payload);
    PlanExists(Judged(s.escrows[j], payload), s.LedgerOf(j), t.cfg.owner);
    SettleShape(t, j);
    assert AfterVerification(s, j, payload) == AfterSettle(t, j);
  }
}

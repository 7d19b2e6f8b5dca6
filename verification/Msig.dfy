/** The agent's multisig account: signed actions with consecutive nonces, a spending limit per
    tumbling window of blocks, and the owner's emergency key rotation. */
module Msig {
  import opened Basics
  import Base58

  type AccountId = string

  const FORCE_ROTATE_COOLDOWN_BLOCKS: nat := 7200
  const KEY_PREFIX: string := "ed25519:"
  const NONCES: nat := U64_MAX + 1
  const STORAGE_DEPOSIT_YOCTO: nat := 1_000_000_000_000_000_000_000_000

  /** What the agent signs; the further terms of a new job are only passed on. */
  datatype ActionKind =
    | CreateEscrow(createJob: string, createAmount: nat, createToken: AccountId, scoreThreshold: Option<nat>)
    | FundEscrow(fundJob: string, fundToken: AccountId, fundAmount: nat)
    | CancelEscrow(cancelJob: string)
    | RegisterToken(newToken: AccountId)
    | RotateKey(newPubkey: string)
    | Withdraw(token: Option<AccountId>, amount: nat, recipient: AccountId)
    | DesignateWinner(job: string, winnerIdx: nat)

  datatype Action = Action(nonce: nat, kind: ActionKind)

  /** Signature checking and JSON parsing, as parameters. */
  datatype Host = Host(ed25519: (seq<Byte>, string, seq<Byte>) -> bool, parse: string -> Option<Action>)

  /** Who asks, when, and the account itself with its NEAR balance. */
  datatype Env = Env(signer: AccountId, height: nat, current: AccountId, balance: nat)

  /** Promises to other contracts, and native transfers. */
  datatype Promise =
    | JobCreation(contract: AccountId, job: string, amount: nat, token: AccountId, deposit: nat)
    | TransferCall(token: AccountId, receiver: AccountId, amount: nat, msg: string)
    | JobCancellation(contract: AccountId, job: string)
    | Registration(token: AccountId, account: AccountId, deposit: nat)
    | TokenTransfer(token: AccountId, receiver: AccountId, amount: nat)
    | NearTransfer(receiver: AccountId, amount: nat)
    | WinnerNaming(contract: AccountId, job: string, idx: nat)

  /** `outbox` records the promises launched; the other fields are the contract's. */
  datatype State = State(
    agentPubkey: seq<Byte>,
    agentNpub: string,
    escrowContract: AccountId,
    nonce: nat,
    lastActionBlock: nat,
    owner: AccountId,
    allowedTokens: seq<AccountId>,
    maxActionValue: nat,
    dailyLimit: nat,
    spentInWindow: nat,
    windowStartBlock: nat,
    outbox: seq<Promise>)
  {
    function Send(p: Promise): State {
      this.(outbox := outbox + [p])
    }
  }

  /** The key bytes behind `ed25519:` and base58, or nothing. */
  function DecodeKey(s: string): (key: Option<seq<Byte>>)
    ensures key.Some? ==> |key.value| == 32
  {
    if |s| < |KEY_PREFIX| || s[..|KEY_PREFIX|] != KEY_PREFIX then None
    else
      var bytes := Base58.Decode(s[|KEY_PREFIX|..]);
      if bytes.None? || |bytes.value| != 32 then None else bytes
  }

  function ActionValue(a: ActionKind): Option<nat> {
    match a
    case CreateEscrow(_, amount, _, _) => Some(amount)
    case FundEscrow(_, _, amount) => Some(amount)
    case Withdraw(_, amount, _) => Some(amount)
    case _ => None
  }

  // ---- each call, as a function of the state before it ----

  /** The window that is current at `height`. */
  function Rolled(m: State, height: nat): State {
    if SatSub(height, m.windowStartBlock) >= FORCE_ROTATE_COOLDOWN_BLOCKS
    then m.(spentInWindow := 0, windowStartBlock := height)
    else m
  }

  function Spent(m: State, height: nat, value: nat): Option<State> {
    if m.maxActionValue > 0 && value > m.maxActionValue then None
    else if m.dailyLimit == 0 then Some(m)
    else
      var r := Rolled(m, height);
      var total := SatAdd(r.spentInWindow, value, U128_MAX);
      if total > m.dailyLimit then None else Some(r.(spentInWindow := total))
  }

  /** What the dispatch launches or changes, unless it refuses. */
  function Dispatched(m: State, env: Env, a: ActionKind): Option<State> {
    match a
    case CreateEscrow(job, amount, token, score) =>
      if score.Some? && score.value > 100 then None
      else Some(m.Send(JobCreation(m.escrowContract, job, amount, token, STORAGE_DEPOSIT_YOCTO)))
    case FundEscrow(job, token, amount) => Some(m.Send(TransferCall(token, m.escrowContract, amount, job)))
    case CancelEscrow(job) => Some(m.Send(JobCancellation(m.escrowContract, job)))
    case RegisterToken(token) => Some(m.Send(Registration(token, env.current, STORAGE_DEPOSIT_YOCTO)))
    case RotateKey(newPubkey) =>
      var key := DecodeKey(newPubkey);
      if key.None? then None else Some(m.(agentPubkey := key.value))
    case Withdraw(token, amount, recipient) =>
      if token.Some? then Some(m.Send(TokenTransfer(token.value, recipient, amount)))
      else if env.balance < amount then None
      else Some(m.Send(NearTransfer(recipient, amount)))
    case DesignateWinner(job, idx) => Some(m.Send(WinnerNaming(m.escrowContract, job, idx)))
  }

  /** The action a message carries, if this is the message that is due. */
  function Due(host: Host, m: State, message: string, sig: seq<Byte>): Option<Action> {
    if |sig| != 64 || |m.agentPubkey| != 32 || !host.ed25519(m.agentPubkey, message, sig) then None
    else
      var action := host.parse(message);
      if action.Some? && action.value.nonce == (m.nonce + 1) % NONCES then action else None
  }

  function AfterExecute(host: Host, m: State, env: Env, message: string, sig: seq<Byte>): Option<State> {
    var due := Due(host, m, message, sig);
    if due.None? then None
    else
      var noted := m.(nonce := due.value.nonce, lastActionBlock := env.height);
      var value := ActionValue(due.value.kind);
      var paid := if value.Some? then Spent(noted, env.height, value.value) else Some(noted);
      if paid.None? then None else Dispatched(paid.value, env, due.value.kind)
  }

  function AfterForceRotate(m: State, env: Env, newPubkey: string, newNpub: string): Option<State> {
    var key := DecodeKey(newPubkey);
    if env.signer != m.owner || key.None? || SatSub(env.height, m.lastActionBlock) < FORCE_ROTATE_COOLDOWN_BLOCKS
    then None
    else Some(m.(agentPubkey := key.value, agentNpub := newNpub))
  }

  function AfterSetLimits(m: State, env: Env, maxPerAction: nat, dailyLimit: nat): Option<State> {
    if env.signer != m.owner then None else Some(m.(maxActionValue := maxPerAction, dailyLimit := dailyLimit))
  }

  function AfterSetTokens(m: State, env: Env, tokens: seq<AccountId>): Option<State> {
    if env.signer != m.owner then None else Some(m.(allowedTokens := tokens))
  }

  // ---- the account as it runs ----

  class AgentMsig {
    var agentPubkey: seq<Byte>
    var agentNpub: string
    var escrowContract: AccountId
    var nonce: nat
    var lastActionBlock: nat
    var owner: AccountId
    var allowedTokens: seq<AccountId>
    var maxActionValueYocto: nat
    var dailyLimitYocto: nat
    var spentInWindow: nat
    var windowStartBlock: nat

    ghost var outbox: seq<Promise>

    ghost function View(): State
      reads this
    {
      State(agentPubkey, agentNpub, escrowContract, nonce, lastActionBlock, owner, allowedTokens, maxActionValueYocto,
            dailyLimitYocto, spentInWindow, windowStartBlock, outbox)
    }

    constructor (env: Env, pubkey: seq<Byte>, npub: string, escrowContract: AccountId)
      requires |pubkey| == 32
      ensures View() == State(pubkey, npub, escrowContract, 0, env.height, env.signer, [], 0, 0, 0, env.height, [])
    {
      agentPubkey, agentNpub, this.escrowContract := pubkey, npub, escrowContract;
      nonce, lastActionBlock, owner, allowedTokens := 0, env.height, env.signer, [];
      maxActionValueYocto, dailyLimitYocto, spentInWindow, windowStartBlock := 0, 0, 0, env.height;
      outbox := [];
    }

    method Launch(p: Promise)
      modifies this`outbox
      ensures outbox == old(outbox) + [p]
    {
      outbox := outbox + [p];
    }

    method EnforceSpendingLimit(env: Env, value: nat) returns (ok: bool)
      modifies this`spentInWindow, this`windowStartBlock
      ensures ok <==> Spent(old(View()), env.height, value).Some?
      ensures ok ==> View() == Spent(old(View()), env.height, value).value
    {
      if maxActionValueYocto > 0 {
        if value > maxActionValueYocto {
          return false;
        }
      }
      if dailyLimitYocto > 0 {
        var blocksSince := SatSub(env.height, windowStartBlock);
        if blocksSince >= FORCE_ROTATE_COOLDOWN_BLOCKS {
          spentInWindow := 0;
          windowStartBlock := env.height;
        }
        var newTotal := SatAdd(spentInWindow, value, U128_MAX);
        if newTotal > dailyLimitYocto {
          return false;
        }
        spentInWindow := newTotal;
      }
      return true;
    }

    /** `ok == false` is a panic, after which the runtime restores the state. */
    method Execute(host: Host, env: Env, message: string, sig: seq<Byte>) returns (ok: bool)
      modifies this
      ensures ok <==> AfterExecute(host, old(View()), env, message, sig).Some?
      ensures View() == if ok then AfterExecute(host, old(View()), env, message, sig).value else old(View())
    {
      if |sig| != 64 || |agentPubkey| != 32 || !host.ed25519(agentPubkey, message, sig) {
        return false;
      }
      var parsed := host.parse(message);
      if parsed.None? || parsed.value.nonce != (nonce + 1) % NONCES {
        return false;
      }
      var action := parsed.value;
      var savedNonce, savedBlock, savedSpent, savedStart := nonce, lastActionBlock, spentInWindow, windowStartBlock;
      nonce := action.nonce;
      lastActionBlock := env.height;
      ok := true;
      var value := ActionValue(action.kind);
      if value.Some? {
        ok := EnforceSpendingLimit(env, value.value);
      }
      if ok {
        ok := Dispatch(env, action.kind);
      }
      if !ok {
        nonce, lastActionBlock, spentInWindow, windowStartBlock := savedNonce, savedBlock, savedSpent, savedStart;
      }
    }

    /** The last part of `execute`: a promise to another contract, or a new key. */
    method Dispatch(env: Env, action: ActionKind) returns (ok: bool)
      modifies this`outbox, this`agentPubkey
      ensures ok <==> Dispatched(old(View()), env, action).Some?
      ensures View() == if ok then Dispatched(old(View()), env, action).value else old(View())
    {
      ok := true;
      match action {
        case CreateEscrow(job, amount, token, score) =>
          if score.Some? {
            if score.value > 100 {
              return false;
            }
          }
          Launch(JobCreation(escrowContract, job, amount, token, STORAGE_DEPOSIT_YOCTO));
        case FundEscrow(job, token, amount) => Launch(TransferCall(token, escrowContract, amount, job));
        case CancelEscrow(job) => Launch(JobCancellation(escrowContract, job));
        case RegisterToken(token) => Launch(Registration(token, env.current, STORAGE_DEPOSIT_YOCTO));
        case RotateKey(newPubkey) =>
          var key := DecodeKey(newPubkey);
          if key.None? {
            return false;
          }
          agentPubkey := key.value;
        case Withdraw(token, amount, recipient) =>
          if token.Some? {
            Launch(TokenTransfer(token.value, recipient, amount));
          } else {
            if env.balance < amount {
              return false;
            }
            Launch(NearTransfer(recipient, amount));
          }
        case DesignateWinner(job, idx) => Launch(WinnerNaming(escrowContract, job, idx));
      }
    }

    method ForceRotate(env: Env, newPubkey: string, newNpub: string) returns (ok: bool)
      modifies this
      ensures ok <==> AfterForceRotate(old(View()), env, newPubkey, newNpub).Some?
      ensures View() == if ok then AfterForceRotate(old(View()), env, newPubkey, newNpub).value else old(View())
    {
      if env.signer != owner {
        return false;
      }
      var blocksSince := SatSub(env.height, lastActionBlock);
      if blocksSince < FORCE_ROTATE_COOLDOWN_BLOCKS {
        return false;
      }
      var key := DecodeKey(newPubkey);
      if key.None? {
        return false;
      }
      agentPubkey := key.value;
      agentNpub := newNpub;
      return true;
    }

    method SetAllowedTokens(env: Env, tokens: seq<AccountId>) returns (ok: bool)
      modifies this
      ensures ok <==> AfterSetTokens(old(View()), env, tokens).Some?
      ensures View() == if ok then AfterSetTokens(old(View()), env, tokens).value else old(View())
    {
      if env.signer != owner {
        return false;
      }
      allowedTokens := tokens;
      return true;
    }

    method SetSpendingLimits(env: Env, maxPerAction: nat, dailyLimit: nat) returns (ok: bool)
      modifies this
      ensures ok <==> AfterSetLimits(old(View()), env, maxPerAction, dailyLimit).Some?
      ensures View() == if ok then AfterSetLimits(old(View()), env, maxPerAction, dailyLimit).value else old(View())
    {
      if env.signer != owner {
        return false;
      }
      maxActionValueYocto := maxPerAction;
      dailyLimitYocto := dailyLimit;
      return true;
    }
  }

  // ---- runs ----

  datatype Op =
    | Execute(message: string, sig: seq<Byte>)
    | ForceRotate(newPubkey: string, newNpub: string)
    | SetSpendingLimits(maxPerAction: nat, dailyLimit: nat)
    | SetAllowedTokens(tokens: seq<AccountId>)

  datatype Call = Call(env: Env, op: Op)

  function Attempt(host: Host, m: State, env: Env, op: Op): Option<State> {
    match op
    case Execute(message, sig) => AfterExecute(host, m, env, message, sig)
    case ForceRotate(newPubkey, newNpub) => AfterForceRotate(m, env, newPubkey, newNpub)
    case SetSpendingLimits(maxPerAction, dailyLimit) => AfterSetLimits(m, env, maxPerAction, dailyLimit)
    case SetAllowedTokens(tokens) => AfterSetTokens(m, env, tokens)
  }

  /** The money a promise moves, or commits to in a new job. */
  function Commits(p: Promise): nat {
    match p
    case JobCreation(_, _, amount, _, _) => amount
    case TransferCall(_, _, amount, _) => amount
    case TokenTransfer(_, _, amount) => amount
    case NearTransfer(_, amount) => amount
    case _ => 0
  }

  function Committed(ps: seq<Promise>): nat {
    if ps == [] then 0 else Committed(ps[..|ps| - 1]) + Commits(ps[|ps| - 1])
  }

  /** An accepted action: the message, its signature and the key in force, its nonce and block, what was
      launched for it, and the money in that. */
  datatype Entry = Entry(
    message: string, sig: seq<Byte>, key: seq<Byte>, nonce: nat, height: nat, sent: seq<Promise>, value: nat)

  /** A run so far: the state, the actions accepted, and how many of them are in closed windows. */
  datatype Trace = Trace(m: State, log: seq<Entry>, closed: nat)

  /** The promises that `m'` has launched after `m`. */
  function NewPromises(m: State, m': State): seq<Promise> {
    if m.outbox <= m'.outbox then m'.outbox[|m.outbox|..] else []
  }

  /** The entry of a message that took the account from `m` to `m'`. */
  function EntryOf(host: Host, m: State, m': State, message: string, sig: seq<Byte>, height: nat): Entry {
    var a, sent := host.parse(message), NewPromises(m, m');
    Entry(message, sig, m.agentPubkey, if a.Some? then a.value.nonce else 0, height, sent, Committed(sent))
  }

  function Step(host: Host, t: Trace, call: Call): Trace {
    var r := Attempt(host, t.m, call.env, call.op);
    if r.None? then t
    else if !call.op.Execute? then t.(m := r.value)
    else
      Trace(r.value, t.log + [EntryOf(host, t.m, r.value, call.op.message, call.op.sig, call.env.height)],
            if r.value.windowStartBlock != t.m.windowStartBlock then |t.log| else t.closed)
  }

  function Run(host: Host, m: State, calls: seq<Call>): Trace {
    if calls == [] then Trace(m, [], 0)
    else Step(host, Run(host, m, calls[..|calls| - 1]), calls[|calls| - 1])
  }

  /** Blocks come in order. */
  predicate InOrder(calls: seq<Call>) {
    forall i, k :: 0 <= i < k < |calls| ==> calls[i].env.height <= calls[k].env.height
  }

  /** No call of the run changes the daily limit. */
  predicate KeepsLimit(calls: seq<Call>, limit: nat) {
    forall i :: 0 <= i < |calls| && calls[i].op.SetSpendingLimits? ==> calls[i].op.dailyLimit == limit
  }

  /** The value accepted in blocks `from` up to but not including `to`. */
  function Total(log: seq<Entry>, from: int, to: int): nat {
    if log == [] then 0
    else
      var last := log[|log| - 1];
      Total(log[..|log| - 1], from, to) + if from <= last.height < to then last.value else 0
  }

  // ---- nonces ----

  /** One call: at most one entry, with the nonce that was due. */
  lemma StepCounts(host: Host, t: Trace, call: Call)
    ensures var u := Step(host, t, call);
      if |u.log| == |t.log| then u.log == t.log && u.m.nonce == t.m.nonce
      else
        && |u.log| == |t.log| + 1 && u.log[..|t.log|] == t.log
        && var e := u.log[|t.log|];
          && u.m.nonce == e.nonce == (t.m.nonce + 1) % NONCES
          && host.parse(e.message).Some? && host.parse(e.message).value.nonce == e.nonce
  {
  }

  /** The entry carries the nonce `n`, and so does its message. */
  predicate Numbered(host: Host, e: Entry, n: nat) {
    e.nonce == n && host.parse(e.message).Some? && host.parse(e.message).value.nonce == n
  }

  /** The entries are numbered on from `first`, and the account's nonce is the last one. */
  ghost predicate Consecutive(host: Host, t: Trace, first: nat) {
    && t.m.nonce == (first + |t.log|) % NONCES
    && forall i :: 0 <= i < |t.log| ==> Numbered(host, t.log[i], (first + 1 + i) % NONCES)
  }

  lemma OneMoreNumbered(host: Host, t: Trace, u: Trace, first: nat)
    requires Consecutive(host, t, first) && |u.log| == |t.log| + 1 && u.log[..|t.log|] == t.log
    requires u.m.nonce == (t.m.nonce + 1) % NONCES && Numbered(host, u.log[|t.log|], u.m.nonce)
    ensures Consecutive(host, u, first)
  {
    AddToResidue(first + |t.log|, 1, NONCES);
    var n := u.m.nonce;
    assert n == (first + |u.log|) % NONCES;
    assert forall i :: 0 <= i < |t.log| ==> u.log[i] == t.log[i];
  }

  /** In every run: accepted nonces follow each other one by one, modulo 2^64. */
  lemma {:induction false} NoncesAreConsecutive(host: Host, m: State, calls: seq<Call>)
    requires m.nonce < NONCES
    ensures Consecutive(host, Run(host, m, calls), m.nonce)
  {
    if calls != [] {
      var before := Run(host, m, calls[..|calls| - 1]);
      NoncesAreConsecutive(host, m, calls[..|calls| - 1]);
      StepCounts(host, before, calls[|calls| - 1]);
      if |Run(host, m, calls).log| > |before.log| {
        OneMoreNumbered(host, before, Run(host, m, calls), m.nonce);
      }
    }
  }

  /** A message is accepted again, if at all, only after the 64-bit nonce went full circle. */
  lemma NoReplay(host: Host, m: State, calls: seq<Call>, i: nat, k: nat)
    requires m.nonce < NONCES
    requires i < k < |Run(host, m, calls).log|
    requires Run(host, m, calls).log[i].message == Run(host, m, calls).log[k].message
    ensures (k - i) % NONCES == 0
  {
    NoncesAreConsecutive(host, m, calls);
    assert Numbered(host, Run(host, m, calls).log[i], (m.nonce + 1 + i) % NONCES);
    assert Numbered(host, Run(host, m, calls).log[k], (m.nonce + 1 + k) % NONCES);
    SameResidue(m.nonce + 1 + i, m.nonce + 1 + k, NONCES);
  }

  lemma SameResidue(a: nat, b: nat, n: nat)
    requires n > 0 && a <= b && a % n == b % n
    ensures (b - a) % n == 0
  {
    var q := b / n - a / n;
    assert b - a == q * n;
    FarApart(q, n);
    Quotient(q, 0, n);
  }

  // ---- the spending window ----

  function Sum(log: seq<Entry>): nat {
    if log == [] then 0 else Sum(log[..|log| - 1]) + log[|log| - 1].value
  }

  lemma {:induction false} TotalBelowSum(log: seq<Entry>, from: int, to: int)
    ensures Total(log, from, to) <= Sum(log)
  {
    if log != [] {
      TotalBelowSum(log[..|log| - 1], from, to);
    }
  }

  lemma {:induction false} TotalSplit(a: seq<Entry>, b: seq<Entry>, from: int, to: int)
    ensures Total(a + b, from, to) == Total(a, from, to) + Total(b, from, to)
  {
    if b == [] {
      assert a + b == a;
    } else {
      assert (a + b)[..|a + b| - 1] == a + b[..|b| - 1];
      TotalSplit(a, b[..|b| - 1], from, to);
    }
  }

  lemma {:induction false} TotalOutside(log: seq<Entry>, from: int, to: int)
    requires forall i :: 0 <= i < |log| && log[i].value > 0 ==> log[i].height < from || to <= log[i].height
    ensures Total(log, from, to) == 0
  {
    if log != [] {
      TotalOutside(log[..|log| - 1], from, to);
    }
  }

  /** The books of a run: what was accepted in closed windows and in the current one. */
  ghost predicate Bounded(log: seq<Entry>, closed: nat, start: nat, spent: nat, limit: nat) {
    && closed <= |log|
    && Sum(log[closed..]) <= spent && Sum(log[closed..]) <= limit
    && (forall i :: closed <= i < |log| && log[i].value > 0 ==> log[i].height < start + FORCE_ROTATE_COOLDOWN_BLOCKS)
    && (closed > 0 ==> forall i :: closed <= i < |log| && log[i].value > 0 ==> start <= log[i].height)
    && (forall i :: 0 <= i < closed && log[i].value > 0 ==> log[i].height < start)
    && (forall h: nat :: h + FORCE_ROTATE_COOLDOWN_BLOCKS > start ==> Span(log[..closed], h) <= limit)
    && (forall h: nat :: Span(log, h) <= 2 * limit)
  }

  /** The value accepted in the 7200 blocks from `h` on. */
  function Span(log: seq<Entry>, h: nat): nat {
    Total(log, h, h + FORCE_ROTATE_COOLDOWN_BLOCKS)
  }

  /** A span that ends after the current window may end meets no closed window. */
  lemma LaterSpan(log: seq<Entry>, closed: nat, start: nat, spent: nat, limit: nat, h: nat)
    requires Bounded(log, closed, start, spent, limit) && h > start
    ensures Span(log, h) <= limit
  {
    var before, cur := log[..closed], log[closed..];
    assert log == before + cur;
    TotalSplit(before, cur, h, h + FORCE_ROTATE_COOLDOWN_BLOCKS);
    TotalOutside(before, h, h + FORCE_ROTATE_COOLDOWN_BLOCKS);
    TotalBelowSum(cur, h, h + FORCE_ROTATE_COOLDOWN_BLOCKS);
  }

  lemma NewWindow(log: seq<Entry>, closed: nat, start: nat, spent: nat, limit: nat, height: nat)
    requires Bounded(log, closed, start, spent, limit) && height >= start + FORCE_ROTATE_COOLDOWN_BLOCKS
    ensures Bounded(log, |log|, height, 0, limit)
  {
    assert log[|log|..] == [] && log[..|log|] == log;
    forall h: nat | h + FORCE_ROTATE_COOLDOWN_BLOCKS > height
      ensures Span(log, h) <= limit
    {
      LaterSpan(log, closed, start, spent, limit, h);
    }
  }

  lemma OneMore(log: seq<Entry>, closed: nat, e: Entry)
    requires closed <= |log|
    ensures (log + [e])[closed..] == log[closed..] + [e] && (log + [e])[..closed] == log[..closed]
    ensures Sum((log + [e])[closed..]) == Sum(log[closed..]) + e.value
    ensures forall h: nat :: Span(log + [e], h) == Span(log[..closed], h) + Span(log[closed..] + [e], h)
    ensures forall h: nat :: Span(log[..closed], h) <= Span(log, h)
  {
    var cur := log[closed..] + [e];
    assert cur[..|cur| - 1] == log[closed..];
    forall h: nat
      ensures Span(log + [e], h) == Span(log[..closed], h) + Span(cur, h)
      ensures Span(log[..closed], h) <= Span(log, h)
    {
      assert log + [e] == log[..closed] + cur && log == log[..closed] + log[closed..];
      TotalSplit(log[..closed], cur, h, h + FORCE_ROTATE_COOLDOWN_BLOCKS);
      TotalSplit(log[..closed], log[closed..], h, h + FORCE_ROTATE_COOLDOWN_BLOCKS);
    }
  }

  /** A span that reaches into the current window meets at most one closed window. */
  lemma OnePayment(log: seq<Entry>, closed: nat, start: nat, spent: nat, limit: nat, e: Entry)
    requires Bounded(log, closed, start, spent, limit) && spent + e.value <= limit
    requires e.value > 0 ==> e.height < start + FORCE_ROTATE_COOLDOWN_BLOCKS
    requires closed > 0 ==> start <= e.height
    ensures Bounded(log + [e], closed, start, spent + e.value, limit)
  {
    OneMore(log, closed, e);
    var cur := log[closed..] + [e];
    forall h: nat
      ensures Span(log + [e], h) <= 2 * limit
    {
      TotalBelowSum(cur, h, h + FORCE_ROTATE_COOLDOWN_BLOCKS);
      if closed > 0 && h + FORCE_ROTATE_COOLDOWN_BLOCKS <= start {
        TotalOutside(cur, h, h + FORCE_ROTATE_COOLDOWN_BLOCKS);
        assert Span(log, h) <= 2 * limit;
      } else if closed == 0 {
        assert log[..closed] == [];
      }
    }
  }

  lemma NoPayment(log: seq<Entry>, closed: nat, start: nat, spent: nat, limit: nat, e: Entry)
    requires Bounded(log, closed, start, spent, limit) && e.value == 0
    ensures Bounded(log + [e], closed, start, spent, limit)
  {
    OneMore(log, closed, e);
    var cur := log[closed..] + [e];
    forall h: nat
      ensures Span(log + [e], h) <= 2 * limit
    {
      assert Span(log, h) <= 2 * limit;
      assert (log + [e])[..|log|] == log;
    }
  }

  /** A dispatch launches at most one promise, and the money in it is what was counted. */
  lemma DispatchCommits(m: State, env: Env, a: ActionKind)
    requires Dispatched(m, env, a).Some?
    ensures m.outbox <= Dispatched(m, env, a).value.outbox
    ensures Committed(Dispatched(m, env, a).value.outbox[|m.outbox|..]) == GetOr(ActionValue(a), 0)
  {
    var sent := Dispatched(m, env, a).value.outbox[|m.outbox|..];
    assert sent == [] || sent == [sent[0]];
    assert sent != [] ==> sent[..|sent| - 1] == [];
  }

  lemma ExecuteCommits(host: Host, m: State, env: Env, message: string, sig: seq<Byte>)
    requires AfterExecute(host, m, env, message, sig).Some?
    ensures var m' := AfterExecute(host, m, env, message, sig).value;
      && host.parse(message).Some?
      && Committed(NewPromises(m, m')) == GetOr(ActionValue(host.parse(message).value.kind), 0)
  {
    var a := Due(host, m, message, sig).value;
    var noted := m.(nonce := a.nonce, lastActionBlock := env.height);
    var value := ActionValue(a.kind);
    var paid := if value.Some? then Spent(noted, env.height, value.value) else Some(noted);
    DispatchCommits(paid.value, env, a.kind);
  }

  /** What an accepted action does to the window. */
  lemma ExecuteSpends(host: Host, m: State, env: Env, message: string, sig: seq<Byte>, limit: nat)
    requires m.dailyLimit == limit && 0 < limit < U128_MAX && AfterExecute(host, m, env, message, sig).Some?
    ensures var m' := AfterExecute(host, m, env, message, sig).value;
      var e := EntryOf(host, m, m', message, sig, env.height);
      && m'.dailyLimit == limit && e.height == env.height
      && ((e.value == 0 && m'.windowStartBlock == m.windowStartBlock && m'.spentInWindow == m.spentInWindow)
          || (var r := Rolled(m, env.height);
              m'.windowStartBlock == r.windowStartBlock && m'.spentInWindow == r.spentInWindow + e.value <= limit))
  {
    ExecuteCommits(host, m, env, message, sig);
  }

  /** One more entry, in the window that `height` falls into. */
  lemma EntryStaysBounded(log: seq<Entry>, closed: nat, m: State, m': State, e: Entry, limit: nat)
    requires Bounded(log, closed, m.windowStartBlock, m.spentInWindow, limit)
    requires closed > 0 ==> m.windowStartBlock <= e.height
    requires
      || (e.value == 0 && m'.windowStartBlock == m.windowStartBlock && m'.spentInWindow == m.spentInWindow)
      || (var r := Rolled(m, e.height);
          m'.windowStartBlock == r.windowStartBlock && m'.spentInWindow == r.spentInWindow + e.value <= limit)
    ensures var closed' := if m'.windowStartBlock != m.windowStartBlock then |log| else closed;
      && Bounded(log + [e], closed', m'.windowStartBlock, m'.spentInWindow, limit)
      && (closed' > 0 ==> m'.windowStartBlock <= e.height)
  {
    var start, spent := m.windowStartBlock, m.spentInWindow;
    if m'.windowStartBlock != start {
      NewWindow(log, closed, start, spent, limit, e.height);
      OnePayment(log, |log|, e.height, 0, limit, e);
    } else if e.value == 0 && m'.spentInWindow == spent {
      NoPayment(log, closed, start, spent, limit, e);
    } else {
      OnePayment(log, closed, start, spent, limit, e);
    }
  }

  lemma StepStaysBounded(host: Host, t: Trace, call: Call, limit: nat)
    requires t.m.dailyLimit == limit && 0 < limit < U128_MAX
    requires call.op.SetSpendingLimits? ==> call.op.dailyLimit == limit
    requires Bounded(t.log, t.closed, t.m.windowStartBlock, t.m.spentInWindow, limit)
    requires t.closed > 0 ==> t.m.windowStartBlock <= call.env.height
    ensures var u := Step(host, t, call);
      && u.m.dailyLimit == limit
      && Bounded(u.log, u.closed, u.m.windowStartBlock, u.m.spentInWindow, limit)
      && (u.closed > 0 ==> u.m.windowStartBlock <= call.env.height)
  {
    if call.op.Execute? && Attempt(host, t.m, call.env, call.op).Some? {
      ExecuteSpends(host, t.m, call.env, call.op.message, call.op.sig, limit);
      EntryStaysBounded(t.log, t.closed, t.m, Attempt(host, t.m, call.env, call.op).value,
                        EntryOf(host, t.m, Attempt(host, t.m, call.env, call.op).value, call.op.message, call.op.sig,
                                call.env.height), limit);
    }
  }

  lemma {:induction false} RunStaysBounded(host: Host, m: State, calls: seq<Call>, limit: nat)
    requires m.dailyLimit == limit && 0 < limit < U128_MAX && KeepsLimit(calls, limit) && InOrder(calls)
    ensures var t := Run(host, m, calls);
      && t.m.dailyLimit == limit
      && Bounded(t.log, t.closed, t.m.windowStartBlock, t.m.spentInWindow, limit)
      && (t.closed > 0 ==> calls != [] && t.m.windowStartBlock <= calls[|calls| - 1].env.height)
  {
    if calls != [] {
      var n := |calls| - 1;
      RunStaysBounded(host, m, calls[..n], limit);
      StepStaysBounded(host, Run(host, m, calls[..n]), calls[n], limit);
    }
  }

  /** Under a constant limit, whatever is called and in whatever order: any 7200 consecutive blocks
      see at most twice the limit accepted, and the current window at most the limit. */
  lemma SpendingBound(host: Host, m: State, calls: seq<Call>, h: nat)
    requires 0 < m.dailyLimit < U128_MAX && KeepsLimit(calls, m.dailyLimit) && InOrder(calls)
    ensures var t := Run(host, m, calls);
      && Total(t.log, h, h + FORCE_ROTATE_COOLDOWN_BLOCKS) <= 2 * m.dailyLimit
      && t.closed <= |t.log| && Sum(t.log[t.closed..]) <= m.dailyLimit
  {
    RunStaysBounded(host, m, calls, m.dailyLimit);
    var t := Run(host, m, calls);
    assert Span(t.log, h) <= 2 * m.dailyLimit;
  }

  // ---- the bound is sharp ----

  /** A host that accepts any signature and reads every message as a payment of `value`. */
  function Lenient(value: nat): Host {
    Host((_, _, _) => true, message => Some(Action(|message|, FundEscrow("", "", value))))
  }

  function Fresh(limit: nat): State {
    State(seq(32, _ => 0), "", "", 0, 0, "", [], 0, limit, 0, 0, [])
  }

  function Pay(message: string, height: nat): Call {
    Call(Env("", height, "", 0), Execute(message, seq(64, _ => 0)))
  }

  /** One payment of `value` on an account that accepts any signature. */
  lemma OnePay(host: Host, t: Trace, message: string, height: nat, value: nat)
    requires host == Lenient(value)
    requires |t.m.agentPubkey| == 32 && t.m.maxActionValue == 0 && |message| == t.m.nonce + 1 < NONCES
    requires t.m.dailyLimit > 0 && SatAdd(Rolled(t.m, height).spentInWindow, value, U128_MAX) <= t.m.dailyLimit
    ensures var u := Step(host, t, Pay(message, height));
      && |u.log| == |t.log| + 1 && u.log[..|t.log|] == t.log
      && u.log[|t.log|].height == height && u.log[|t.log|].value == value
      && u.m == Rolled(t.m, height).(nonce := |message|, lastActionBlock := height, outbox := u.m.outbox,
                                     spentInWindow := SatAdd(Rolled(t.m, height).spentInWindow, value, U128_MAX))
  {
    var noted := t.m.(nonce := |message|, lastActionBlock := height);
    assert Due(host, t.m, message, seq(64, _ => 0)) == Some(Action(|message|, FundEscrow("", "", value)));
    ExecuteCommits(host, t.m, Pay(message, height).env, message, seq(64, _ => 0));
    assert Rolled(noted, height) == Rolled(t.m, height).(nonce := |message|, lastActionBlock := height);
  }

  /** The end of one window and the start of the next: twice the limit in two blocks. */
  lemma BoundIsAttained(limit: nat)
    requires 0 < limit < U128_MAX
    ensures var calls := [Pay("a", 7199), Pay("aa", 7200)];
      InOrder(calls) && KeepsLimit(calls, limit) && Span(Run(Lenient(limit), Fresh(limit), calls).log, 1) == 2 * limit
  {
    var host := Lenient(limit);
    var calls := [Pay("a", 7199), Pay("aa", 7200)];
    var t0 := Trace(Fresh(limit), [], 0);
    OnePay(host, t0, "a", 7199, limit);
    var t1 := Step(host, t0, calls[0]);
    OnePay(host, t1, "aa", 7200, limit);
    var t2 := Step(host, t1, calls[1]);
    RunTwo(host, Fresh(limit), calls[0], calls[1]);
    TwoEntries(t2.log, limit);
  }

  lemma RunTwo(host: Host, m: State, first: Call, second: Call)
    ensures Run(host, m, [first, second]) == Step(host, Step(host, Trace(m, [], 0), first), second)
  {
    var calls := [first, second];
    assert calls[..1] == [first] && [first][..0] == [];
    assert Run(host, m, [first]) == Step(host, Run(host, m, []), first);
  }

  lemma TwoEntries(log: seq<Entry>, limit: nat)
    requires |log| == 2 && log[0].value == log[1].value == limit && log[0].height == 7199 && log[1].height == 7200
    ensures Span(log, 1) == 2 * limit
  {
    assert log[..1][..0] == [];
    assert Total(log[..1], 1, 7201) == Total([], 1, 7201) + limit;
  }

  function Repeated(n: nat): (calls: seq<Call>)
    ensures |calls| == n && forall i :: 0 <= i < n ==> calls[i] == Pay(seq(i + 1, _ => 'a'), 0)
  {
    seq(n, (i: nat) => Pay(seq(i + 1, _ => 'a'), 0))
  }

  /** At the largest limit the running total saturates, and the window bounds nothing: any number of
      largest payments goes through in one block. */
  lemma {:induction false} LargestLimitIsNone(n: nat)
    requires n < U64_MAX
    ensures InOrder(Repeated(n)) && KeepsLimit(Repeated(n), U128_MAX)
    ensures var t := Run(Lenient(U128_MAX), Fresh(U128_MAX), Repeated(n));
      Total(t.log, 0, 1) == n * U128_MAX && t.m.nonce == n && Flooded(t.m)
  {
    var host := Lenient(U128_MAX);
    if n > 0 {
      LargestLimitIsNone(n - 1);
      var t := Run(host, Fresh(U128_MAX), Repeated(n - 1));
      OnePay(host, t, seq(n, _ => 'a'), 0, U128_MAX);
      assert Repeated(n)[..n - 1] == Repeated(n - 1);
      var u := Run(host, Fresh(U128_MAX), Repeated(n));
      assert u.log[..|u.log| - 1] == t.log;
    }
  }

  predicate Flooded(m: State) {
    |m.agentPubkey| == 32 && m.maxActionValue == 0 && m.dailyLimit == U128_MAX && m.windowStartBlock == 0
  }

  // ---- emergency rotation ----

  lemma {:induction false} LastActionIsLast(host: Host, m: State, calls: seq<Call>)
    requires InOrder(calls)
    ensures var t := Run(host, m, calls);
      && (forall i :: 0 <= i < |t.log| ==> t.log[i].height <= t.m.lastActionBlock)
      && (t.log != [] ==> calls != [] && t.m.lastActionBlock <= calls[|calls| - 1].env.height)
  {
    if calls != [] {
      var n := |calls| - 1;
      LastActionIsLast(host, m, calls[..n]);
    }
  }

  /** The owner replaces the key only after 7200 blocks without any accepted action of the agent. */
  lemma RotationNeedsQuiet(host: Host, m: State, calls: seq<Call>, env: Env, newPubkey: string, newNpub: string)
    requires InOrder(calls) && AfterForceRotate(Run(host, m, calls).m, env, newPubkey, newNpub).Some?
    ensures env.signer == Run(host, m, calls).m.owner
    ensures forall i :: 0 <= i < |Run(host, m, calls).log| ==>
      Run(host, m, calls).log[i].height + FORCE_ROTATE_COOLDOWN_BLOCKS <= env.height
  {
    LastActionIsLast(host, m, calls);
  }

  // ---- what the limits decide ----

  /** The action names an amount of money. */
  predicate Names(a: ActionKind, amount: nat) {
    match a
    case CreateEscrow(_, x, _, _) => x == amount
    case FundEscrow(_, _, x) => x == amount
    case Withdraw(_, x, _) => x == amount
    case _ => false
  }

  /** What is checked after the limits. */
  predicate Possible(a: ActionKind, balance: nat) {
    && (a.CreateEscrow? && a.scoreThreshold.Some? ==> a.scoreThreshold.value <= 100)
    && (a.Withdraw? && a.token.None? ==> a.amount <= balance)
  }

  /** A signed action that names an amount is accepted if and only if the amount is within the cap, and fits
      into what is left of the window's limit (any amount fits under the largest limit, where the sum
      saturates); and then exactly that amount is launched, and counted. */
  lemma LimitDecides(host: Host, m: State, env: Env, message: string, sig: seq<Byte>, amount: nat)
    requires Due(host, m, message, sig).Some? && Names(Due(host, m, message, sig).value.kind, amount)
    ensures var spent := if env.height >= m.windowStartBlock + 7200 then 0 else m.spentInWindow;
      && (AfterExecute(host, m, env, message, sig).Some? <==>
            && (m.maxActionValue == 0 || amount <= m.maxActionValue)
            && (m.dailyLimit == 0 || spent + amount <= m.dailyLimit || m.dailyLimit >= U128_MAX)
            && Possible(Due(host, m, message, sig).value.kind, env.balance))
      && (AfterExecute(host, m, env, message, sig).Some? ==>
            var m' := AfterExecute(host, m, env, message, sig).value;
            && Committed(NewPromises(m, m')) == amount
            && (m.dailyLimit == 0 ==> m'.spentInWindow == m.spentInWindow)
            && (0 < m.dailyLimit < U128_MAX ==> m'.spentInWindow == spent + amount))
  {
    if AfterExecute(host, m, env, message, sig).Some? {
      ExecuteCommits(host, m, env, message, sig);
    }
  }

  /** No call of the run changes the cap on single actions. */
  predicate KeepsCap(calls: seq<Call>, cap: nat) {
    forall i :: 0 <= i < |calls| && calls[i].op.SetSpendingLimits? ==> calls[i].op.maxPerAction == cap
  }

  lemma ExecuteStaysCapped(host: Host, m: State, env: Env, message: string, sig: seq<Byte>)
    requires m.maxActionValue > 0 && AfterExecute(host, m, env, message, sig).Some?
    ensures var m' := AfterExecute(host, m, env, message, sig).value;
      Committed(NewPromises(m, m')) <= m.maxActionValue && m'.maxActionValue == m.maxActionValue
  {
    ExecuteCommits(host, m, env, message, sig);
  }

  /** Under a constant positive cap no accepted action ever sends more than the cap. */
  lemma {:induction false} CapHolds(host: Host, m: State, calls: seq<Call>)
    requires m.maxActionValue > 0 && KeepsCap(calls, m.maxActionValue)
    ensures Run(host, m, calls).m.maxActionValue == m.maxActionValue
    ensures forall i :: 0 <= i < |Run(host, m, calls).log| ==> Run(host, m, calls).log[i].value <= m.maxActionValue
  {
    if calls != [] {
      var n := |calls| - 1;
      CapHolds(host, m, calls[..n]);
      var t := Run(host, m, calls[..n]);
      if calls[n].op.Execute? && Attempt(host, t.m, calls[n].env, calls[n].op).Some? {
        ExecuteStaysCapped(host, t.m, calls[n].env, calls[n].op.message, calls[n].op.sig);
      }
    }
  }

  // ---- money goes where a signature says ----

  /** The promise the action asks for. */
  predicate Asks(a: ActionKind, contract: AccountId, p: Promise) {
    match a
    case CreateEscrow(job, amount, token, _) =>
      p == JobCreation(contract, job, amount, token, 1_000_000_000_000_000_000_000_000)
    case FundEscrow(job, token, amount) => p == TransferCall(token, contract, amount, job)
    case CancelEscrow(job) => p == JobCancellation(contract, job)
    case RegisterToken(token) => p.Registration? && p.token == token && p.deposit == 1_000_000_000_000_000_000_000_000
    case RotateKey(_) => false
    case Withdraw(token, amount, to) =>
      p == if token.Some? then TokenTransfer(token.value, to, amount) else NearTransfer(to, amount)
    case DesignateWinner(job, idx) => p == WinnerNaming(contract, job, idx)
  }

  /** The entry's message was signed with the key then in force, and what was launched is what it asks for. */
  ghost predicate AsSigned(host: Host, contract: AccountId, e: Entry) {
    && |e.sig| == 64 && host.ed25519(e.key, e.message, e.sig) && host.parse(e.message).Some?
    && var a := host.parse(e.message).value.kind;
      if a.RotateKey? then e.sent == [] else |e.sent| == 1 && Asks(a, contract, e.sent[0])
  }

  function AllSent(log: seq<Entry>): seq<Promise> {
    if log == [] then [] else AllSent(log[..|log| - 1]) + log[|log| - 1].sent
  }

  lemma DispatchedAsAsked(m: State, env: Env, a: ActionKind)
    requires Dispatched(m, env, a).Some?
    ensures var m' := Dispatched(m, env, a).value;
      var sent := NewPromises(m, m');
      && m'.outbox == m.outbox + sent && m'.escrowContract == m.escrowContract
      && if a.RotateKey? then sent == [] else |sent| == 1 && Asks(a, m.escrowContract, sent[0])
  {
  }

  lemma ExecutedAsSigned(host: Host, m: State, env: Env, message: string, sig: seq<Byte>)
    requires AfterExecute(host, m, env, message, sig).Some?
    ensures var m' := AfterExecute(host, m, env, message, sig).value;
      && m'.outbox == m.outbox + NewPromises(m, m') && m'.escrowContract == m.escrowContract
      && AsSigned(host, m.escrowContract, EntryOf(host, m, m', message, sig, env.height))
  {
    var a := Due(host, m, message, sig).value;
    var noted := m.(nonce := a.nonce, lastActionBlock := env.height);
    var value := ActionValue(a.kind);
    var paid := if value.Some? then Spent(noted, env.height, value.value) else Some(noted);
    DispatchedAsAsked(paid.value, env, a.kind);
  }

  lemma StepAsSigned(host: Host, t: Trace, call: Call)
    ensures var u := Step(host, t, call);
      && u.m.escrowContract == t.m.escrowContract
      && ((u.log == t.log && u.m.outbox == t.m.outbox)
          || (|u.log| == |t.log| + 1 && u.log[..|t.log|] == t.log && AsSigned(host, t.m.escrowContract, u.log[|t.log|])
              && u.m.outbox == t.m.outbox + u.log[|t.log|].sent))
  {
    if call.op.Execute? && Attempt(host, t.m, call.env, call.op).Some? {
      ExecutedAsSigned(host, t.m, call.env, call.op.message, call.op.sig);
    }
  }

  /** In every run: all that the account launches is what accepted messages ask for, one by one, and each of
      them was signed with the key in force at that moment. */
  lemma {:induction false} SentAsSigned(host: Host, m: State, calls: seq<Call>)
    ensures Run(host, m, calls).m.outbox == m.outbox + AllSent(Run(host, m, calls).log)
    ensures Run(host, m, calls).m.escrowContract == m.escrowContract
    ensures AllAsSigned(host, m.escrowContract, Run(host, m, calls).log)
  {
    if calls != [] {
      var n := |calls| - 1;
      var t, u := Run(host, m, calls[..n]), Run(host, m, calls);
      SentAsSigned(host, m, calls[..n]);
      StepAsSigned(host, t, calls[n]);
      if u.log != t.log {
        AllSentAppend(t.log, u.log);
        AllAsSignedAppend(host, m.escrowContract, t.log, u.log);
      }
    }
  }

  ghost predicate AllAsSigned(host: Host, contract: AccountId, log: seq<Entry>) {
    forall i :: 0 <= i < |log| ==> AsSigned(host, contract, log[i])
  }

  lemma AllAsSignedAppend(host: Host, contract: AccountId, log: seq<Entry>, longer: seq<Entry>)
    requires AllAsSigned(host, contract, log) && |longer| == |log| + 1 && longer[..|log|] == log
    requires AsSigned(host, contract, longer[|log|])
    ensures AllAsSigned(host, contract, longer)
  {
    assert forall i :: 0 <= i < |log| ==> longer[i] == log[i];
  }

  lemma AllSentAppend(log: seq<Entry>, longer: seq<Entry>)
    requires |longer| == |log| + 1 && longer[..|log|] == log
    ensures AllSent(longer) == AllSent(log) + longer[|log|].sent
  {
  }

  /** The text spells the key. */
  predicate Spells(text: string, key: seq<Byte>) {
    |key| == 32 && text == "ed25519:" + Base58.Encode(key)
  }

  lemma KeyText(text: string, key: seq<Byte>)
    ensures DecodeKey(text) == Some(key) <==> Spells(text, key)
  {
    if DecodeKey(text) == Some(key) {
      Base58.EncodeDecode(text[|KEY_PREFIX|..]);
      assert text == text[..|KEY_PREFIX|] + text[|KEY_PREFIX|..];
    }
    if Spells(text, key) {
      Base58.DecodeEncode(key);
      assert text[..|KEY_PREFIX|] == KEY_PREFIX && text[|KEY_PREFIX|..] == Base58.Encode(key);
    }
  }

  /** The key changes only by an accepted rotation, signed with the old key or made by the owner, and then to
      the one key that its text spells. */
  lemma KeyMoves(host: Host, m: State, env: Env, op: Op)
    requires Attempt(host, m, env, op).Some?
    ensures var m' := Attempt(host, m, env, op).value;
      match op
      case Execute(message, _) =>
        && host.parse(message).Some?
        && var a := host.parse(message).value.kind;
          if a.RotateKey? then Spells(a.newPubkey, m'.agentPubkey) else m'.agentPubkey == m.agentPubkey
      case ForceRotate(newPubkey, newNpub) =>
        env.signer == m.owner && Spells(newPubkey, m'.agentPubkey) && m'.agentNpub == newNpub
      case _ => m'.agentPubkey == m.agentPubkey
  {
    var m' := Attempt(host, m, env, op).value;
    if op.ForceRotate? {
      KeyText(op.newPubkey, m'.agentPubkey);
    } else if op.Execute? {
      var a := host.parse(op.message).value.kind;
      if a.RotateKey? {
        KeyText(a.newPubkey, m'.agentPubkey);
      }
    }
  }

  /** Limits and whitelist are the owner's alone, and are set to what the owner says; the owner and the escrow
      contract never change. */
  lemma OnlyOwnerConfigures(host: Host, m: State, env: Env, op: Op)
    requires Attempt(host, m, env, op).Some?
    ensures var m' := Attempt(host, m, env, op).value;
      && m'.owner == m.owner && m'.escrowContract == m.escrowContract
      && (op.SetSpendingLimits? ==>
            env.signer == m.owner && m'.maxActionValue == op.maxPerAction && m'.dailyLimit == op.dailyLimit)
      && (!op.SetSpendingLimits? ==> m'.maxActionValue == m.maxActionValue && m'.dailyLimit == m.dailyLimit)
      && (op.SetAllowedTokens? ==> env.signer == m.owner && m'.allowedTokens == op.tokens)
      && (!op.SetAllowedTokens? ==> m'.allowedTokens == m.allowedTokens)
  {
  }
}

/** The escrow contract's storage, the calls it launches, and the ledgers the theorems are about. */
module EscrowState {
  import opened Basics

  type AccountId = string
  type Pubkey = string
  type JobId = string
  type DataId = b: seq<Byte> | |b| == 32 witness seq(32, _ => 0)

  /** Signature checking is a parameter: key bytes, message, signature bytes. */
  type Ed25519 = (seq<Byte>, string, seq<Byte>) -> bool

  datatype Status =
    | PendingFunding | Open | InProgress | Verifying
    | Claimed | Refunded | Cancelled | SettlementFailed

  datatype Target = Claim | Refund | FullRefund

  datatype Mode = Standard | Competitive

  datatype Verdict = Verdict(score: nat, passed: bool, detail: string)

  /** What the yield callback reads: nothing in time, text that is not JSON, or a JSON value
      whose fields may be missing. */
  datatype Payload =
    | TimedOut
    | Malformed
    | Parsed(score: Option<nat>, passed: Option<bool>, detail: Option<string>)

  datatype Submission = Submission(worker: AccountId, result: string, stake: nat, pubkey: Option<Pubkey>)

  /** What the agent fixes at creation. */
  datatype Terms = Terms(
    agent: AccountId,
    amount: nat,
    token: AccountId,
    createdAt: nat,
    timeoutMs: nat,
    taskDescription: string,
    criteria: string,
    fee: nat,
    scoreThreshold: nat,
    mode: Mode,
    maxSubmissions: Option<nat>,
    deadlineBlock: Option<nat>)

  datatype Escrow = Escrow(
    terms: Terms,
    status: Status,
    worker: Option<AccountId>,
    workerPubkey: Option<Pubkey>,
    workerStake: Option<nat>,
    result: Option<string>,
    verdict: Option<Verdict>,
    dataId: Option<DataId>,
    yieldConsumed: bool,
    verifyingSince: Option<nat>,
    target: Option<Target>,
    pendingPayout: Option<nat>,
    pendingStake: Option<nat>,
    retryCount: Byte,
    submissions: seq<Submission>,
    winner: Option<nat>)

  datatype Worker = Worker(account: Option<AccountId>, nonce: nat)

  datatype Config = Config(
    self: AccountId,
    owner: AccountId,
    paused: bool,
    storageDeposit: nat,
    workerStake: nat,
    allowedTokens: seq<AccountId>)

  datatype Stats = Stats(
    totalCreated: nat, pendingFunding: nat, open: nat, inProgress: nat, verifying: nat,
    claimed: nat, refunded: nat, cancelled: nat, settlementFailed: nat)
  {
    function Get(st: Status): nat {
      match st
      case PendingFunding => pendingFunding
      case Open => open
      case InProgress => inProgress
      case Verifying => verifying
      case Claimed => claimed
      case Refunded => refunded
      case Cancelled => cancelled
      case SettlementFailed => settlementFailed
    }

    function With(st: Status, n: nat): Stats {
      match st
      case PendingFunding => this.(pendingFunding := n)
      case Open => this.(open := n)
      case InProgress => this.(inProgress := n)
      case Verifying => this.(verifying := n)
      case Claimed => this.(claimed := n)
      case Refunded => this.(refunded := n)
      case Cancelled => this.(cancelled := n)
      case SettlementFailed => this.(settlementFailed := n)
    }

    function Move(from: Status, to: Status): Stats {
      var less := With(from, SatSub(Get(from), 1));
      less.With(to, SatAdd(less.Get(to), 1, U64_MAX))
    }

    /** 1 when taking one from this counter has no effect. */
    function Underflow(from: Status): nat {
      if Get(from) == 0 then 1 else 0
    }

    function Total(): nat {
      SatAdd(SatAdd(SatAdd(SatAdd(SatAdd(SatAdd(SatAdd(
        pendingFunding, open, U64_MAX), inProgress, U64_MAX), verifying, U64_MAX), claimed, U64_MAX),
        refunded, U64_MAX), cancelled, U64_MAX), settlementFailed, U64_MAX)
    }
  }

  /** Why native NEAR leaves the contract. */
  datatype Reason = StorageRefund | StakeOf(job: JobId) | Wallet | Excess

  datatype Transfer = Transfer(receiver: AccountId, amount: nat)

  /** Promises handed to the runtime, in the order the contract creates them. */
  datatype Promise =
    | Near(to: AccountId, amount: nat, reason: Reason)
    | Ft(token: AccountId, transfer: Transfer)
    | Batch(job: JobId, token: AccountId, transfers: seq<Transfer>)
    | Yield(id: DataId, job: JobId)

  /** What one job id has seen. `credited` and `openings` restart when the job is removed;
      the stake columns run over every escrow that ever used the id. */
  datatype Ledger = Ledger(credited: nat, openings: nat, stakeIn: nat, stakeOut: nat, retained: nat)

  const NEW_LEDGER := Ledger(0, 0, 0, 0, 0)

  /** A signed worker message that passed verification, with the nonce it was printed with. */
  datatype Accepted = Accepted(pubkey: Pubkey, message: string, nonce: nat)

  /** The first seven fields are the contract's; the rest records what the theorems speak of: promises
      launched, yield ids issued, ledgers, accepted messages, and decrements of a counter at 0. */
  datatype State = State(
    cfg: Config,
    escrows: map<JobId, Escrow>,
    workers: map<Pubkey, Worker>,
    pausedWorkers: set<Pubkey>,
    balances: map<string, nat>,
    index: map<string, JobId>,
    stats: Stats,
    outbox: seq<Promise>,
    issued: set<DataId>,
    ledgers: map<JobId, Ledger>,
    accepted: seq<Accepted>,
    underflows: nat)
  {
    function LedgerOf(j: JobId): Ledger {
      if j in ledgers then ledgers[j] else NEW_LEDGER
    }

    function Put(j: JobId, e: Escrow): State {
      this.(escrows := escrows[j := e])
    }

    function Book(j: JobId, l: Ledger): State {
      this.(ledgers := ledgers[j := l])
    }

    function Send(p: Promise): State {
      this.(outbox := outbox + [p])
    }

    function Moved(from: Status, to: Status): State {
      this.(stats := stats.Move(from, to), underflows := underflows + stats.Underflow(from))
    }
  }

  /** What the runtime tells a call: who asks, what is attached, what time it is, the id a new
      yield would get, and how signatures verify. */
  datatype Env = Env(
    signer: AccountId,
    predecessor: AccountId,
    deposit: nat,
    nowMs: nat,
    height: nat,
    yieldId: DataId,
    ed25519: Ed25519)

  function StakeSum(subs: seq<Submission>): nat {
    if subs == [] then 0 else StakeSum(subs[..|subs| - 1]) + subs[|subs| - 1].stake
  }

  const STORAGE_DEPOSIT_YOCTO: nat := 1_000_000_000_000_000_000_000_000
  const WORKER_STAKE_YOCTO: nat := 100_000_000_000_000_000_000_000
  const VERIFICATION_SAFETY_TIMEOUT_MS: nat := 24 * 3600 * 1000
  const MAX_SETTLEMENT_RETRIES: nat := 5
  const MAX_JOB_ID_LEN: nat := 128
  const MAX_TASK_DESCRIPTION_LEN: nat := 2048
  const MAX_CRITERIA_LEN: nat := 2048
  const MAX_RESULT_LEN: nat := 8192
  const MAX_COMPETITIVE_RESULT_LEN: nat := 2048
  const U32_MAX: nat := 0xFFFF_FFFF
  const NEAR_TOKEN_ID: string := "near"

  function Initial(self: AccountId, owner: AccountId, allowed: seq<AccountId>): State {
    State(
      Config(self, owner, false, STORAGE_DEPOSIT_YOCTO, WORKER_STAKE_YOCTO, allowed),
      map[], map[], {}, map[], map[], Stats(0, 0, 0, 0, 0, 0, 0, 0, 0), [], {}, map[], [], 0)
  }
}

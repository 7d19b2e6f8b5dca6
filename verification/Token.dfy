/** The fungible-token contract on the other side (NEP-141: transfer, transfer-call, resolve). Amounts
    are 128-bit and wrap around, as in a build without overflow checks. */
module Token {
  import opened Basics

  type AccountId = string
  type Amount = a: nat | a <= U128_MAX

  const AMOUNTS: nat := U128_MAX + 1

  /** What registering an account costs, in yoctoNEAR. */
  const STORAGE_PRICE: nat := 1_000_000_000_000_000_000_000_000

  function Wrapped(x: nat): Amount {
    x % AMOUNTS
  }

  datatype State = State(owner: AccountId, accounts: map<AccountId, Amount>, totalSupply: Amount, paused: bool)
  {
    function BalanceOf(a: AccountId): nat {
      if a in accounts then accounts[a] else 0
    }
  }

  /** What the receiver's `ft_on_transfer` came back with: nothing usable counts as 0. */
  datatype Answer = Failed | Returned(unused: Amount) | Garbled

  function AfterMint(t: State, signer: AccountId, account: AccountId, amount: Amount): Option<State> {
    if signer != t.owner then None
    else Some(t.(accounts := t.accounts[account := Wrapped(t.BalanceOf(account) + amount)],
                 totalSupply := Wrapped(t.totalSupply + amount)))
  }

  function AfterStorageDeposit(t: State, account: AccountId): State {
    if account in t.accounts then t else t.(accounts := t.accounts[account := 0])
  }

  /** Take from one account, then give to the other; they may be the same. */
  function Moved(t: State, from: AccountId, to: AccountId, amount: Amount): State
    requires from in t.accounts && to in t.accounts && amount <= t.accounts[from]
  {
    var taken := t.accounts[from := t.accounts[from] - amount];
    t.(accounts := taken[to := Wrapped(taken[to] + amount)])
  }

  predicate CanTransfer(t: State, from: AccountId, to: AccountId, deposit: nat, amount: Amount) {
    && !t.paused && deposit >= 1 && amount > 0
    && from in t.accounts && t.accounts[from] >= amount && to in t.accounts
  }

  function AfterTransfer(t: State, from: AccountId, to: AccountId, deposit: nat, amount: Amount): Option<State> {
    if CanTransfer(t, from, to, deposit, amount) then Some(Moved(t, from, to, amount)) else None
  }

  function UnusedOf(answer: Answer, amount: Amount): Amount {
    match answer
    case Failed => amount
    case Returned(unused) => unused
    case Garbled => 0
  }

  /** What is owed back to the sender: no more than was sent. */
  function DueBack(answer: Answer, amount: Amount): Amount {
    var unused := UnusedOf(answer, amount);
    if unused < amount then unused else amount
  }

  /** Paid back only if the receiver still has it. */
  function AfterResolve(t: State, sender: AccountId, receiver: AccountId, amount: Amount,
      answer: Answer): Option<State>
  {
    var due := DueBack(answer, amount);
    if UnusedOf(answer, amount) == 0 then Some(t)
    else if receiver !in t.accounts then None
    else if t.accounts[receiver] < due then Some(t)
    else if sender !in t.accounts then None
    else Some(Moved(t, receiver, sender, due))
  }

  // ---- the contract as it runs ----

  class FtMock {
    var owner: AccountId
    var accounts: map<AccountId, Amount>
    var totalSupply: Amount
    var transfersPaused: bool

    ghost function View(): State
      reads this
    {
      State(owner, accounts, totalSupply, transfersPaused)
    }

    constructor (signer: AccountId)
      ensures View() == State(signer, map[], 0, false)
    {
      owner, accounts, totalSupply, transfersPaused := signer, map[], 0, false;
    }

    method Mint(signer: AccountId, account: AccountId, amount: Amount) returns (ok: bool)
      modifies this
      ensures ok <==> AfterMint(old(View()), signer, account, amount).Some?
      ensures View() == if ok then AfterMint(old(View()), signer, account, amount).value else old(View())
    {
      if signer != owner {
        return false;
      }
      var balance: Amount := if account in accounts then accounts[account] else 0;
      balance := Wrapped(balance + amount);
      accounts := accounts[account := balance];
      totalSupply := Wrapped(totalSupply + amount);
      return true;
    }

    /** Registers an account once. What is attached beyond the storage price goes back to the signer, but
        for an account that was registered already everything is kept. */
    method StorageDeposit(account: AccountId, deposit: nat) returns (refund: nat)
      modifies this
      ensures View() == AfterStorageDeposit(old(View()), account)
      ensures refund == if account in old(accounts) then 0 else SatSub(deposit, STORAGE_PRICE)
    {
      refund := 0;
      var registered := account in accounts;
      if !registered {
        accounts := accounts[account := 0];
      }
      if deposit > STORAGE_PRICE {
        if !registered {
          refund := deposit - STORAGE_PRICE;
        }
      }
    }

    /** The body that `ft_transfer` and `ft_transfer_call` share; the latter then calls the receiver. */
    method Transfer(predecessor: AccountId, deposit: nat, receiver: AccountId, amount: Amount) returns (ok: bool)
      modifies this
      ensures ok <==> AfterTransfer(old(View()), predecessor, receiver, deposit, amount).Some?
      ensures View() == if ok then AfterTransfer(old(View()), predecessor, receiver, deposit, amount).value
          else old(View())
    {
      if transfersPaused || deposit < 1 || amount == 0 || predecessor !in accounts {
        return false;
      }
      var sender: Amount := accounts[predecessor];
      if sender < amount {
        return false;
      }
      var saved := accounts;
      accounts := accounts[predecessor := sender - amount];
      if receiver !in accounts {
        accounts := saved; // the panic reverts the debit
        return false;
      }
      accounts := accounts[receiver := Wrapped(accounts[receiver] + amount)];
      return true;
    }

    method ResolveTransfer(sender: AccountId, receiver: AccountId, amount: Amount, answer: Answer)
      returns (ok: bool, unusedAmount: Amount)
      modifies this
      ensures unusedAmount == UnusedOf(answer, amount)
      ensures ok <==> AfterResolve(old(View()), sender, receiver, amount, answer).Some?
      ensures View() == if ok then AfterResolve(old(View()), sender, receiver, amount, answer).value else old(View())
    {
      match answer {
        case Failed => unusedAmount := amount;
        case Returned(unused) => unusedAmount := unused;
        case Garbled => unusedAmount := 0;
      }
      if unusedAmount == 0 {
        return true, unusedAmount;
      }
      var actualRefund: Amount := if unusedAmount < amount then unusedAmount else amount;
      if receiver !in accounts {
        return false, unusedAmount;
      }
      var balance: Amount := accounts[receiver];
      if balance >= actualRefund {
        if sender !in accounts {
          return false, unusedAmount;
        }
        accounts := accounts[receiver := balance - actualRefund];
        accounts := accounts[sender := Wrapped(accounts[sender] + actualRefund)];
      }
      return true, unusedAmount;
    }

    method SetPaused(signer: AccountId, paused: bool) returns (ok: bool)
      modifies this
      ensures ok <==> signer == old(owner)
      ensures View() == if ok then old(View()).(paused := paused) else old(View())
    {
      if signer != owner {
        return false;
      }
      transfersPaused := paused;
      return true;
    }
  }

  // ---- runs ----

  datatype Op =
    | Mint(signer: AccountId, account: AccountId, amount: Amount)
    | StorageDeposit(account: AccountId)
    | Transfer(from: AccountId, to: AccountId, deposit: nat, amount: Amount)
    | Resolve(sender: AccountId, receiver: AccountId, amount: Amount, answer: Answer)
    | SetPaused(signer: AccountId, paused: bool)

  function Attempt(t: State, op: Op): Option<State> {
    match op
    case Mint(signer, account, amount) => AfterMint(t, signer, account, amount)
    case StorageDeposit(account) => Some(AfterStorageDeposit(t, account))
    case Transfer(from, to, deposit, amount) => AfterTransfer(t, from, to, deposit, amount)
    case Resolve(sender, receiver, amount, answer) => AfterResolve(t, sender, receiver, amount, answer)
    case SetPaused(signer, paused) => if signer == t.owner then Some(t.(paused := paused)) else None
  }

  function Apply(t: State, op: Op): State {
    var r := Attempt(t, op);
    if r.Some? then r.value else t
  }

  function Run(t: State, ops: seq<Op>): State {
    if ops == [] then t else Apply(Run(t, ops[..|ops| - 1]), ops[|ops| - 1])
  }

  /** The mints that went through. */
  function Minted(t: State, ops: seq<Op>): nat {
    if ops == [] then 0
    else
      var before, last := Run(t, ops[..|ops| - 1]), ops[|ops| - 1];
      Minted(t, ops[..|ops| - 1]) + if last.Mint? && last.signer == before.owner then last.amount else 0
  }

  lemma WrappedIs(x: nat)
    requires x < 2 * AMOUNTS
    ensures Wrapped(x) == if x < AMOUNTS then x else x - AMOUNTS
  {
    if x >= AMOUNTS {
      Quotient(1, x - AMOUNTS, AMOUNTS);
    }
  }

  lemma OneRoundLess(x: nat, n: nat)
    requires n > 0 && x >= n
    ensures (x - n) % n == x % n
  {
    var q, r := (x - n) / n, (x - n) % n;
    assert x == (q + 1) * n + r;
    Quotient(q + 1, r, n);
  }

  // ---- every account by itself ----

  /** What a call takes from an account, and what it gives to it. */
  predicate Moves(t: State, u: State, from: AccountId, to: AccountId, amount: nat) {
    && from in t.accounts && amount <= t.accounts[from] && u.accounts.Keys == t.accounts.Keys + {to}
    && forall a :: a in u.accounts ==>
      u.accounts[a]
        == if from == to then t.BalanceOf(a)
           else if a == from then t.accounts[a] - amount
           else if a == to then Wrapped(t.BalanceOf(a) + amount)
           else t.BalanceOf(a)
  }

  lemma MovedMoves(t: State, from: AccountId, to: AccountId, amount: Amount)
    requires from in t.accounts && to in t.accounts && amount <= t.accounts[from]
    ensures Moves(t, Moved(t, from, to, amount), from, to, amount)
  {
    SmallResidue(t.accounts[from], AMOUNTS);
  }

  /** When a call goes ahead, and what it does to each account. */
  ghost predicate ByTheBook(t: State, op: Op) {
    var r := Attempt(t, op);
    match op
    case Mint(signer, account, amount) =>
      && (r.Some? <==> signer == t.owner)
      && (r.Some? ==> r.value.accounts == t.accounts[account := Wrapped(t.BalanceOf(account) + amount)])
    case StorageDeposit(account) =>
      && r.Some? && r.value.accounts.Keys == t.accounts.Keys + {account}
      && forall a :: r.value.BalanceOf(a) == t.BalanceOf(a)
    case Transfer(from, to, deposit, amount) =>
      && (r.Some? <==> !t.paused && deposit >= 1 && 0 < amount <= t.BalanceOf(from) && to in t.accounts)
      && (r.Some? ==> Moves(t, r.value, from, to, amount))
    case Resolve(sender, receiver, amount, answer) =>
      var asked := match answer case Failed => amount case Returned(unused) => unused case Garbled => 0;
      var due := if asked < amount then asked else amount;
      && (r.Some? <==> asked == 0 || (receiver in t.accounts && (sender in t.accounts || t.BalanceOf(receiver) < due)))
      && (r.Some? ==>
            if asked == 0 || t.BalanceOf(receiver) < due then r.value == t
            else Moves(t, r.value, receiver, sender, due))
    case SetPaused(signer, paused) =>
      (r.Some? <==> signer == t.owner) && (r.Some? ==> r.value.accounts == t.accounts && r.value.paused == paused)
  }

  /** Every call is refused exactly when it should be, and otherwise moves the balances of its own two
      accounts and of nobody else. */
  lemma CallsGoByTheBook(t: State, op: Op)
    ensures ByTheBook(t, op)
  {
    match op
    case Transfer(from, to, deposit, amount) =>
      if CanTransfer(t, from, to, deposit, amount) {
        MovedMoves(t, from, to, amount);
      }
    case Resolve(sender, receiver, amount, answer) =>
      var due := DueBack(answer, amount);
      if receiver in t.accounts && sender in t.accounts && due <= t.accounts[receiver] {
        MovedMoves(t, receiver, sender, due);
      }
    case _ =>
  }

  /** A transfer keeps the sum of all balances, up to a full round of the 128 bits; and exactly, as
      long as the sum fits. */
  lemma MovedKeepsSum(t: State, from: AccountId, to: AccountId, amount: Amount)
    requires from in t.accounts && to in t.accounts && amount <= t.accounts[from]
    ensures var sum, sum' := MapSum(t.accounts), MapSum(Moved(t, from, to, amount).accounts);
      sum' % AMOUNTS == sum % AMOUNTS && (sum < AMOUNTS ==> sum' == sum)
  {
    var taken := t.accounts[from := t.accounts[from] - amount];
    MapSumWrite(t.accounts, from, t.accounts[from] - amount);
    MapSumWrite(taken, to, Wrapped(taken[to] + amount));
    MapSumAtLeast(taken, to);
    WrappedIs(taken[to] + amount);
    RoundKeepsResidue(MapSum(t.accounts), MapSum(Moved(t, from, to, amount).accounts));
  }

  lemma RoundKeepsResidue(sum: nat, sum': nat)
    requires sum' == sum || (sum >= AMOUNTS && sum' == sum - AMOUNTS)
    ensures sum' % AMOUNTS == sum % AMOUNTS
  {
    if sum' != sum {
      OneRoundLess(sum, AMOUNTS);
    }
  }

  lemma MintAddsToSum(t: State, account: AccountId, amount: Amount)
    ensures var sum' := MapSum(t.accounts[account := Wrapped(t.BalanceOf(account) + amount)]);
      && sum' % AMOUNTS == (MapSum(t.accounts) + amount) % AMOUNTS
      && (MapSum(t.accounts) + amount < AMOUNTS ==> sum' == MapSum(t.accounts) + amount)
  {
    MapSumWrite(t.accounts, account, Wrapped(t.BalanceOf(account) + amount));
    MapSumAtLeast(t.accounts, account);
    WrappedIs(t.BalanceOf(account) + amount);
    if t.BalanceOf(account) + amount >= AMOUNTS {
      OneRoundLess(MapSum(t.accounts) + amount, AMOUNTS);
    }
  }

  lemma SmallResidue(x: nat, n: nat)
    requires n > 0
    ensures x % n == x <==> x < n
  {
    if x < n {
      Quotient(0, x, n);
    }
  }

  lemma StepKeepsSupply(t: State, op: Op)
    requires MapSum(t.accounts) % AMOUNTS == t.totalSupply
    ensures var u := Apply(t, op);
      && MapSum(u.accounts) % AMOUNTS == u.totalSupply
      && u.owner == t.owner
      && (op.Mint? || MapSum(t.accounts) >= AMOUNTS || MapSum(u.accounts) == MapSum(t.accounts))
      && (op.Mint? && MapSum(t.accounts) + op.amount < AMOUNTS ==>
            MapSum(u.accounts) == MapSum(t.accounts) + if op.signer == t.owner then op.amount else 0)
  {
    if Attempt(t, op).Some? {
      match op
      case Mint(_, account, amount) =>
        MintAddsToSum(t, account, amount);
        AddToResidue(MapSum(t.accounts), amount, AMOUNTS);
      case StorageDeposit(account) =>
        if account !in t.accounts {
          MapSumWrite(t.accounts, account, 0);
        }
      case Transfer(from, to, _, amount) => MovedKeepsSum(t, from, to, amount);
      case Resolve(sender, receiver, amount, answer) =>
        if AfterResolve(t, sender, receiver, amount, answer) != Some(t) {
          MovedKeepsSum(t, receiver, sender, DueBack(answer, amount));
        }
      case SetPaused(_, _) =>
    }
  }

  /** In every run the supply is the sum of all balances modulo 2^128; and as long as no more than
      2^128 - 1 was minted, supply, sum and what was minted are the same number. */
  lemma {:induction false} SupplyIsSumOfBalances(owner: AccountId, ops: seq<Op>)
    ensures var t0 := State(owner, map[], 0, false);
      var t := Run(t0, ops);
      && t.totalSupply == MapSum(t.accounts) % AMOUNTS
      && (t.totalSupply == MapSum(t.accounts) <==> MapSum(t.accounts) < AMOUNTS)
      && (Minted(t0, ops) < AMOUNTS ==> t.totalSupply == MapSum(t.accounts) == Minted(t0, ops))
  {
    var t0 := State(owner, map[], 0, false);
    if ops == [] {
      assert MapSum(t0.accounts) == 0;
    } else {
      var n := |ops| - 1;
      SupplyIsSumOfBalances(owner, ops[..n]);
      var before := Run(t0, ops[..n]);
      StepKeepsSupply(before, ops[n]);
      SmallResidue(MapSum(Run(t0, ops).accounts), AMOUNTS);
    }
  }
}

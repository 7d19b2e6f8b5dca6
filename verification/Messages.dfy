/** The texts workers sign. A nonce is printed last, so it can always be read back. */
module Messages {
  function Decimal(n: nat): (s: string)
    ensures s != "" && forall c :: c in s ==> '0' <= c <= '9'
  {
    var last := [(('0' as int) + n % 10) as char];
    if n < 10 then last else Decimal(n / 10) + last
  }

  function ReadDecimal(s: string): int {
    if s == "" then 0
    else 10 * ReadDecimal(s[..|s| - 1]) + (s[|s| - 1] as int) - ('0' as int)
  }

  lemma {:induction false} ReadBack(n: nat)
    ensures ReadDecimal(Decimal(n)) == n
  {
    var s := Decimal(n);
    if n < 10 {
      assert s[..|s| - 1] == "";
    } else {
      ReadBack(n / 10);
      assert s[..|s| - 1] == Decimal(n / 10);
    }
  }

  /** An action a worker can authorize. */
  datatype Action =
    | ClaimJob(job: string)
    | SubmitJob(job: string)
    | Withdrawal(token: string, amount: nat, to: string)
    | Link(account: string)

  function Verb(a: Action): (v: string)
    ensures NoColon(v)
  {
    match a
    case ClaimJob(_) => "claim"
    case SubmitJob(_) => "submit_result"
    case Withdrawal(_, _, _) => "withdraw"
    case Link(_) => "link"
  }

  function Fields(a: Action): string {
    match a
    case ClaimJob(job) => job
    case SubmitJob(job) => job
    case Withdrawal(token, amount, to) => token + ":" + (Decimal(amount) + ":" + to)
    case Link(account) => account
  }

  /** The signed text up to the colon before the nonce. A link does not name the contract. */
  function Body(self: string, a: Action): string {
    var action := Verb(a) + ":" + Fields(a);
    if a.Link? then action else self + ":" + action
  }

  function Message(self: string, a: Action, nonce: nat): string {
    Body(self, a) + ":" + Decimal(nonce)
  }

  predicate NoColon(s: string) { ':' !in s }

  /** Account ids: 2 to 64 characters, lower-case letters and digits joined by single separators. */
  predicate ValidAccountId(s: string) {
    && 2 <= |s| <= 64
    && (forall i :: 0 <= i < |s| ==> '0' <= s[i] <= '9' || 'a' <= s[i] <= 'z' || IsSeparator(s[i]))
    && !IsSeparator(s[0]) && !IsSeparator(s[|s| - 1])
    && (forall i :: 0 <= i < |s| - 1 ==> !(IsSeparator(s[i]) && IsSeparator(s[i + 1])))
  }

  predicate IsSeparator(c: char) { c == '-' || c == '_' || c == '.' }

  /** The fields that are account ids. A withdrawal whose token is not one is never executed. */
  predicate WellFormed(a: Action) {
    match a
    case ClaimJob(_) => true
    case SubmitJob(_) => true
    case Withdrawal(token, _, to) => ValidAccountId(token) && ValidAccountId(to)
    case Link(account) => ValidAccountId(account)
  }

  /** Splitting at the last colon is unique. */
  lemma SplitLast(a: string, x: string, b: string, y: string)
    requires a + ":" + x == b + ":" + y && NoColon(x) && NoColon(y)
    ensures a == b && x == y
  {
    var s := a + ":" + x;
    assert s[|a|] == ':' && s[|b|] == ':';
    assert forall i :: |a| < i < |s| ==> s[i] == x[i - |a| - 1];
    assert forall i :: |b| < i < |s| ==> s[i] == y[i - |b| - 1];
    assert |a| == |b|;
    assert a == s[..|a|] && b == s[..|b|];
    assert x == s[|a| + 1..] && y == s[|b| + 1..];
  }

  /** Splitting at the first colon is unique. */
  lemma SplitFirst(a: string, x: string, b: string, y: string)
    requires a + ":" + x == b + ":" + y && NoColon(a) && NoColon(b)
    ensures a == b && x == y
  {
    var s := a + ":" + x;
    assert s[|a|] == ':' && s[|b|] == ':';
    assert forall i :: 0 <= i < |a| ==> s[i] == a[i];
    assert forall i :: 0 <= i < |b| ==> s[i] == b[i];
    assert |a| == |b|;
    assert a == s[..|a|] && b == s[..|b|];
    assert x == s[|a| + 1..] && y == s[|b| + 1..];
  }

  /** Whatever the two actions are, equal texts carry equal nonces. */
  lemma NonceReadable(self: string, a: Action, m: nat, b: Action, n: nat)
    requires Message(self, a, m) == Message(self, b, n)
    ensures m == n && Body(self, a) == Body(self, b)
  {
    SplitLast(Body(self, a), Decimal(m), Body(self, b), Decimal(n));
    ReadBack(m);
    ReadBack(n);
  }

  lemma AccountsHaveNoColon(s: string)
    requires ValidAccountId(s)
    ensures NoColon(s)
  {
  }

  /** The four formats are jointly unambiguous, even when job ids contain colons. */
  lemma Unambiguous(self: string, a: Action, m: nat, b: Action, n: nat)
    requires ValidAccountId(self) && WellFormed(a) && WellFormed(b)
    requires Message(self, a, m) == Message(self, b, n)
    ensures a == b && m == n
  {
    NonceReadable(self, a, m, b, n);
    AccountsHaveNoColon(self);
    if a.Link? != b.Link? {
      LinkIsApart(self, if a.Link? then a else b, if a.Link? then b else a);
    } else {
      if !a.Link? {
        SplitFirst(self, Verb(a) + ":" + Fields(a), self, Verb(b) + ":" + Fields(b));
      }
      SplitFirst(Verb(a), Fields(a), Verb(b), Fields(b));
      if a.Withdrawal? && b.Withdrawal? {
        AccountsHaveNoColon(a.token);
        AccountsHaveNoColon(b.token);
        SplitFirst(a.token, Decimal(a.amount) + ":" + a.to, b.token, Decimal(b.amount) + ":" + b.to);
        SplitFirst(Decimal(a.amount), a.to, Decimal(b.amount), b.to);
        ReadBack(a.amount);
        ReadBack(b.amount);
      }
    }
  }

  /** A link text has no colon after its prefix; every other text has one. */
  lemma LinkIsApart(self: string, a: Action, b: Action)
    requires ValidAccountId(self) && a.Link? && !b.Link? && WellFormed(a)
    ensures Body(self, a) != Body(self, b)
  {
    AccountsHaveNoColon(self);
    AccountsHaveNoColon(a.account);
    var action := Verb(b) + ":" + Fields(b);
    assert action[|Verb(b)|] == ':';
    if Body(self, a) == Body(self, b) {
      SplitFirst("link", a.account, self, action);
      assert false;
    }
  }
}

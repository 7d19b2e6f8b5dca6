/** The relayer's retry queue and its rate limiter. */
module Relayer {
  import opened Basics

  // ---- the rate limiter on one account's submissions ----

  const HOUR: real := 3600.0

  /** The submissions of the last hour, seen from `now`. */
  function Recent(times: seq<real>, now: real): seq<real> {
    if times == [] then []
    else
      var n := |times| - 1;
      Recent(times[..n], now) + if times[n] > now - HOUR then [times[n]] else []
  }

  function Last(times: seq<real>): real {
    if times == [] then 0.0 else times[|times| - 1]
  }

  /** The limit as it is meant: decided on everything ever submitted. */
  predicate Allowed(times: seq<real>, now: real, gap: real, hourly: nat) {
    now - Last(times) >= gap && |Recent(times, now)| < hourly
  }

  /** The places of the submissions that are less than an hour old. */
  function LastHour(times: seq<real>, now: real): set<nat> {
    set i: nat | i < |times| && now - times[i] < 3600.0
  }

  lemma {:induction false} RecentIsLastHour(times: seq<real>, now: real)
    ensures |Recent(times, now)| == |LastHour(times, now)|
  {
    if times == [] {
      assert LastHour(times, now) == {};
    } else {
      var n := |times| - 1;
      RecentIsLastHour(times[..n], now);
      assert LastHour(times, now) == LastHour(times[..n], now) + if now - times[n] < 3600.0 then {n} else {};
    }
  }

  /** The limiter says yes if and only if the gap has passed since the last submission (since the epoch if
      there was none) and fewer than the maximum are less than an hour old. */
  lemma AllowedExactly(times: seq<real>, now: real, gap: real, hourly: nat)
    ensures Allowed(times, now, gap, hourly) <==>
      (if times == [] then now >= gap else now >= times[|times| - 1] + gap) && |LastHour(times, now)| < hourly
  {
    RecentIsLastHour(times, now);
  }

  /** Submissions keep their distance from all earlier ones. */
  predicate Spaced(times: seq<real>, gap: real) {
    forall i, k :: 0 <= i < k < |times| ==> times[i] <= times[k] && times[k] - times[i] >= gap
  }

  /** Each submission found room in the hour before it. */
  predicate Roomy(times: seq<real>, hourly: nat) {
    forall k :: 0 <= k < |times| ==> |Recent(times[..k], times[k])| < hourly
  }

  predicate Paced(times: seq<real>, gap: real, hourly: nat) {
    Spaced(times, gap) && Roomy(times, hourly)
  }

  lemma {:induction false} RecentTwice(times: seq<real>, now: real, later: real)
    requires now <= later
    ensures Recent(Recent(times, now), later) == Recent(times, later)
    ensures |Recent(times, later)| <= |Recent(times, now)| <= |times|
  {
    if times != [] {
      var n := |times| - 1;
      RecentTwice(times[..n], now, later);
      var before := Recent(times[..n], now);
      RecentAppend(before, times[n], later);
      if times[n] > now - HOUR {
        assert Recent(times, now) == before + [times[n]];
      } else {
        assert Recent(times, now) == before + [] == before;
        assert Recent(times, later) == Recent(times[..n], later) + [];
      }
    }
  }

  lemma RecentAppend(times: seq<real>, t: real, now: real)
    ensures Recent(times + [t], now) == Recent(times, now) + if t > now - HOUR then [t] else []
  {
    assert (times + [t])[..|times|] == times;
  }

  lemma SpacedAppend(times: seq<real>, gap: real, now: real)
    requires Spaced(times, gap) && (times != [] ==> Last(times) <= now && now - Last(times) >= gap)
    ensures Spaced(times + [now], gap)
  {
    forall i | 0 <= i < |times|
      ensures times[i] <= Last(times)
    {
      assert i < |times| - 1 ==> times[i] <= times[|times| - 1];
    }
  }

  lemma RoomyAppend(times: seq<real>, hourly: nat, now: real)
    requires Roomy(times, hourly) && |Recent(times, now)| < hourly
    ensures Roomy(times + [now], hourly)
  {
    var longer := times + [now];
    assert forall k :: 0 <= k <= |times| ==> longer[..k] == times[..k];
    assert times[..|times|] == times;
  }

  /** One more submission after a check that said yes. */
  lemma PacedAppend(times: seq<real>, gap: real, hourly: nat, checkedAt: real, now: real)
    requires Paced(times, gap, hourly) && Allowed(times, checkedAt, gap, hourly)
    requires (times != [] ==> Last(times) <= checkedAt) && checkedAt <= now
    ensures Paced(times + [now], gap, hourly)
  {
    RecentTwice(times, checkedAt, now);
    SpacedAppend(times, gap, now);
    RoomyAppend(times, hourly, now);
  }

  /** A half-open hour, open at its start or at its end. */
  predicate Within(t: real, from: real, openStart: bool) {
    if openStart then from < t <= from + 3600.0 else from <= t < from + 3600.0
  }

  function InHour(times: seq<real>, from: real, openStart: bool): seq<real> {
    if times == [] then []
    else
      var n := |times| - 1;
      InHour(times[..n], from, openStart) + if Within(times[n], from, openStart) then [times[n]] else []
  }

  lemma {:induction false} InHourIsRecent(times: seq<real>, from: real, openStart: bool, now: real)
    requires Within(now, from, openStart)
    ensures |InHour(times, from, openStart)| <= |Recent(times, now)|
  {
    if times != [] {
      InHourIsRecent(times[..|times| - 1], from, openStart, now);
    }
  }

  lemma PacedFront(times: seq<real>, gap: real, hourly: nat)
    requires times != [] && Paced(times, gap, hourly)
    ensures Paced(times[..|times| - 1], gap, hourly)
  {
    var front := times[..|times| - 1];
    forall k | 0 <= k < |front|
      ensures |Recent(front[..k], front[k])| < hourly
    {
      assert front[..k] == times[..k];
    }
  }

  /** The two promises of the limiter, on the whole history: submissions of one account are at least
      the gap apart, and no half-open hour holds more than the maximum. */
  lemma {:induction false} AnyHourIsBounded(times: seq<real>, gap: real, hourly: nat, from: real, openStart: bool)
    requires Paced(times, gap, hourly)
    ensures |InHour(times, from, openStart)| <= hourly
    ensures forall i, k :: 0 <= i < k < |times| ==> times[k] - times[i] >= gap
  {
    if times != [] {
      var n := |times| - 1;
      var front := times[..n];
      if Within(times[n], from, openStart) {
        InHourIsRecent(front, from, openStart, times[n]);
      } else {
        PacedFront(times, gap, hourly);
        AnyHourIsBounded(front, gap, hourly, from, openStart);
      }
    }
  }

  // ---- the retry queue ----

  datatype Item = Item(
    msig: string, actionJson: string, sig: seq<Byte>, actionType: string, attempt: nat, enqueuedAt: real)

  /** What is asked for, whichever attempt it is. */
  datatype Request = Request(msig: string, actionJson: string, sig: seq<Byte>, actionType: string)

  function RequestOf(it: Item): Request {
    Request(it.msig, it.actionJson, it.sig, it.actionType)
  }

  /** How a submission ends: the chain accepted it, or rejected it with the nonce used up, or with
      the nonce intact; or the call itself raised. */
  datatype Outcome = Success | NonceConsumed | Reverted | Raised

  datatype Fate = Succeeded | Dead | Exhausted

  /** One row per request that was ever queued: how its submissions from the queue went. */
  datatype Row = Row(request: Request, outcomes: seq<Outcome>)

  predicate Retryable(o: Outcome) {
    o == Reverted || o == Raised
  }

  /** A request is finished by a success, by a lost nonce, or when its attempts are used up. */
  function FateOf(outcomes: seq<Outcome>, maxRetries: nat): Option<Fate> {
    if outcomes != [] && outcomes[|outcomes| - 1] == Success then Some(Succeeded)
    else if outcomes != [] && outcomes[|outcomes| - 1] == NonceConsumed then Some(Dead)
    else if |outcomes| >= maxRetries then Some(Exhausted)
    else None
  }

  /** `tickets[k]` is the row of the item at place `k`. A request is in the queue, and once only,
      exactly as long as it has no fate; it is submitted at most `maxRetries` times, and never again
      after a success or a lost nonce. */
  ghost predicate Books(queue: seq<Item>, tickets: seq<nat>, rows: seq<Row>, maxRetries: nat) {
    && |tickets| == |queue|
    && (forall k :: 0 <= k < |queue| ==> Listed(queue[k], tickets[k], rows, maxRetries))
    && (forall i, k :: 0 <= i < k < |tickets| ==> tickets[i] != tickets[k])
    && (forall n :: 0 <= n < |rows| ==> Tried(rows[n].outcomes, maxRetries))
    && (forall n :: 0 <= n < |rows| ==> (FateOf(rows[n].outcomes, maxRetries).None? <==> n in tickets))
  }

  ghost predicate Listed(it: Item, ticket: nat, rows: seq<Row>, maxRetries: nat) {
    && ticket < |rows| && rows[ticket].request == RequestOf(it)
    && 1 <= it.attempt <= maxRetries && |rows[ticket].outcomes| == it.attempt - 1
  }

  predicate Tried(outcomes: seq<Outcome>, maxRetries: nat) {
    |outcomes| <= maxRetries && forall i :: 0 <= i < |outcomes| - 1 ==> Retryable(outcomes[i])
  }

  /** What a pass may take: each attempt that is left, over all items. */
  function AttemptsLeft(queue: seq<Item>, maxRetries: nat): nat {
    if queue == [] then 0
    else AttemptsLeft(queue[..|queue| - 1], maxRetries) + SatSub(maxRetries + 1, queue[|queue| - 1].attempt)
  }

  lemma {:induction false} AttemptsSplit(a: seq<Item>, b: seq<Item>, maxRetries: nat)
    ensures AttemptsLeft(a + b, maxRetries) == AttemptsLeft(a, maxRetries) + AttemptsLeft(b, maxRetries)
  {
    if b == [] {
      assert a + b == a;
    } else {
      assert (a + b)[..|a + b| - 1] == a + b[..|b| - 1];
      AttemptsSplit(a, b[..|b| - 1], maxRetries);
    }
  }

  function WithOutcome(rows: seq<Row>, ticket: nat, o: Outcome): seq<Row>
    requires ticket < |rows|
  {
    rows[ticket := rows[ticket].(outcomes := rows[ticket].outcomes + [o])]
  }

  predicate Distinct(s: seq<nat>) {
    forall i, k :: 0 <= i < k < |s| ==> s[i] != s[k]
  }

  function Without<T>(s: seq<T>, p: nat): (r: seq<T>)
    requires p < |s|
    ensures |r| == |s| - 1 && forall k :: 0 <= k < |r| ==> r[k] == s[if k < p then k else k + 1]
  {
    s[..p] + s[p + 1..]
  }

  lemma TakenOut(s: seq<nat>, p: nat)
    requires p < |s| && Distinct(s)
    ensures Distinct(Without(s, p))
    ensures forall n :: n in Without(s, p) <==> n in s && n != s[p]
  {
    var t := Without(s, p);
    forall n | n in s && n != s[p]
      ensures n in t
    {
      var k :| 0 <= k < |s| && s[k] == n;
      assert t[if k < p then k else k - 1] == n;
    }
  }

  /** The item at place `p` was submitted and is done for. */
  lemma Close(queue: seq<Item>, tickets: seq<nat>, rows: seq<Row>, maxRetries: nat, p: nat, o: Outcome)
    requires Books(queue, tickets, rows, maxRetries) && p < |queue|
    requires Retryable(o) ==> queue[p].attempt == maxRetries
    ensures Books(Without(queue, p), Without(tickets, p), WithOutcome(rows, tickets[p], o), maxRetries)
  {
    assert Listed(queue[p], tickets[p], rows, maxRetries);
    StillTried(rows[tickets[p]].outcomes, maxRetries, o);
    TakenOut(tickets, p);
    var q, t := Without(queue, p), Without(tickets, p);
    forall k | 0 <= k < |q|
      ensures Listed(q[k], t[k], WithOutcome(rows, tickets[p], o), maxRetries)
    {
      assert Listed(queue[if k < p then k else k + 1], tickets[if k < p then k else k + 1], rows, maxRetries);
    }
  }

  lemma StillTried(outcomes: seq<Outcome>, maxRetries: nat, o: Outcome)
    requires Tried(outcomes, maxRetries) && FateOf(outcomes, maxRetries).None?
    ensures Tried(outcomes + [o], maxRetries)
    ensures FateOf(outcomes + [o], maxRetries).None? <==> Retryable(o) && |outcomes| + 1 < maxRetries
  {
  }

  /** The item at place `p` was submitted and goes to the end of the queue for another attempt. */
  lemma Requeue(queue: seq<Item>, tickets: seq<nat>, rows: seq<Row>, maxRetries: nat, p: nat, o: Outcome, it: Item)
    requires Books(queue, tickets, rows, maxRetries) && p < |queue| && Retryable(o)
    requires RequestOf(it) == RequestOf(queue[p]) && it.attempt == queue[p].attempt + 1 <= maxRetries
    ensures Books(Without(queue, p) + [it], Without(tickets, p) + [tickets[p]], WithOutcome(rows, tickets[p], o),
        maxRetries)
  {
    assert Listed(queue[p], tickets[p], rows, maxRetries);
    StillTried(rows[tickets[p]].outcomes, maxRetries, o);
    TakenOut(tickets, p);
    var q, t := Without(queue, p) + [it], Without(tickets, p) + [tickets[p]];
    forall k | 0 <= k < |q|
      ensures Listed(q[k], t[k], WithOutcome(rows, tickets[p], o), maxRetries)
    {
      if k < |q| - 1 {
        assert Listed(queue[if k < p then k else k + 1], tickets[if k < p then k else k + 1], rows, maxRetries);
      }
    }
  }

  /** What is left to do, and what was set aside, when the item at place `i` is done for. */
  lemma SubmittedLast(
    still: seq<Item>, stillTickets: seq<nat>, queue: seq<Item>, tickets: seq<nat>, rows: seq<Row>, maxRetries: nat,
    i: nat, o: Outcome)
    requires i < |queue| == |tickets| && |still| == |stillTickets|
    requires Books(still + queue[i..], stillTickets + tickets[i..], rows, maxRetries)
    requires Retryable(o) ==> queue[i].attempt == maxRetries
    ensures tickets[i] < |rows|
    ensures Books(still + queue[i + 1..], stillTickets + tickets[i + 1..], WithOutcome(rows, tickets[i], o), maxRetries)
  {
    var p, all, ts := |still|, still + queue[i..], stillTickets + tickets[i..];
    assert all[p] == queue[i] && ts[p] == tickets[i];
    assert Listed(all[p], ts[p], rows, maxRetries);
    Close(all, ts, rows, maxRetries, p, o);
    assert Without(all, p) == still + queue[i + 1..] && Without(ts, p) == stillTickets + tickets[i + 1..];
  }

  /** And when it is tried again: it stands at the end of the list that is being walked. */
  lemma SubmittedAgain(
    still: seq<Item>, stillTickets: seq<nat>, queue: seq<Item>, tickets: seq<nat>, rows: seq<Row>, maxRetries: nat,
    i: nat, o: Outcome, it: Item)
    requires i < |queue| == |tickets| && |still| == |stillTickets|
    requires Books(still + queue[i..], stillTickets + tickets[i..], rows, maxRetries)
    requires Retryable(o) && RequestOf(it) == RequestOf(queue[i]) && it.attempt == queue[i].attempt + 1 <= maxRetries
    ensures tickets[i] < |rows|
    ensures Books(still + (queue + [it])[i + 1..], stillTickets + (tickets + [tickets[i]])[i + 1..],
                  WithOutcome(rows, tickets[i], o), maxRetries)
  {
    var p, all, ts := |still|, still + queue[i..], stillTickets + tickets[i..];
    assert all[p] == queue[i] && ts[p] == tickets[i];
    assert Listed(all[p], ts[p], rows, maxRetries);
    Requeue(all, ts, rows, maxRetries, p, o, it);
    assert Without(all, p) + [it] == still + (queue + [it])[i + 1..];
    assert Without(ts, p) + [ts[p]] == stillTickets + (tickets + [tickets[i]])[i + 1..];
  }

  lemma Submitted(
    still: seq<Item>, stillTickets: seq<nat>, queue: seq<Item>, tickets: seq<nat>, rows: seq<Row>, maxRetries: nat,
    i: nat, o: Outcome, added: seq<Item>)
    requires i < |queue| == |tickets| && |still| == |stillTickets|
    requires Books(still + queue[i..], stillTickets + tickets[i..], rows, maxRetries)
    requires 1 <= queue[i].attempt <= maxRetries
    requires |added| == if Retryable(o) && queue[i].attempt < maxRetries then 1 else 0
    requires added != [] ==> RequestOf(added[0]) == RequestOf(queue[i]) && added[0].attempt == queue[i].attempt + 1
    ensures tickets[i] < |rows|
    ensures var tickets' := if added == [] then tickets else tickets + [tickets[i]];
      Books(still + (queue + added)[i + 1..], stillTickets + tickets'[i + 1..], WithOutcome(rows, tickets[i], o),
          maxRetries)
    ensures AttemptsLeft((queue + added)[i + 1..], maxRetries) < AttemptsLeft(queue[i..], maxRetries)
  {
    if added == [] {
      assert queue + added == queue;
      SubmittedLast(still, stillTickets, queue, tickets, rows, maxRetries, i, o);
    } else {
      assert added == [added[0]];
      SubmittedAgain(still, stillTickets, queue, tickets, rows, maxRetries, i, o, added[0]);
    }
    UsesAttempts(queue, i, added, maxRetries);
    assert (queue + added)[i + 1..] == queue[i + 1..] + added;
  }

  /** The item at place `i` may be set aside for the next pass. */
  lemma SetAside(
    still: seq<Item>, stillTickets: seq<nat>, queue: seq<Item>, tickets: seq<nat>, rows: seq<Row>, maxRetries: nat,
    i: nat)
    requires i < |queue| == |tickets| && |still| == |stillTickets|
    requires Books(still + queue[i..], stillTickets + tickets[i..], rows, maxRetries)
    ensures tickets[i] < |rows| && tickets[i] in stillTickets + tickets[i..] && 1 <= queue[i].attempt <= maxRetries
    ensures Books(still + [queue[i]] + queue[i + 1..], stillTickets + [tickets[i]] + tickets[i + 1..], rows, maxRetries)
    ensures AttemptsLeft(queue[i + 1..], maxRetries) < AttemptsLeft(queue[i..], maxRetries)
  {
    var p, all, ts := |still|, still + queue[i..], stillTickets + tickets[i..];
    assert Listed(all[p], ts[p], rows, maxRetries) && all[p] == queue[i] && ts[p] == tickets[i];
    assert still + [queue[i]] + queue[i + 1..] == all && stillTickets + [tickets[i]] + tickets[i + 1..] == ts;
    UsesAttempts(queue, i, [], maxRetries);
    assert queue[i + 1..] + [] == queue[i + 1..];
  }

  lemma TicketOf(
    still: seq<Item>, stillTickets: seq<nat>, queue: seq<Item>, tickets: seq<nat>, rows: seq<Row>, maxRetries: nat,
    i: nat)
    requires i < |queue| == |tickets| && |still| == |stillTickets|
    requires Books(still + queue[i..], stillTickets + tickets[i..], rows, maxRetries)
    ensures tickets[i] < |rows| && rows[tickets[i]].request == RequestOf(queue[i])
  {
    var p, all, ts := |still|, still + queue[i..], stillTickets + tickets[i..];
    assert Listed(all[p], ts[p], rows, maxRetries) && all[p] == queue[i] && ts[p] == tickets[i];
  }

  /** From `before` to `after`, requests keep their row, rows only grow, finished ones not at all. */
  ghost predicate Continues(before: seq<Row>, after: seq<Row>, maxRetries: nat) {
    && |after| == |before|
    && forall n :: 0 <= n < |after| ==>
      && after[n].request == before[n].request && before[n].outcomes <= after[n].outcomes
      && (FateOf(before[n].outcomes, maxRetries).Some? ==> after[n] == before[n])
  }

  lemma UnfinishedGoOn(before: seq<Row>, after: seq<Row>, queue: seq<Item>, tickets: seq<nat>, maxRetries: nat,
      ticket: nat, o: Outcome)
    requires Continues(before, after, maxRetries) && Books(queue, tickets, after, maxRetries)
    requires ticket < |after| && ticket in tickets
    ensures Continues(before, WithOutcome(after, ticket, o), maxRetries)
  {
    assert FateOf(after[ticket].outcomes, maxRetries).None?;
  }

  lemma UsesAttempts(queue: seq<Item>, i: nat, added: seq<Item>, maxRetries: nat)
    requires i < |queue| && queue[i].attempt <= maxRetries
    requires added == [] || (|added| == 1 && added[0].attempt == queue[i].attempt + 1)
    ensures AttemptsLeft(queue[i + 1..] + added, maxRetries) < AttemptsLeft(queue[i..], maxRetries)
  {
    assert queue[i..] == [queue[i]] + queue[i + 1..];
    AttemptsSplit([queue[i]], queue[i + 1..], maxRetries);
    AttemptsSplit(queue[i + 1..], added, maxRetries);
    assert [queue[i]][..0] == [] && (added != [] ==> added[..0] == []);
  }

  /** A request is queued for the first time. */
  lemma Admit(queue: seq<Item>, tickets: seq<nat>, rows: seq<Row>, maxRetries: nat, it: Item)
    requires Books(queue, tickets, rows, maxRetries) && it.attempt == 1
    ensures maxRetries >= 1 ==> Books(queue + [it], tickets + [|rows|], rows + [Row(RequestOf(it), [])], maxRetries)
    ensures maxRetries == 0 ==> Books(queue, tickets, rows + [Row(RequestOf(it), [])], maxRetries)
  {
    assert forall k :: 0 <= k < |queue| ==> Listed(queue[k], tickets[k], rows, maxRetries);
    assert forall k :: 0 <= k < |tickets| ==> tickets[k] < |rows|;
  }

  function TimesOf(times: map<string, seq<real>>, m: string): seq<real> {
    if m in times then times[m] else []
  }

  /** The pruned lists decide like the whole history, from the last reading of the clock on. */
  ghost predicate Faithful(
    limits: map<string, real>, counts: map<string, seq<real>>, history: map<string, seq<real>>, clock: real, m: string)
  {
    var all := TimesOf(history, m);
    && (if m in limits then all != [] && limits[m] == Last(all) else all == [])
    && (all != [] ==> Last(all) <= clock)
    && (forall t: real :: t >= clock ==> Recent(TimesOf(counts, m), t) == Recent(all, t))
  }

  // ---- what a pass does ----

  /** Somewhere in the pass, on what had been submitted by then, the limiter said no. */
  ghost predicate RefusedIn(
    times: seq<real>, from: nat, gap: real, hourly: nat, time: nat -> real, turns: nat)
  {
    exists k: nat, a: nat :: from <= k <= |times| && a < turns && !Allowed(times[..k], time(a), gap, hourly)
  }

  lemma StillRefused(
    times: seq<real>, longer: seq<real>, from: nat, gap: real, hourly: nat, time: nat -> real, turns: nat, more: nat)
    requires RefusedIn(times, from, gap, hourly, time, turns) && times <= longer && turns <= more
    ensures RefusedIn(longer, from, gap, hourly, time, more)
  {
    var k: nat, a: nat :| from <= k <= |times| && a < turns && !Allowed(times[..k], time(a), gap, hourly);
    assert longer[..k] == times[..k];
  }

  lemma RefusedNow(times: seq<real>, from: nat, gap: real, hourly: nat, time: nat -> real, a: nat)
    requires from <= |times| && !Allowed(times, time(a), gap, hourly)
    ensures RefusedIn(times, from, gap, hourly, time, a + 1)
  {
    assert times[..|times|] == times;
  }

  /** A limiter that says yes goes on saying yes until something is submitted. */
  lemma AllowedLater(times: seq<real>, now: real, later: real, gap: real, hourly: nat)
    requires Allowed(times, now, gap, hourly) && now <= later
    ensures Allowed(times, later, gap, hourly)
  {
    RecentTwice(times, now, later);
  }

  /** The outcomes that came to the rows are outcomes of this pass. */
  ghost predicate FromPass(before: seq<Row>, after: seq<Row>, submit: nat -> Outcome, turns: nat) {
    && |after| == |before|
    && forall n, i :: 0 <= n < |after| && |before[n].outcomes| <= i < |after[n].outcomes| ==>
      OfPass(after[n].outcomes[i], submit, turns)
  }

  ghost predicate OfPass(o: Outcome, submit: nat -> Outcome, turns: nat) {
    exists a: nat :: a < turns && o == submit(a)
  }

  lemma OneMoreFromPass(before: seq<Row>, after: seq<Row>, submit: nat -> Outcome, ticket: nat, a: nat, more: nat)
    requires FromPass(before, after, submit, a) && ticket < |after| && a < more
    requires |before[ticket].outcomes| <= |after[ticket].outcomes|
    ensures FromPass(before, WithOutcome(after, ticket, submit(a)), submit, more)
  {
    var u := WithOutcome(after, ticket, submit(a));
    forall n, i | 0 <= n < |u| && |before[n].outcomes| <= i < |u[n].outcomes|
      ensures OfPass(u[n].outcomes[i], submit, more)
    {
      assert n != ticket || i < |after[n].outcomes| ==> OfPass(after[n].outcomes[i], submit, a);
    }
  }

  lemma LongerPass(before: seq<Row>, after: seq<Row>, submit: nat -> Outcome, turns: nat, more: nat)
    requires FromPass(before, after, submit, turns) && turns <= more
    ensures FromPass(before, after, submit, more)
  {
    forall n, i | 0 <= n < |after| && |before[n].outcomes| <= i < |after[n].outcomes|
      ensures OfPass(after[n].outcomes[i], submit, more)
    {
      assert OfPass(after[n].outcomes[i], submit, turns);
    }
  }

  /** The items walked so far: set aside, or their request gained an outcome. */
  ghost predicate Handled(
    queue: seq<Item>, tickets: seq<nat>, before: seq<Row>, still: seq<Item>, after: seq<Row>, done: nat)
  {
    forall k :: 0 <= k < |queue| && k < |tickets| && k < done ==>
      || queue[k] in still
      || (tickets[k] < |before| && tickets[k] < |after|
          && |before[tickets[k]].outcomes| < |after[tickets[k]].outcomes|)
  }

  lemma OneMoreHandled(
    queue: seq<Item>, tickets: seq<nat>, before: seq<Row>, still: seq<Item>, rows: seq<Row>,
    still': seq<Item>, rows': seq<Row>, i: nat)
    requires Handled(queue, tickets, before, still, rows, i) && still <= still' && |rows'| == |rows|
    requires forall n :: 0 <= n < |rows| ==> rows[n].outcomes <= rows'[n].outcomes
    requires i < |queue| && i < |tickets| ==>
      || still' == still + [queue[i]]
      || (tickets[i] < |before| && tickets[i] < |rows'|
          && |before[tickets[i]].outcomes| < |rows'[tickets[i]].outcomes|)
    ensures Handled(queue, tickets, before, still', rows', i + 1)
  {
  }

  function CountRecorded(outcomes: seq<Outcome>): nat {
    if outcomes == [] then 0
    else CountRecorded(outcomes[..|outcomes| - 1]) + if outcomes[|outcomes| - 1] == Raised then 0 else 1
  }

  /** The submissions from the queue, for one account, that came back with a result. */
  function Recorded(rows: seq<Row>, m: string): nat {
    if rows == [] then 0
    else
      var n := |rows| - 1;
      Recorded(rows[..n], m) + if rows[n].request.msig == m then CountRecorded(rows[n].outcomes) else 0
  }

  lemma {:induction false} OneMoreRecorded(rows: seq<Row>, ticket: nat, o: Outcome, m: string)
    requires ticket < |rows|
    ensures Recorded(WithOutcome(rows, ticket, o), m)
      == Recorded(rows, m) + if rows[ticket].request.msig == m && o != Raised then 1 else 0
  {
    var n, u := |rows| - 1, WithOutcome(rows, ticket, o);
    if ticket == n {
      assert u[..n] == rows[..n];
      assert u[n].outcomes[..|rows[n].outcomes|] == rows[n].outcomes;
    } else {
      OneMoreRecorded(rows[..n], ticket, o, m);
      assert u[..n] == WithOutcome(rows[..n], ticket, o);
    }
  }

  function Submitting(history: map<string, seq<real>>, m: string, o: Outcome, now: real): map<string, seq<real>> {
    if o == Raised then history else history[m := TimesOf(history, m) + [now]]
  }

  /** The requests left in the queue were all refused in the pass. */
  ghost predicate AllRefused(
    queue: seq<Item>, before: map<string, seq<real>>, after: map<string, seq<real>>,
    gap: real, hourly: nat, time: nat -> real, turns: nat)
  {
    forall k :: 0 <= k < |queue| ==>
      RefusedIn(TimesOf(after, queue[k].msig), |TimesOf(before, queue[k].msig)|, gap, hourly, time, turns)
  }

  /** The history only grows, by one entry per submission that came back with a result. */
  ghost predicate HistoryGrows(
    before: map<string, seq<real>>, rows: seq<Row>, after: map<string, seq<real>>, rows': seq<Row>)
  {
    forall m :: TimesOf(before, m) <= TimesOf(after, m)
      && |TimesOf(after, m)| + Recorded(rows, m) == |TimesOf(before, m)| + Recorded(rows', m)
  }

  lemma SubmittingGrows(
    before: map<string, seq<real>>, rows: seq<Row>, after: map<string, seq<real>>, rows': seq<Row>,
    ticket: nat, o: Outcome, now: real)
    requires HistoryGrows(before, rows, after, rows') && ticket < |rows'|
    ensures HistoryGrows(before, rows, Submitting(after, rows'[ticket].request.msig, o, now),
                         WithOutcome(rows', ticket, o))
  {
    var after' := Submitting(after, rows'[ticket].request.msig, o, now);
    forall m
      ensures TimesOf(before, m) <= TimesOf(after', m)
      ensures |TimesOf(after', m)| + Recorded(rows, m)
        == |TimesOf(before, m)| + Recorded(WithOutcome(rows', ticket, o), m)
    {
      assert TimesOf(before, m) <= TimesOf(after, m);
      OneMoreRecorded(rows', ticket, o, m);
    }
  }

  lemma SubmittingKeepsRefused(
    queue: seq<Item>, before: map<string, seq<real>>, after: map<string, seq<real>>,
    gap: real, hourly: nat, time: nat -> real, turns: nat, more: nat, m: string, o: Outcome, now: real)
    requires AllRefused(queue, before, after, gap, hourly, time, turns) && turns <= more
    ensures AllRefused(queue, before, Submitting(after, m, o, now), gap, hourly, time, more)
  {
    var after' := Submitting(after, m, o, now);
    forall k | 0 <= k < |queue|
      ensures RefusedIn(TimesOf(after', queue[k].msig), |TimesOf(before, queue[k].msig)|, gap, hourly, time, more)
    {
      StillRefused(TimesOf(after, queue[k].msig), TimesOf(after', queue[k].msig), |TimesOf(before, queue[k].msig)|,
                   gap, hourly, time, turns, more);
    }
  }

  lemma OneMoreRefused(
    queue: seq<Item>, before: map<string, seq<real>>, after: map<string, seq<real>>,
    gap: real, hourly: nat, time: nat -> real, a: nat, more: nat, it: Item)
    requires AllRefused(queue, before, after, gap, hourly, time, a) && a < more
    requires TimesOf(before, it.msig) <= TimesOf(after, it.msig)
    requires !Allowed(TimesOf(after, it.msig), time(a), gap, hourly)
    ensures AllRefused(queue + [it], before, after, gap, hourly, time, more)
  {
    SubmittingKeepsRefused(queue, before, after, gap, hourly, time, a, more, "", Raised, 0.0);
    RefusedNow(TimesOf(after, it.msig), |TimesOf(before, it.msig)|, gap, hourly, time, a);
    StillRefused(TimesOf(after, it.msig), TimesOf(after, it.msig), |TimesOf(before, it.msig)|,
                 gap, hourly, time, a + 1, more);
  }

  /** A pass under way: the list it walks, what it set aside, and what became of the requests. */
  datatype Walk = Walk(
    queue: seq<Item>, tickets: seq<nat>, still: seq<Item>, stillTickets: seq<nat>, rows: seq<Row>,
    history: map<string, seq<real>>)

  /** The limiter, the clock and the chain, as a pass meets them. */
  datatype Setting = Setting(
    maxRetries: nat, gap: real, hourly: nat, submit: nat -> Outcome, time: nat -> real)

  function Again(it: Item, o: Outcome, now: real, maxRetries: nat): seq<Item> {
    if Retryable(o) && it.attempt < maxRetries then [it.(attempt := it.attempt + 1, enqueuedAt := now)] else []
  }

  /** One turn: the item at place `i` is set aside because the limiter refuses it, or submitted and, if it
      may be tried again, appended to the list that is being walked. */
  function TurnOf(b: Walk, i: nat, o: Outcome, checkedAt: real, now: real, maxRetries: nat, gap: real,
      hourly: nat): Walk
    requires i < |b.queue| && i < |b.tickets|
  {
    var it, ticket := b.queue[i], b.tickets[i];
    if !Allowed(TimesOf(b.history, it.msig), checkedAt, gap, hourly) then
      b.(still := b.still + [it], stillTickets := b.stillTickets + [ticket])
    else
      var again := Again(it, o, now, maxRetries);
      b.(queue := b.queue + again, tickets := if again == [] then b.tickets else b.tickets + [ticket],
         rows := if ticket < |b.rows| then WithOutcome(b.rows, ticket, o) else b.rows,
         history := Submitting(b.history, it.msig, o, now))
  }

  lemma TurnIs(b: Walk, i: nat, o: Outcome, checkedAt: real, now: real, maxRetries: nat, gap: real, hourly: nat)
    requires i < |b.queue| && i < |b.tickets| && b.tickets[i] < |b.rows|
    ensures var it, ticket := b.queue[i], b.tickets[i];
      var again := Again(it, o, now, maxRetries);
      TurnOf(b, i, o, checkedAt, now, maxRetries, gap, hourly)
        == if Allowed(TimesOf(b.history, it.msig), checkedAt, gap, hourly)
           then Walk(b.queue + again, if again == [] then b.tickets else b.tickets + [ticket], b.still, b.stillTickets,
                     WithOutcome(b.rows, ticket, o), Submitting(b.history, it.msig, o, now))
           else Walk(b.queue, b.tickets, b.still + [it], b.stillTickets + [ticket], b.rows, b.history)
  {
  }

  /** Upper bound on the turns to come. */
  function Effort(queue: seq<Item>, maxRetries: nat): nat {
    if queue == [] then 0
    else Effort(queue[..|queue| - 1], maxRetries) + 1 + SatSub(maxRetries + 1, queue[|queue| - 1].attempt)
  }

  lemma {:induction false} EffortSplit(a: seq<Item>, b: seq<Item>, maxRetries: nat)
    ensures Effort(a + b, maxRetries) == Effort(a, maxRetries) + Effort(b, maxRetries)
  {
    if b == [] {
      assert a + b == a;
    } else {
      assert (a + b)[..|a + b| - 1] == a + b[..|b| - 1];
      EffortSplit(a, b[..|b| - 1], maxRetries);
    }
  }

  lemma EffortFalls(queue: seq<Item>, i: nat, o: Outcome, now: real, maxRetries: nat)
    requires i < |queue|
    ensures Effort((queue + Again(queue[i], o, now, maxRetries))[i + 1..], maxRetries) < Effort(queue[i..], maxRetries)
    ensures Effort(queue[i + 1..], maxRetries) < Effort(queue[i..], maxRetries)
  {
    var again := Again(queue[i], o, now, maxRetries);
    assert queue[i..] == [queue[i]] + queue[i + 1..] && (queue + again)[i + 1..] == queue[i + 1..] + again;
    EffortSplit([queue[i]], queue[i + 1..], maxRetries);
    EffortSplit(queue[i + 1..], again, maxRetries);
    assert [queue[i]][..0] == [] && (again != [] ==> again[..0] == []);
  }

  function NextTurn(b: Walk, i: nat, n: nat, s: Setting): Walk
    requires i < |b.queue| && i < |b.tickets|
  {
    TurnOf(b, i, s.submit(n), s.time(n), s.time(n + 1), s.maxRetries, s.gap, s.hourly)
  }

  /** The rest of a pass, from place `i` on. It reads the clock and submits in turn. */
  function PassFrom(b: Walk, i: nat, n: nat, s: Setting): (Walk, nat)
    decreases Effort(if i < |b.queue| then b.queue[i..] else [], s.maxRetries)
  {
    if i >= |b.queue| || i >= |b.tickets| then (b, n)
    else
      EffortFalls(b.queue, i, s.submit(n), s.time(n + 1), s.maxRetries);
      PassFrom(NextTurn(b, i, n, s), i + 1, n + 2, s)
  }

  /** What a pass has done so far: no request was lost or doubled and finished ones are left alone; every
      item it walked was handled, every item it set aside was refused, every outcome is one of its own,
      and every result it got is recorded. */
  ghost predicate Progress(a: Walk, b: Walk, i: nat, n: nat, s: Setting) {
    && i <= |b.queue| == |b.tickets| && |b.still| == |b.stillTickets| && |a.queue| == |a.tickets|
    && Books(b.still + b.queue[i..], b.stillTickets + b.tickets[i..], b.rows, s.maxRetries)
    && Continues(a.rows, b.rows, s.maxRetries) && FromPass(a.rows, b.rows, s.submit, n)
    && a.queue <= b.queue && a.tickets <= b.tickets
    && Handled(a.queue, a.tickets, a.rows, b.still, b.rows, i)
    && AllRefused(b.still, a.history, b.history, s.gap, s.hourly, s.time, n)
    && HistoryGrows(a.history, a.rows, b.history, b.rows)
    && ((forall k: nat :: s.submit(k) == Raised) ==> b.history == a.history)
  }

  lemma RefusedTurn(a: Walk, b: Walk, i: nat, n: nat, s: Setting)
    requires Progress(a, b, i, n, s) && i < |b.queue|
    requires !Allowed(TimesOf(b.history, b.queue[i].msig), s.time(n), s.gap, s.hourly)
    ensures Progress(a, b.(still := b.still + [b.queue[i]], stillTickets := b.stillTickets + [b.tickets[i]]),
                     i + 1, n + 2, s)
  {
    var it := b.queue[i];
    SetAside(b.still, b.stillTickets, b.queue, b.tickets, b.rows, s.maxRetries, i);
    OneMoreHandled(a.queue, a.tickets, a.rows, b.still, b.rows, b.still + [it], b.rows, i);
    LongerPass(a.rows, b.rows, s.submit, n, n + 2);
    OneMoreRefused(b.still, a.history, b.history, s.gap, s.hourly, s.time, n, n + 2, it);
  }

  /** The books after a submission. */
  lemma SubmittedKeepsBooks(a: Walk, b: Walk, i: nat, n: nat, s: Setting)
    requires Progress(a, b, i, n, s) && i < |b.queue|
    ensures b.tickets[i] < |b.rows| && b.rows[b.tickets[i]].request == RequestOf(b.queue[i])
    ensures var it, ticket, o := b.queue[i], b.tickets[i], s.submit(n);
      var again := Again(it, o, s.time(n + 1), s.maxRetries);
      var tickets := if again == [] then b.tickets else b.tickets + [ticket];
      && Books(b.still + (b.queue + again)[i + 1..], b.stillTickets + tickets[i + 1..],
               WithOutcome(b.rows, ticket, o), s.maxRetries)
      && Continues(a.rows, WithOutcome(b.rows, ticket, o), s.maxRetries)
  {
    var ticket, o := b.tickets[i], s.submit(n);
    var again := Again(b.queue[i], o, s.time(n + 1), s.maxRetries);
    SetAside(b.still, b.stillTickets, b.queue, b.tickets, b.rows, s.maxRetries, i);
    TicketOf(b.still, b.stillTickets, b.queue, b.tickets, b.rows, s.maxRetries, i);
    Submitted(b.still, b.stillTickets, b.queue, b.tickets, b.rows, s.maxRetries, i, o, again);
    UnfinishedGoOn(a.rows, b.rows, b.still + b.queue[i..], b.stillTickets + b.tickets[i..], s.maxRetries, ticket, o);
  }

  lemma SubmittedTurn(a: Walk, b: Walk, i: nat, n: nat, s: Setting)
    requires Progress(a, b, i, n, s) && i < |b.queue|
    ensures b.tickets[i] < |b.rows|
    ensures var it, ticket, o := b.queue[i], b.tickets[i], s.submit(n);
      var again := Again(it, o, s.time(n + 1), s.maxRetries);
      Progress(a, b.(queue := b.queue + again, tickets := if again == [] then b.tickets else b.tickets + [ticket],
                     rows := WithOutcome(b.rows, ticket, o),
                     history := Submitting(b.history, it.msig, o, s.time(n + 1))),
               i + 1, n + 2, s)
  {
    hide Books, AllRefused, HistoryGrows, FromPass, Handled, Allowed;
    var it, ticket, o := b.queue[i], b.tickets[i], s.submit(n);
    SubmittedKeepsBooks(a, b, i, n, s);
    OneMoreHandled(a.queue, a.tickets, a.rows, b.still, b.rows, b.still, WithOutcome(b.rows, ticket, o), i);
    OneMoreFromPass(a.rows, b.rows, s.submit, ticket, n, n + 2);
    SubmittingGrows(a.history, a.rows, b.history, b.rows, ticket, o, s.time(n + 1));
    SubmittingKeepsRefused(b.still, a.history, b.history, s.gap, s.hourly, s.time, n, n + 2, it.msig, o, s.time(n + 1));
  }

  lemma TurnMakesProgress(a: Walk, b: Walk, i: nat, n: nat, s: Setting)
    requires Progress(a, b, i, n, s) && i < |b.queue|
    ensures Progress(a, NextTurn(b, i, n, s), i + 1, n + 2, s)
  {
    if Allowed(TimesOf(b.history, b.queue[i].msig), s.time(n), s.gap, s.hourly) {
      SubmittedTurn(a, b, i, n, s);
    } else {
      RefusedTurn(a, b, i, n, s);
    }
  }

  lemma PassGoesOn(b: Walk, i: nat, n: nat, s: Setting)
    requires i < |b.queue| == |b.tickets|
    ensures PassFrom(b, i, n, s) == PassFrom(NextTurn(b, i, n, s), i + 1, n + 2, s)
    ensures i + 1 <= |NextTurn(b, i, n, s).queue|
      && Effort(NextTurn(b, i, n, s).queue[i + 1..], s.maxRetries) < Effort(b.queue[i..], s.maxRetries)
  {
    EffortFalls(b.queue, i, s.submit(n), s.time(n + 1), s.maxRetries);
  }

  lemma {:induction false} PassMakesProgress(a: Walk, b: Walk, i: nat, n: nat, s: Setting)
    requires Progress(a, b, i, n, s)
    ensures var (c, m) := PassFrom(b, i, n, s); Progress(a, c, |c.queue|, m, s)
    decreases Effort(b.queue[i..], s.maxRetries)
  {
    if i < |b.queue| {
      PassGoesOn(b, i, n, s);
      TurnMakesProgress(a, b, i, n, s);
      PassMakesProgress(a, NextTurn(b, i, n, s), i + 1, n + 2, s);
    }
  }

  /** A whole pass, in the terms of its contract. */
  lemma PassIsSound(a: Walk, b: Walk, turns: nat, s: Setting)
    requires a.still == [] && a.stillTickets == [] && |a.queue| == |a.tickets|
    requires Books(a.queue, a.tickets, a.rows, s.maxRetries) && PassFrom(a, 0, 0, s) == (b, turns)
    ensures Books(b.still, b.stillTickets, b.rows, s.maxRetries)
    ensures Continues(a.rows, b.rows, s.maxRetries) && FromPass(a.rows, b.rows, s.submit, turns)
    ensures Handled(a.queue, a.tickets, a.rows, b.still, b.rows, |a.queue|)
    ensures AllRefused(b.still, a.history, b.history, s.gap, s.hourly, s.time, turns)
    ensures HistoryGrows(a.history, a.rows, b.history, b.rows)
    ensures (forall k: nat :: s.submit(k) == Raised) ==> b.history == a.history
  {
    assert [] + a.queue[0..] == a.queue && [] + a.tickets[0..] == a.tickets;
    PassMakesProgress(a, a, 0, 0, s);
    assert b.still + b.queue[|b.queue|..] == b.still && b.stillTickets + b.tickets[|b.queue|..] == b.stillTickets;
  }

  lemma AllowedUsesUp(
    queue: seq<Item>, tickets: seq<nat>, before: seq<Row>, after: seq<Row>, history: map<string, seq<real>>,
    maxRetries: nat, gap: real, hourly: nat, submit: nat -> Outcome, time: nat -> real, turns: nat, n: nat)
    requires Books(queue, tickets, after, maxRetries) && Continues(before, after, maxRetries) && n < |after|
    requires FromPass(before, after, submit, turns) && AllRefused(queue, history, history, gap, hourly, time, turns)
    requires (forall a: nat :: submit(a) == Raised) && forall a: nat, b: nat :: a <= b ==> time(a) <= time(b)
    requires FateOf(before[n].outcomes, maxRetries).None?
    requires Allowed(TimesOf(history, after[n].request.msig), time(0), gap, hourly)
    ensures FateOf(after[n].outcomes, maxRetries) == Some(Exhausted) && |after[n].outcomes| == maxRetries
    ensures forall i :: |before[n].outcomes| <= i < maxRetries ==> after[n].outcomes[i] == Raised
  {
    var m := after[n].request.msig;
    if n in tickets {
      var k :| 0 <= k < |tickets| && tickets[k] == n;
      assert Listed(queue[k], tickets[k], after, maxRetries);
      var c: nat, a: nat :| |TimesOf(history, m)| <= c <= |TimesOf(history, m)| && a < turns
        && !Allowed(TimesOf(history, m)[..c], time(a), gap, hourly);
      assert TimesOf(history, m)[..c] == TimesOf(history, m);
      AllowedLater(TimesOf(history, m), time(0), time(a), gap, hourly);
      assert false;
    }
    forall i | |before[n].outcomes| <= i < |after[n].outcomes|
      ensures after[n].outcomes[i] == Raised
    {
      assert OfPass(after[n].outcomes[i], submit, turns);
    }
    assert Tried(after[n].outcomes, maxRetries);
    assert before[n].outcomes <= after[n].outcomes;
  }

  /** The unfinished requests whose account the limiter allowed at the start have used up all their
      attempts, and every call raised. */
  ghost predicate UsedUp(before: seq<Row>, after: seq<Row>, history: map<string, seq<real>>, s: Setting) {
    && |after| == |before|
    && forall n :: 0 <= n < |after| && FateOf(before[n].outcomes, s.maxRetries).None?
                   && Allowed(TimesOf(history, after[n].request.msig), s.time(0), s.gap, s.hourly) ==>
      && FateOf(after[n].outcomes, s.maxRetries) == Some(Exhausted) && |after[n].outcomes| == s.maxRetries
      && forall i :: |before[n].outcomes| <= i < s.maxRetries ==> after[n].outcomes[i] == Raised
  }

  /** With every call raising, nothing is recorded, so the limiter never steps in: a request whose account
      it allows at the start uses up all its attempts in this one pass. */
  lemma RaisingUsesUp(a: Walk, b: Walk, turns: nat, s: Setting)
    requires a.still == [] && a.stillTickets == [] && |a.queue| == |a.tickets|
    requires Books(a.queue, a.tickets, a.rows, s.maxRetries) && PassFrom(a, 0, 0, s) == (b, turns)
    requires (forall k: nat :: s.submit(k) == Raised) && forall k: nat, n: nat :: k <= n ==> s.time(k) <= s.time(n)
    ensures UsedUp(a.rows, b.rows, a.history, s)
  {
    PassIsSound(a, b, turns, s);
    forall n | 0 <= n < |b.rows| && FateOf(a.rows[n].outcomes, s.maxRetries).None?
               && Allowed(TimesOf(a.history, b.rows[n].request.msig), s.time(0), s.gap, s.hourly)
      ensures FateOf(b.rows[n].outcomes, s.maxRetries) == Some(Exhausted) && |b.rows[n].outcomes| == s.maxRetries
      ensures forall i :: |a.rows[n].outcomes| <= i < s.maxRetries ==> b.rows[n].outcomes[i] == Raised
    {
      AllowedUsesUp(b.still, b.stillTickets, a.rows, b.rows, a.history, s.maxRetries, s.gap, s.hourly,
                    s.submit, s.time, turns, n);
    }
  }

  lemma RaisingPass(a: Walk, b: Walk, turns: nat, s: Setting)
    requires a.still == [] && a.stillTickets == [] && |a.queue| == |a.tickets|
    requires Books(a.queue, a.tickets, a.rows, s.maxRetries) && PassFrom(a, 0, 0, s) == (b, turns)
    requires forall k: nat, n: nat :: k <= n ==> s.time(k) <= s.time(n)
    ensures (forall k: nat :: s.submit(k) == Raised) ==> b.history == a.history && UsedUp(a.rows, b.rows, a.history, s)
  {
    if forall k: nat :: s.submit(k) == Raised {
      PassIsSound(a, b, turns, s);
      RaisingUsesUp(a, b, turns, s);
    }
  }

  class NostrRelayer {
    const maxRetries: nat
    const rateLimitSeconds: real
    const rateLimitHourlyMax: nat
    var retryQueue: seq<Item>
    var rateLimits: map<string, real>
    var rateLimitCounts: map<string, seq<real>>

    ghost var clock: real
    ghost var history: map<string, seq<real>>
    ghost var tickets: seq<nat>
    ghost var rows: seq<Row>

    ghost predicate RatesValid()
      reads this
    {
      && (forall m :: Faithful(rateLimits, rateLimitCounts, history, clock, m))
      && (forall m :: m in history ==> Paced(history[m], rateLimitSeconds, rateLimitHourlyMax))
    }

    ghost predicate Valid()
      reads this
    {
      RatesValid() && Books(retryQueue, tickets, rows, maxRetries)
    }

    /** The relayer in the middle of a pass. */
    ghost function Walking(still: seq<Item>, stillTickets: seq<nat>): Walk
      reads this
    {
      Walk(retryQueue, tickets, still, stillTickets, rows, history)
    }

    constructor (maxRetries: nat, rateLimitSeconds: real, rateLimitHourlyMax: nat)
      ensures Valid() && retryQueue == [] && rows == [] && history == map[]
      ensures this.maxRetries == maxRetries
    {
      this.maxRetries := maxRetries;
      this.rateLimitSeconds, this.rateLimitHourlyMax := rateLimitSeconds, rateLimitHourlyMax;
      retryQueue, rateLimits, rateLimitCounts := [], map[], map[];
      clock, history, tickets, rows := 0.0, map[], [], [];
    }

    /** Prunes the list first, yet decides as the full history would. */
    method CheckRateLimit(m: string, now: real) returns (allowed: bool)
      requires RatesValid() && clock <= now
      modifies this`rateLimitCounts, this`clock
      ensures RatesValid() && clock == now
      ensures allowed <==> Allowed(TimesOf(history, m), now, rateLimitSeconds, rateLimitHourlyMax)
    {
      assert Faithful(rateLimits, rateLimitCounts, history, clock, m);
      ghost var all := TimesOf(history, m);
      ghost var before := rateLimitCounts;
      clock := now;
      var lastSubmit := if m in rateLimits then rateLimits[m] else 0.0;
      if now - lastSubmit < rateLimitSeconds {
        assert forall k :: Faithful(rateLimits, before, history, old(clock), k) ==>
                           Faithful(rateLimits, before, history, clock, k);
        return false;
      }
      var timestamps := TimesOf(rateLimitCounts, m);
      var pruned := Recent(timestamps, now);
      rateLimitCounts := rateLimitCounts[m := pruned];
      PruningIsFaithful(rateLimits, before, history, old(clock), m, now);
      return |pruned| < rateLimitHourlyMax;
    }

    /** Called only where a check has just said yes; `checkedAt` is when. */
    method RecordRateLimit(m: string, now: real, ghost checkedAt: real)
      requires RatesValid() && clock <= checkedAt <= now
      requires Allowed(TimesOf(history, m), checkedAt, rateLimitSeconds, rateLimitHourlyMax)
      modifies this`rateLimits, this`rateLimitCounts, this`clock, this`history
      ensures RatesValid() && clock == now
      ensures history == old(history)[m := TimesOf(old(history), m) + [now]]
    {
      assert Faithful(rateLimits, rateLimitCounts, history, clock, m);
      ghost var all := TimesOf(history, m);
      PacedAppend(all, rateLimitSeconds, rateLimitHourlyMax, checkedAt, now);
      RecordingIsFaithful(rateLimits, rateLimitCounts, history, clock, m, now);
      rateLimits := rateLimits[m := now];
      rateLimitCounts := rateLimitCounts[m := TimesOf(rateLimitCounts, m) + [now]];
      history := history[m := all + [now]];
      clock := now;
    }

    method EnqueueRetry(request: Request, attempt: nat, now: real)
      modifies this`retryQueue
      ensures retryQueue == old(retryQueue)
        + if attempt > maxRetries then []
          else [Item(request.msig, request.actionJson, request.sig, request.actionType, attempt, now)]
    {
      if attempt > maxRetries {
        return;
      }
      retryQueue := retryQueue
        + [Item(request.msig, request.actionJson, request.sig, request.actionType, attempt, now)];
    }

    /** A new signed action: submitted at once if the limiter allows it, queued when that is not
        possible or did not work out. */
    method SubmitOrQueue(request: Request, checkedAt: real, now: real, outcome: Outcome)
      requires Valid() && clock <= checkedAt <= now
      modifies this
      ensures Valid() && clock == now
      ensures var yes := Allowed(TimesOf(old(history), request.msig), checkedAt, rateLimitSeconds, rateLimitHourlyMax);
        && history == (if yes && outcome != Raised
                       then old(history)[request.msig := TimesOf(old(history), request.msig) + [now]] else old(history))
        && rows == (if yes && !Retryable(outcome) then old(rows) else old(rows) + [Row(request, [])])
    {
      var allowed := CheckRateLimit(request.msig, checkedAt);
      if allowed && outcome != Raised {
        RecordRateLimit(request.msig, now, checkedAt);
        if !Retryable(outcome) {
          return;
        }
      } else {
        TimePasses(now);
      }
      ghost var it := Item(request.msig, request.actionJson, request.sig, request.actionType, 1, now);
      Admit(retryQueue, tickets, rows, maxRetries, it);
      EnqueueRetry(request, 1, now);
      tickets := if maxRetries >= 1 then tickets + [|rows|] else tickets;
      rows := rows + [Row(request, [])];
    }

    ghost method TimePasses(now: real)
      requires RatesValid() && clock <= now
      modifies this`clock
      ensures RatesValid() && clock == now
    {
      assert forall m :: Faithful(rateLimits, rateLimitCounts, history, clock, m) ==>
                         Faithful(rateLimits, rateLimitCounts, history, now, m);
      clock := now;
    }

    /** The item was submitted: record it unless the call raised, and queue it again if it may be
        tried again. */
    method Resubmitted(item: Item, checkedAt: real, now: real, outcome: Outcome) returns (ghost added: seq<Item>)
      requires RatesValid() && clock == checkedAt <= now
      requires Allowed(TimesOf(history, item.msig), checkedAt, rateLimitSeconds, rateLimitHourlyMax)
      modifies this`rateLimits, this`rateLimitCounts, this`clock, this`history, this`retryQueue
      ensures RatesValid() && clock <= now
      ensures history == Submitting(old(history), item.msig, outcome, now)
      ensures retryQueue == old(retryQueue) + added && added == Again(item, outcome, now, maxRetries)
    {
      if outcome != Raised {
        RecordRateLimit(item.msig, now, checkedAt);
      }
      added := [];
      if Retryable(outcome) {
        EnqueueRetry(RequestOf(item), item.attempt + 1, now);
        added := retryQueue[|old(retryQueue)|..];
      }
    }

    /** One turn of the pass. */
    method RetryOne(still: seq<Item>, ghost stillTickets: seq<nat>, i: nat, outcome: Outcome, checkedAt: real,
        now: real)
      returns (still': seq<Item>, ghost stillTickets': seq<nat>)
      requires RatesValid() && clock <= checkedAt <= now
      requires i < |retryQueue| == |tickets| && |still| == |stillTickets|
      requires Books(still + retryQueue[i..], stillTickets + tickets[i..], rows, maxRetries)
      modifies this
      ensures RatesValid() && clock <= now
      ensures i < |retryQueue| == |tickets| && |still'| == |stillTickets'|
      ensures Books(still' + retryQueue[i + 1..], stillTickets' + tickets[i + 1..], rows, maxRetries)
      ensures AttemptsLeft(retryQueue[i + 1..], maxRetries) < AttemptsLeft(old(retryQueue)[i..], maxRetries)
      ensures Walking(still', stillTickets')
        == TurnOf(old(Walking(still, stillTickets)), i, outcome, checkedAt, now,
                  maxRetries, rateLimitSeconds, rateLimitHourlyMax)
    {
      var item := retryQueue[i];
      ghost var queue, ts := retryQueue, tickets;
      SetAside(still, stillTickets, queue, ts, rows, maxRetries, i);
      TurnIs(Walking(still, stillTickets), i, outcome, checkedAt, now, maxRetries, rateLimitSeconds,
          rateLimitHourlyMax);
      var allowed := CheckRateLimit(item.msig, checkedAt);
      if !allowed {
        return still + [item], stillTickets + [ts[i]];
      }
      ghost var added := Resubmitted(item, checkedAt, now, outcome);
      Submitted(still, stillTickets, queue, ts, rows, maxRetries, i, outcome, added);
      tickets := if added == [] then ts else ts + [ts[i]];
      rows := WithOutcome(rows, ts[i], outcome);
      return still, stillTickets;
    }

    /** The walk over the queue, which grows meanwhile: a failed item is appended to the very list. Still
        it ends, because every step uses up an attempt or sets an item aside. */
    method RetryEach(submit: nat -> Outcome, time: nat -> real)
      returns (still: seq<Item>, ghost stillTickets: seq<nat>, ghost turns: nat)
      requires Valid() && clock <= time(0) && forall a: nat, b: nat :: a <= b ==> time(a) <= time(b)
      modifies this
      ensures RatesValid() && Books(still, stillTickets, rows, maxRetries)
      ensures PassFrom(old(Walking([], [])), 0, 0,
                       Setting(maxRetries, rateLimitSeconds, rateLimitHourlyMax, submit, time))
        == (Walking(still, stillTickets), turns)
    {
      ghost var s := Setting(maxRetries, rateLimitSeconds, rateLimitHourlyMax, submit, time);
      still, stillTickets := [], [];
      var i, n: nat := 0, 0;
      while i < |retryQueue|
        invariant 0 <= i <= |retryQueue| == |tickets|
        invariant RatesValid() && clock <= time(n)
        invariant |still| == |stillTickets|
        invariant Books(still + retryQueue[i..], stillTickets + tickets[i..], rows, maxRetries)
        invariant PassFrom(Walking(still, stillTickets), i, n, s) == PassFrom(old(Walking([], [])), 0, 0, s)
        decreases AttemptsLeft(retryQueue[i..], maxRetries)
      {
        PassGoesOn(Walking(still, stillTickets), i, n, s);
        still, stillTickets := RetryOne(still, stillTickets, i, submit(n), time(n), time(n + 1));
        i, n := i + 1, n + 2;
      }
      assert still + retryQueue[i..] == still && stillTickets + tickets[i..] == stillTickets;
      turns := n;
    }

    /** One pass. No request is lost or doubled, and every item has its turn: what is left was refused by
        the limiter during the pass, everything else was submitted; and what came back with a result, and
        nothing else, counts for the limiter. */
    method RetryPass(submit: nat -> Outcome, time: nat -> real) returns (ghost turns: nat)
      requires Valid() && clock <= time(0) && forall a: nat, b: nat :: a <= b ==> time(a) <= time(b)
      modifies this
      ensures Valid()
      ensures Continues(old(rows), rows, maxRetries) && FromPass(old(rows), rows, submit, turns)
      ensures Handled(old(retryQueue), old(tickets), old(rows), retryQueue, rows, |old(retryQueue)|)
      ensures AllRefused(retryQueue, old(history), history, rateLimitSeconds, rateLimitHourlyMax, time, turns)
      ensures HistoryGrows(old(history), old(rows), history, rows)
      ensures (forall a: nat :: submit(a) == Raised) ==>
        && history == old(history)
        && UsedUp(old(rows), rows, history, Setting(maxRetries, rateLimitSeconds, rateLimitHourlyMax, submit, time))
    {
      ghost var s := Setting(maxRetries, rateLimitSeconds, rateLimitHourlyMax, submit, time);
      ghost var start := Walking([], []);
      var stillQueued;
      ghost var stillTickets;
      stillQueued, stillTickets, turns := RetryEach(submit, time);
      PassIsSound(start, Walking(stillQueued, stillTickets), turns, s);
      RaisingPass(start, Walking(stillQueued, stillTickets), turns, s);
      retryQueue, tickets := stillQueued, stillTickets;
    }
  }

  /** Every request ever queued is in the queue exactly once or has exactly one fate, never both; it
      was submitted at most `maxRetries` times, the last time only with success or a lost nonce. */
  lemma NothingIsLost(r: NostrRelayer, n: nat)
    requires r.Valid() && n < |r.rows|
    ensures var row := r.rows[n];
      && |row.outcomes| <= r.maxRetries
      && (forall i :: 0 <= i < |row.outcomes| - 1 ==> Retryable(row.outcomes[i]))
      && (FateOf(row.outcomes, r.maxRetries).Some? ==> n !in r.tickets)
      && (FateOf(row.outcomes, r.maxRetries).None? ==>
            exists k :: 0 <= k < |r.retryQueue| && r.tickets[k] == n && RequestOf(r.retryQueue[k]) == row.request
                        && forall i :: 0 <= i < |r.tickets| && r.tickets[i] == n ==> i == k)
  {
    if FateOf(r.rows[n].outcomes, r.maxRetries).None? {
      var k :| 0 <= k < |r.tickets| && r.tickets[k] == n;
      assert Listed(r.retryQueue[k], r.tickets[k], r.rows, r.maxRetries);
      assert forall i :: 0 <= i < |r.tickets| && r.tickets[i] == n ==> i == k;
    }
  }

  lemma PruningIsFaithful(
    limits: map<string, real>, counts: map<string, seq<real>>, history: map<string, seq<real>>, clock: real,
    m: string, now: real)
    requires clock <= now && forall k :: Faithful(limits, counts, history, clock, k)
    ensures var pruned := counts[m := Recent(TimesOf(counts, m), now)];
      forall k :: Faithful(limits, pruned, history, now, k)
    ensures Recent(TimesOf(counts, m), now) == Recent(TimesOf(history, m), now)
  {
    var pruned := counts[m := Recent(TimesOf(counts, m), now)];
    forall k
      ensures Faithful(limits, pruned, history, now, k)
    {
      assert Faithful(limits, counts, history, clock, k);
      forall t: real | t >= now
        ensures Recent(TimesOf(pruned, k), t) == Recent(TimesOf(history, k), t)
      {
        RecentTwice(TimesOf(counts, m), now, t);
      }
    }
    assert Faithful(limits, counts, history, clock, m);
  }

  lemma RecordingIsFaithful(
    limits: map<string, real>, counts: map<string, seq<real>>, history: map<string, seq<real>>, clock: real,
    m: string, now: real)
    requires clock <= now && forall k :: Faithful(limits, counts, history, clock, k)
    ensures var limits', counts' := limits[m := now], counts[m := TimesOf(counts, m) + [now]];
      var history' := history[m := TimesOf(history, m) + [now]];
      forall k :: Faithful(limits', counts', history', now, k)
  {
    var limits', counts' := limits[m := now], counts[m := TimesOf(counts, m) + [now]];
    var history' := history[m := TimesOf(history, m) + [now]];
    forall k
      ensures Faithful(limits', counts', history', now, k)
    {
      assert Faithful(limits, counts, history, clock, k);
      if k == m {
        RecordedIsFaithful(limits, counts, history, clock, m, now);
      }
    }
  }

  lemma RecordedIsFaithful(
    limits: map<string, real>, counts: map<string, seq<real>>, history: map<string, seq<real>>, clock: real,
    m: string, now: real)
    requires clock <= now && Faithful(limits, counts, history, clock, m)
    ensures Faithful(limits[m := now], counts[m := TimesOf(counts, m) + [now]],
                     history[m := TimesOf(history, m) + [now]], now, m)
  {
    forall t: real | t >= now
      ensures Recent(TimesOf(counts, m) + [now], t) == Recent(TimesOf(history, m) + [now], t)
    {
      RecentAppend(TimesOf(counts, m), now, t);
      RecentAppend(TimesOf(history, m), now, t);
    }
  }
}

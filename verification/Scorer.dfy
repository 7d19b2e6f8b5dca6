/** Scoring by several independent passes: the median decides. */
module Scorer {
  import opened Basics

  /** How one scoring pass ends: a number the model gave, or an exception. */
  datatype Outcome = Reply(score: int, reasoning: string) | Failure(error: string)

  datatype Pass = Pass(score: int, reasoning: string)

  datatype Report = Report(score: int, passed: bool, reasoning: string, passes: seq<Pass>)

  function Clamp(x: int): (r: int)
    ensures 0 <= r <= 100 && (0 <= x <= 100 ==> r == x)
  {
    if x < 0 then 0 else if x > 100 then 100 else x
  }

  function PassOf(o: Outcome): Pass {
    match o
    case Reply(score, reasoning) => Pass(Clamp(score), reasoning)
    case Failure(error) => Pass(0, "Error: " + error)
  }

  function ScoresOf(passes: seq<Pass>): (r: seq<int>)
    ensures |r| == |passes| && forall i :: 0 <= i < |r| ==> r[i] == passes[i].score
  {
    seq(|passes|, i requires 0 <= i < |passes| => passes[i].score)
  }

  predicate Ascending(s: seq<int>) {
    forall i, k :: 0 <= i < k < |s| ==> s[i] <= s[k]
  }

  function Insert(x: int, s: seq<int>): (r: seq<int>)
    requires Ascending(s)
    ensures Ascending(r) && multiset(r) == multiset{x} + multiset(s)
    ensures |r| == |s| + 1 && r[0] == if s == [] || x <= s[0] then x else s[0]
  {
    if s == [] || x <= s[0] then [x] + s
    else
      assert s == [s[0]] + s[1..];
      [s[0]] + Insert(x, s[1..])
  }

  /** The list's own `sort`, known by what it does. */
  function Sort(s: seq<int>): (r: seq<int>)
    ensures Ascending(r) && multiset(r) == multiset(s) && |r| == |s|
  {
    if s == [] then []
    else
      assert s == [s[0]] + s[1..];
      Insert(s[0], Sort(s[1..]))
  }

  function CountAtLeast(s: seq<int>, t: int): (n: nat)
    ensures n <= |s|
  {
    if s == [] then 0 else (if s[0] >= t then 1 else 0) + CountAtLeast(s[1..], t)
  }

  lemma {:induction false} CountInsert(x: int, s: seq<int>, t: int)
    requires Ascending(s)
    ensures CountAtLeast(Insert(x, s), t) == CountAtLeast(s, t) + if x >= t then 1 else 0
  {
    var r := Insert(x, s);
    if s == [] || x <= s[0] {
      assert r[1..] == s;
    } else {
      CountInsert(x, s[1..], t);
      assert r[1..] == Insert(x, s[1..]);
    }
  }

  lemma {:induction false} CountSort(s: seq<int>, t: int)
    ensures CountAtLeast(Sort(s), t) == CountAtLeast(s, t)
  {
    if s != [] {
      CountSort(s[1..], t);
      CountInsert(s[0], Sort(s[1..]), t);
    }
  }

  /** In ascending order, the entry at `k` reaches a bound just when enough entries do. */
  lemma {:induction false} CountDecides(s: seq<int>, k: nat, t: int)
    requires Ascending(s) && k < |s|
    ensures s[k] >= t <==> CountAtLeast(s, t) >= |s| - k
  {
    if s[0] >= t {
      AllCount(s, t);
    } else if k > 0 {
      CountDecides(s[1..], k - 1, t);
    }
  }

  lemma {:induction false} AllCount(s: seq<int>, t: int)
    requires forall i :: 0 <= i < |s| ==> s[i] >= t
    ensures CountAtLeast(s, t) == |s|
  {
    if s != [] {
      AllCount(s[1..], t);
    }
  }

  /** The first of the passes closest to `target`. */
  method BestPass(passes: seq<Pass>, target: int) returns (best: nat)
    requires passes != []
    ensures best < |passes|
    ensures forall i :: 0 <= i < |passes| ==> Distance(passes[best].score, target) <= Distance(passes[i].score, target)
    ensures forall i :: 0 <= i < best ==> Distance(passes[best].score, target) < Distance(passes[i].score, target)
  {
    best := 0;
    for k := 1 to |passes|
      invariant best < k
      invariant forall i :: 0 <= i < k ==> Distance(passes[best].score, target) <= Distance(passes[i].score, target)
      invariant forall i :: 0 <= i < best ==> Distance(passes[best].score, target) < Distance(passes[i].score, target)
    {
      if Distance(passes[k].score, target) < Distance(passes[best].score, target) {
        best := k;
      }
    }
  }

  function Distance(a: int, b: int): nat {
    if a < b then b - a else a - b
  }

  /** A majority of the scores reaches exactly the bounds that the median reaches. */
  lemma MedianIsMajority(scores: seq<int>, t: int)
    requires scores != []
    ensures Median(scores) >= t <==> CountAtLeast(scores, t) >= |scores| - |scores| / 2
  {
    CountSort(scores, t);
    CountDecides(Sort(scores), |scores| / 2, t);
  }

  function Median(scores: seq<int>): (m: int)
    requires scores != []
    ensures m in scores
  {
    var sorted := Sort(scores);
    var m := sorted[|sorted| / 2];
    assert m in multiset(sorted) && m in multiset(scores);
    m
  }

  /** Run the passes, sort their scores, decide by the middle one. No passes at all is an error. The
      verdict is a majority: at least `n - n/2` passes reach the threshold, a failed pass counting as
      0. The score is that of a real pass, and the reasoning is the first such pass's. */
  method Score(outcomes: seq<Outcome>, threshold: int) returns (report: Option<Report>)
    ensures report.None? <==> outcomes == []
    ensures report.Some? ==>
      var r, n := report.value, |outcomes|;
      && |r.passes| == n && (forall i :: 0 <= i < n ==> r.passes[i] == PassOf(outcomes[i]))
      && (r.passed <==> CountAtLeast(ScoresOf(r.passes), threshold) >= n - n / 2)
      && (forall t :: r.score >= t <==> CountAtLeast(ScoresOf(r.passes), t) >= n - n / 2)
      && 0 <= r.score <= 100
      && exists k :: 0 <= k < n && r.passes[k] == Pass(r.score, r.reasoning)
                     && forall i :: 0 <= i < k ==> r.passes[i].score != r.score
  {
    var passResults: seq<Pass> := [];
    for i := 0 to |outcomes|
      invariant |passResults| == i
      invariant forall k :: 0 <= k < i ==> passResults[k] == PassOf(outcomes[k])
    {
      match outcomes[i] {
        case Reply(score, reasoning) => passResults := passResults + [Pass(Clamp(score), reasoning)];
        case Failure(error) => passResults := passResults + [Pass(0, "Error: " + error)];
      }
    }
    var scores := ScoresOf(passResults);
    var sorted := Sort(scores);
    if sorted == [] {
      return None;
    }
    var median := sorted[|sorted| / 2];
    assert median == Median(scores);
    forall t
      ensures median >= t <==> CountAtLeast(scores, t) >= |scores| - |scores| / 2
    {
      MedianIsMajority(scores, t);
    }
    var k :| 0 <= k < |scores| && scores[k] == median;
    var best := BestPass(passResults, median);
    assert Distance(passResults[best].score, median) <= Distance(passResults[k].score, median) == 0;
    return Some(Report(median, median >= threshold, passResults[best].reasoning, passResults));
  }
}

/** Consensus of verifiers: counting who signed a verdict. */
module Signatures {
  import opened Basics
  import Hex

  type Ed25519 = (seq<Byte>, string, seq<Byte>) -> bool

  datatype VerifierInfo = VerifierInfo(account: string, publicKey: string, active: bool)

  datatype VerifierSignature = VerifierSignature(index: Byte, signature: seq<Byte>)

  function ActiveCount(verifiers: seq<VerifierInfo>): nat {
    if verifiers == [] then 0
    else
      var n := |verifiers| - 1;
      ActiveCount(verifiers[..n]) + if verifiers[n].active then 1 else 0
  }

  /** The places of the active verifiers. */
  function ActiveSet(verifiers: seq<VerifierInfo>): set<nat> {
    set i: nat | i < |verifiers| && verifiers[i].active
  }

  lemma {:induction false} ActiveCounts(verifiers: seq<VerifierInfo>)
    ensures ActiveCount(verifiers) == |ActiveSet(verifiers)|
  {
    if verifiers == [] {
      assert ActiveSet(verifiers) == {};
    } else {
      var n := |verifiers| - 1;
      ActiveCounts(verifiers[..n]);
      assert ActiveSet(verifiers) == ActiveSet(verifiers[..n]) + if verifiers[n].active then {n} else {};
    }
  }

  predicate ValidSetup(verifiers: seq<VerifierInfo>, threshold: nat) {
    && verifiers != []
    && (forall i :: 0 <= i < |verifiers| ==> |verifiers[i].publicKey| == 64)
    && 1 <= threshold <= ActiveCount(verifiers)
  }

  predicate Verifies(v: VerifierInfo, message: string, signature: seq<Byte>, ed25519: Ed25519) {
    var key := Hex.Decode(v.publicKey);
    key.Some? && |key.value| == 32 && |signature| == 64 && ed25519(key.value, message, signature)
  }

  /** `k` is the first place where the list names verifier `i`. */
  predicate FirstFor(sigs: seq<VerifierSignature>, k: nat, i: nat) {
    k < |sigs| && sigs[k].index == i && forall m :: 0 <= m < k ==> sigs[m].index != i
  }

  predicate Signed(verifiers: seq<VerifierInfo>, message: string, sigs: seq<VerifierSignature>, ed25519: Ed25519,
      i: nat)
  {
    && i < |verifiers| && verifiers[i].active
    && exists k: nat :: k < |sigs| && FirstFor(sigs, k, i)
        && Verifies(verifiers[i], message, sigs[k].signature, ed25519)
  }

  /** The active verifiers whose first listed signature is good. */
  function Signers(verifiers: seq<VerifierInfo>, message: string, sigs: seq<VerifierSignature>,
      ed25519: Ed25519): set<nat>
  {
    set i: nat | i < |verifiers| && Signed(verifiers, message, sigs, ed25519, i)
  }

  /** One more entry can only add its own verifier, and only when it is named for the first time. */
  lemma OneMore(verifiers: seq<VerifierInfo>, message: string, sigs: seq<VerifierSignature>, ed25519: Ed25519)
    requires sigs != []
    ensures var n := |sigs| - 1;
      var i: nat := sigs[n].index;
      var good := i < |verifiers| && verifiers[i].active && FirstFor(sigs, n, i)
                  && Verifies(verifiers[i], message, sigs[n].signature, ed25519);
      && Signers(verifiers, message, sigs, ed25519)
         == Signers(verifiers, message, sigs[..n], ed25519) + (if good then {i} else {})
      && (good ==> i !in Signers(verifiers, message, sigs[..n], ed25519))
  {
    var n := |sigs| - 1;
    var front := sigs[..n];
    forall i: nat, k: nat | k < n
      ensures FirstFor(sigs, k, i) <==> FirstFor(front, k, i)
    {
    }
    forall i: nat | i < |verifiers|
      ensures Signed(verifiers, message, sigs, ed25519, i) ==
        (Signed(verifiers, message, front, ed25519, i)
         || (verifiers[i].active && FirstFor(sigs, n, i)
             && Verifies(verifiers[i], message, sigs[n].signature, ed25519)))
    {
      if Signed(verifiers, message, front, ed25519, i) {
        var k: nat :| k < |front| && FirstFor(front, k, i)
            && Verifies(verifiers[i], message, front[k].signature, ed25519);
        assert FirstFor(sigs, k, i) && sigs[k] == front[k];
      }
      if Signed(verifiers, message, sigs, ed25519, i) {
        var k: nat :| k < |sigs| && FirstFor(sigs, k, i) && Verifies(verifiers[i], message, sigs[k].signature, ed25519);
        assert k < n ==> FirstFor(front, k, i) && sigs[k] == front[k];
      }
    }
  }

  lemma FirstIfUnseen(sigs: seq<VerifierSignature>, i: nat)
    requires i < |sigs|
    ensures FirstFor(sigs[..i + 1], i, sigs[i].index) <==> sigs[i].index !in (set k | 0 <= k < i :: sigs[k].index)
  {
  }

  /** The same for the number of signers. */
  lemma OneMoreCount(
    verifiers: seq<VerifierInfo>, message: string, sigs: seq<VerifierSignature>, ed25519: Ed25519, i: nat)
    requires i < |sigs|
    ensures var idx: nat := sigs[i].index;
      |Signers(verifiers, message, sigs[..i + 1], ed25519)| == |Signers(verifiers, message, sigs[..i], ed25519)|
        + if idx !in (set k | 0 <= k < i :: sigs[k].index) && idx < |verifiers| && verifiers[idx].active
             && Verifies(verifiers[idx], message, sigs[i].signature, ed25519) then 1 else 0
  {
    var idx: nat := sigs[i].index;
    var longer := sigs[..i + 1];
    assert longer[..i] == sigs[..i];
    OneMore(verifiers, message, longer, ed25519);
    FirstIfUnseen(sigs, i);
  }

  /** The counting loop. The count is returned as a `u8`. */
  method CountValidSignatures(verifiers: seq<VerifierInfo>, message: string, sigs: seq<VerifierSignature>,
      ed25519: Ed25519)
    returns (valid: Byte)
    ensures valid == |Signers(verifiers, message, sigs, ed25519)| % 256
  {
    var seen: set<nat> := {};
    var count: nat := 0;
    assert sigs[..0] == [];
    assert Signers(verifiers, message, [], ed25519) == {};
    for i := 0 to |sigs|
      invariant seen == set k | 0 <= k < i :: sigs[k].index
      invariant count == |Signers(verifiers, message, sigs[..i], ed25519)|
    {
      var sig := sigs[i];
      var idx: nat := sig.index;
      OneMoreCount(verifiers, message, sigs, ed25519, i);
      var isNew := idx !in seen;
      seen := seen + {idx};
      if !isNew || idx >= |verifiers| || !verifiers[idx].active {
        continue;
      }
      var key := Hex.DecodeSafe(verifiers[idx].publicKey);
      if key.None? || |key.value| != 32 || |sig.signature| != 64 {
        continue;
      }
      if ed25519(key.value, message, sig.signature) {
        count := count + 1;
      }
    }
    assert sigs[..|sigs|] == sigs;
    valid := count % 256;
  }

  lemma {:induction false} BoundedSet(s: set<nat>, n: nat)
    requires forall i :: i in s ==> i < n
    ensures |s| <= n
  {
    if n == 0 {
      assert s == {};
    } else {
      BoundedSet(s - {n - 1}, n - 1);
    }
  }

  /** With at most 255 verifiers the `u8` is the exact count: reaching the threshold takes that many
      distinct active verifiers in the set. */
  lemma ThresholdMeansDistinctSigners(
    verifiers: seq<VerifierInfo>, message: string, sigs: seq<VerifierSignature>, ed25519: Ed25519, threshold: nat)
    requires |verifiers| <= 255
    ensures var signers := Signers(verifiers, message, sigs, ed25519);
      && (|signers| % 256 >= threshold <==> |signers| >= threshold)
      && (forall i :: i in signers ==> i < |verifiers| && verifiers[i].active)
  {
    BoundedSet(Signers(verifiers, message, sigs, ed25519), |verifiers|);
  }

  /** With 256 verifiers the limit is real: a unanimous vote is counted as none. */
  lemma UnanimousCountsAsNone(message: string)
    ensures var key := Hex.Encode(seq(32, _ => 0));
      var verifiers := seq(256, _ => VerifierInfo("v.near", key, true));
      var sigs := seq(256, (i: nat) requires i < 256 => VerifierSignature(i, seq(64, _ => 0)));
      |Signers(verifiers, message, sigs, (_, _, _) => true)| % 256 == 0
  {
    var bytes: seq<Byte> := seq(32, _ => 0);
    var key := Hex.Encode(bytes);
    Hex.DecodeEncode(bytes);
    var verifiers := seq(256, _ => VerifierInfo("v.near", key, true));
    var sigs := seq(256, (i: nat) requires i < 256 => VerifierSignature(i, seq(64, _ => 0)));
    var ed25519: Ed25519 := (_, _, _) => true;
    forall i: nat | i < 256
      ensures Signed(verifiers, message, sigs, ed25519, i)
    {
      assert FirstFor(sigs, i, i);
      assert Verifies(verifiers[i], message, sigs[i].signature, ed25519);
    }
    FullSet(Signers(verifiers, message, sigs, ed25519), 256);
  }

  lemma {:induction false} FullSet(s: set<nat>, n: nat)
    requires forall i: nat :: i in s <==> i < n
    ensures |s| == n
  {
    if n == 0 {
      assert s == {};
    } else {
      FullSet(s - {n - 1}, n - 1);
    }
  }

  function ScopedMessage(dataIdHex: string, verdictJson: string): string {
    dataIdHex + ":" + verdictJson
  }

  /** A signature binds one data id to one verdict: 64-character ids make the text readable one way only. */
  lemma ScopedInjective(d: string, v: string, d': string, v': string)
    requires |d| == |d'| && ScopedMessage(d, v) == ScopedMessage(d', v')
    ensures d == d' && v == v'
  {
    var s := ScopedMessage(d, v);
    assert s[..|d|] == d && s[|d| + 1..] == v;
    assert s[..|d'|] == d' && s[|d'| + 1..] == v';
  }
}

/** Base58 text for byte strings, by long division in place (draft-msporny-base58, section 3), and
    the decoder it is the inverse of. */
module Base58 {
  import opened Basics

  const ALPHABET: string := "123456789" + "ABCDEFGH" + "JKLMN" + "PQRSTUVWXYZ" + "abcdefghijk" + "mnopqrstuvwxyz"

  type Digit = d: nat | d < 58

  function Symbol(d: Digit): char {
    assert |ALPHABET| == 58;
    ALPHABET[d]
  }

  /** The digit a character stands for, by the five stretches of the alphabet. */
  function DigitOf(c: char): Option<Digit> {
    if '1' <= c <= '9' then Some((c as int) - ('1' as int))
    else if 'A' <= c <= 'H' then Some((c as int) - ('A' as int) + 9)
    else if 'J' <= c <= 'N' then Some((c as int) - ('J' as int) + 17)
    else if 'P' <= c <= 'Z' then Some((c as int) - ('P' as int) + 22)
    else if 'a' <= c <= 'k' then Some((c as int) - ('a' as int) + 33)
    else if 'm' <= c <= 'z' then Some((c as int) - ('m' as int) + 44)
    else None
  }

  lemma LowSymbol(d: Digit)
    requires d < 22
    ensures DigitOf(Symbol(d)) == Some(d) && (Symbol(d) == '1' <==> d == 0)
  {
    assert ALPHABET[d] == ("123456789" + "ABCDEFGH" + "JKLMN")[d];
  }

  lemma MiddleSymbol(d: Digit)
    requires 22 <= d < 44
    ensures DigitOf(Symbol(d)) == Some(d) && Symbol(d) != '1'
  {
    assert ALPHABET[d] == ("PQRSTUVWXYZ" + "abcdefghijk")[d - 22];
  }

  lemma HighSymbol(d: Digit)
    requires 44 <= d
    ensures DigitOf(Symbol(d)) == Some(d) && Symbol(d) != '1'
  {
    assert ALPHABET[d] == "mnopqrstuvwxyz"[d - 44];
  }

  lemma SymbolRoundTrip(d: Digit)
    ensures DigitOf(Symbol(d)) == Some(d)
    ensures Symbol(d) == '1' <==> d == 0
  {
    if d < 22 {
      LowSymbol(d);
    } else if d < 44 {
      MiddleSymbol(d);
    } else {
      HighSymbol(d);
    }
  }

  // ---- positional notation ----

  predicate Digits(s: seq<nat>, b: nat) {
    forall i :: 0 <= i < |s| ==> s[i] < b
  }

  /** A digit sequence, most significant first, read in base `b`. */
  function Value(s: seq<nat>, b: nat): nat {
    if s == [] then 0 else Value(s[..|s| - 1], b) * b + s[|s| - 1]
  }

  /** A number written in base `b` without leading zeros. */
  function ToBase(v: nat, b: nat): seq<nat>
    requires b >= 2
  {
    if v == 0 then [] else
      assert v / b < v by { Shrinks(v, b); }
      ToBase(v / b, b) + [v % b]
  }

  lemma Shrinks(v: nat, b: nat)
    requires b >= 2 && v > 0
    ensures v / b < v
  {
    assert v == b * (v / b) + v % b;
    assert b * (v / b) >= 2 * (v / b);
  }

  lemma DivMod(v: nat, b: nat)
    requires b > 0
    ensures v == (v / b) * b + v % b && (v / b == 0 ==> v % b == v)
  {
  }

  lemma {:induction false} ToBaseDigits(v: nat, b: nat)
    requires b >= 2
    ensures Digits(ToBase(v, b), b) && Value(ToBase(v, b), b) == v
    ensures v > 0 ==> |ToBase(v, b)| > 0 && ToBase(v, b)[0] != 0
  {
    if v > 0 {
      Shrinks(v, b);
      var front, last := ToBase(v / b, b), v % b;
      ToBaseDigits(v / b, b);
      assert ToBase(v, b) == front + [last] && (front + [last])[..|front|] == front;
      assert Value(front + [last], b) == Value(front, b) * b + last;
      DivMod(v, b);
    }
  }

  lemma {:induction false} ValueIsPositive(s: seq<nat>, b: nat)
    requires b >= 2
    ensures Value(s, b) == 0 <==> forall i :: 0 <= i < |s| ==> s[i] == 0
  {
    if s != [] {
      ValueIsPositive(s[..|s| - 1], b);
    }
  }

  lemma {:induction false} ToBaseOfValue(s: seq<nat>, b: nat)
    requires b >= 2 && Digits(s, b) && (s != [] ==> s[0] != 0)
    ensures ToBase(Value(s, b), b) == s
  {
    if s != [] {
      var front := s[..|s| - 1];
      ToBaseOfValue(front, b);
      ValueIsPositive(s, b);
      Quotient(Value(front, b), s[|s| - 1], b);
    }
  }

  function Repeat(n: nat, x: nat): (s: seq<nat>)
    ensures |s| == n && forall i :: 0 <= i < n ==> s[i] == x
  {
    seq(n, _ => x)
  }

  lemma {:induction false} LeadingZeros(n: nat, s: seq<nat>, b: nat)
    requires b >= 2
    ensures Value(Repeat(n, 0) + s, b) == Value(s, b)
  {
    var all := Repeat(n, 0) + s;
    if s == [] {
      ValueIsPositive(all, b);
    } else {
      LeadingZeros(n, s[..|s| - 1], b);
      assert all[..|all| - 1] == Repeat(n, 0) + s[..|s| - 1];
    }
  }

  /** How many zeros a sequence starts with. */
  function ZeroCount(s: seq<nat>): (n: nat)
    ensures n <= |s| && (forall i :: 0 <= i < n ==> s[i] == 0) && (n < |s| ==> s[n] != 0)
  {
    if s == [] || s[0] != 0 then 0 else 1 + ZeroCount(s[1..])
  }

  /** Leading zeros and value determine a digit sequence. */
  lemma Normal(s: seq<nat>, b: nat)
    requires b >= 2 && Digits(s, b)
    ensures s == Repeat(ZeroCount(s), 0) + ToBase(Value(s, b), b)
  {
    var n := ZeroCount(s);
    assert s == Repeat(n, 0) + s[n..];
    LeadingZeros(n, s[n..], b);
    ToBaseOfValue(s[n..], b);
  }

  lemma {:induction false} ZeroCountOf(n: nat, s: seq<nat>)
    requires s != [] ==> s[0] != 0
    ensures ZeroCount(Repeat(n, 0) + s) == n
  {
    var all := Repeat(n, 0) + s;
    if n > 0 {
      ZeroCountOf(n - 1, s);
      assert all[1..] == Repeat(n - 1, 0) + s;
    }
  }

  // ---- the code as a function, and its inverse ----

  function Text(digits: seq<nat>): (t: string)
    requires Digits(digits, 58)
    ensures |t| == |digits| && forall i :: 0 <= i < |t| ==> t[i] == Symbol(digits[i])
  {
    seq(|digits|, i requires 0 <= i < |digits| => Symbol(digits[i]))
  }

  /** Change of base: the leading zeros are kept one for one, the rest is written anew. */
  function Rebase(s: seq<nat>, from: nat, to: nat): (r: seq<nat>)
    requires from >= 2 && to >= 2
    ensures Digits(r, to)
  {
    ToBaseDigits(Value(s, from), to);
    Repeat(ZeroCount(s), 0) + ToBase(Value(s, from), to)
  }

  function Encode(data: seq<Byte>): string {
    Text(Rebase(data, 256, 58))
  }

  function Read(text: string): (r: Option<seq<nat>>)
    ensures r.Some? <==> forall i :: 0 <= i < |text| ==> DigitOf(text[i]).Some?
    ensures r.Some? ==> Digits(r.value, 58) && |r.value| == |text|
    ensures r.Some? ==> forall i :: 0 <= i < |text| ==> DigitOf(text[i]) == Some(r.value[i])
  {
    if forall i :: 0 <= i < |text| ==> DigitOf(text[i]).Some?
    then Some(seq(|text|, i requires 0 <= i < |text| => DigitOf(text[i]).value))
    else None
  }

  /** A standard decoder: each leading '1' is a zero byte, the rest is one number. */
  function Decode(text: string): Option<seq<Byte>> {
    var digits := Read(text);
    if digits.None? then None
    else
      var bytes: seq<Byte> := Rebase(digits.value, 58, 256);
      Some(bytes)
  }

  lemma RebaseBack(s: seq<nat>, from: nat, to: nat)
    requires from >= 2 && to >= 2 && Digits(s, from)
    ensures Rebase(Rebase(s, from, to), to, from) == s
  {
    var v := Value(s, from);
    ToBaseDigits(v, to);
    ZeroCountOf(ZeroCount(s), ToBase(v, to));
    LeadingZeros(ZeroCount(s), ToBase(v, to), to);
    Normal(s, from);
  }

  /** Decoding what was encoded gives the bytes back. */
  lemma DecodeEncode(data: seq<Byte>)
    ensures Decode(Encode(data)) == Some(data)
  {
    var digits := Rebase(data, 256, 58);
    forall i | 0 <= i < |digits|
      ensures DigitOf(Encode(data)[i]) == Some(digits[i])
    {
      SymbolRoundTrip(digits[i]);
    }
    assert Read(Encode(data)).value == digits;
    RebaseBack(data, 256, 58);
  }

  /** And every text in the alphabet is the encoding of what it decodes to: the code is one to one
      and onto. */
  lemma EncodeDecode(text: string)
    requires Read(text).Some?
    ensures Encode(Decode(text).value) == text
  {
    var digits := Read(text).value;
    RebaseBack(digits, 58, 256);
    forall i | 0 <= i < |text|
      ensures Symbol(digits[i]) == text[i]
    {
      DigitRoundTrip(text[i]);
    }
  }

  lemma DigitRoundTrip(c: char)
    requires DigitOf(c).Some?
    ensures Symbol(DigitOf(c).value) == c
  {
    SymbolRoundTrip(DigitOf(c).value);
  }

  /** Leading '1's stand for leading zero bytes, one for one. */
  lemma LeadingOnes(data: seq<Byte>)
    ensures var text, n := Encode(data), ZeroCount(data);
      && n <= |text|
      && (forall i :: 0 <= i < n ==> text[i] == '1')
      && (n < |text| ==> text[n] != '1')
      && (|text| > n <==> |data| > n)
  {
    var n, v := ZeroCount(data), Value(data, 256);
    ToBaseDigits(v, 58);
    ValueIsPositive(data, 256);
    var digits := Rebase(data, 256, 58);
    forall i | 0 <= i < |digits|
      ensures Encode(data)[i] == '1' <==> digits[i] == 0
    {
      SymbolRoundTrip(digits[i]);
    }
  }

  // ---- the division loop ----

  /** One round divides the number held in `bytes` by 58 where it stands, and leaves the remainder. */
  method DivideInPlace(bytes: array<Byte>) returns (carry: nat)
    modifies bytes
    ensures Value(bytes[..], 256) == Value(old(bytes[..]), 256) / 58
    ensures carry == Value(old(bytes[..]), 256) % 58
  {
    ghost var was := bytes[..];
    carry := 0;
    assert bytes[..0] == was[..0] == [];
    for i := 0 to bytes.Length
      invariant carry < 58
      invariant bytes[i..] == was[i..]
      invariant Value(bytes[..i], 256) * 58 + carry == Value(was[..i], 256)
    {
      assert bytes[i] == was[i] by { assert bytes[i..][0] == was[i..][0]; }
      var val := carry * 256 + bytes[i];
      ghost var done := bytes[..i];
      bytes[i] := val / 58;
      carry := val % 58;
      assert bytes[..i + 1][..i] == done && was[..i + 1][..i] == was[..i];
      assert bytes[i + 1..] == was[i + 1..] by {
        assert forall k :: i < k < bytes.Length ==> bytes[k] == was[i..][k - i];
      }
    }
    assert bytes[..bytes.Length] == bytes[..] && was[..bytes.Length] == was;
    Quotient(Value(bytes[..], 256), carry, 58);
  }

  method IsZero(bytes: array<Byte>) returns (zero: bool)
    ensures zero <==> Value(bytes[..], 256) == 0
  {
    ValueIsPositive(bytes[..], 256);
    zero := true;
    for i := 0 to bytes.Length
      invariant zero <==> forall k :: 0 <= k < i ==> bytes[k] == 0
    {
      zero := zero && bytes[i] == 0;
    }
    assert forall k :: 0 <= k < bytes.Length ==> bytes[..][k] == bytes[k];
  }

  /** Digits come out last one first, so the text grows backwards. It ends because every round makes
      the number smaller. */
  method PushDigits(bytes: array<Byte>) returns (result: string, ghost tail: seq<nat>)
    modifies bytes
    ensures tail == ToBase(Value(old(bytes[..]), 256), 58)
    ensures Digits(tail, 58) && Reversed(result) == Text(tail)
  {
    ghost var v := Value(bytes[..], 256);
    result, tail := "", [];
    var done := IsZero(bytes);
    while !done
      invariant done <==> Value(bytes[..], 256) == 0
      invariant ToBase(v, 58) == ToBase(Value(bytes[..], 256), 58) + tail
      invariant Digits(tail, 58) && Reversed(result) == Text(tail)
      decreases Value(bytes[..], 256)
    {
      ghost var n := Value(bytes[..], 256);
      Shrinks(n, 58);
      var carry := DivideInPlace(bytes);
      OneDigit(tail, v, n);
      OneSymbol(result, tail, carry);
      result := result + [Symbol(carry)];
      tail := [carry] + tail;
      done := IsZero(bytes);
    }
  }

  method Bs58Encode(data: seq<Byte>) returns (text: string)
    ensures text == Encode(data)
  {
    var leadingZeros := 0;
    while leadingZeros < |data| && data[leadingZeros] == 0
      invariant 0 <= leadingZeros <= |data|
      invariant forall i :: 0 <= i < leadingZeros ==> data[i] == 0
    {
      leadingZeros := leadingZeros + 1;
    }
    LeadingZerosAre(data, leadingZeros);
    var bytes := new Byte[|data|](i requires 0 <= i < |data| => data[i]);
    assert bytes[..] == data;
    var result, tail := PushDigits(bytes);
    ghost var digits := result;
    for i := 0 to leadingZeros
      invariant result == digits + seq(i, _ => '1')
    {
      result := result + ['1'];
    }
    Assembled(digits, tail, leadingZeros);
    text := Reversed(result);
  }

  /** One round moves the last digit of the remaining number to the front of those found. */
  lemma OneDigit(tail: seq<nat>, v: nat, n: nat)
    requires n > 0 && ToBase(v, 58) == ToBase(n, 58) + tail
    ensures ToBase(v, 58) == ToBase(n / 58, 58) + ([n % 58] + tail)
  {
    assert ToBase(n, 58) == ToBase(n / 58, 58) + [n % 58];
  }

  lemma OneSymbol(result: string, tail: seq<nat>, d: Digit)
    requires Digits(tail, 58) && Reversed(result) == Text(tail)
    ensures Digits([d] + tail, 58) && Reversed(result + [Symbol(d)]) == Text([d] + tail)
  {
    var longer := result + [Symbol(d)];
    forall i | 0 <= i < |longer|
      ensures Reversed(longer)[i] == Text([d] + tail)[i]
    {
      assert i > 0 ==> Reversed(longer)[i] == Reversed(result)[i - 1];
    }
  }

  lemma Assembled(digits: string, tail: seq<nat>, n: nat)
    requires Digits(tail, 58) && Reversed(digits) == Text(tail)
    ensures Digits(Repeat(n, 0) + tail, 58)
    ensures Reversed(digits + seq(n, _ => '1')) == Text(Repeat(n, 0) + tail)
  {
    var all := digits + seq(n, _ => '1');
    assert Symbol(0) == '1';
    forall i | 0 <= i < |all|
      ensures Reversed(all)[i] == Text(Repeat(n, 0) + tail)[i]
    {
      if i >= n {
        assert Reversed(all)[i] == Reversed(digits)[i - n];
      }
    }
  }

  lemma {:induction false} LeadingZerosAre(s: seq<nat>, n: nat)
    requires n <= |s| && (forall i :: 0 <= i < n ==> s[i] == 0) && (n < |s| ==> s[n] != 0)
    ensures ZeroCount(s) == n
  {
  }

  function Reversed(s: string): (r: string)
    ensures |r| == |s| && forall i :: 0 <= i < |s| ==> r[i] == s[|s| - 1 - i]
  {
    seq(|s|, i requires 0 <= i < |s| => s[|s| - 1 - i])
  }
}

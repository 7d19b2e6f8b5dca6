/** Lower-case hexadecimal text for byte strings, and the two decoders built on `u8::from_str_radix`. */
module Hex {
  import opened Basics

  function Digit(n: nat): char
    requires n < 16
  {
    if n < 10 then (('0' as int) + n) as char else (('a' as int) + n - 10) as char
  }

  /** The value of a base-16 digit; both letter cases are accepted. */
  function DigitValue(c: char): Option<nat> {
    if '0' <= c <= '9' then Some((c as int) - ('0' as int))
    else if 'a' <= c <= 'f' then Some((c as int) - ('a' as int) + 10)
    else if 'A' <= c <= 'F' then Some((c as int) - ('A' as int) + 10)
    else None
  }

  /** `u8::from_str_radix` on two characters: a leading plus sign is legal there. */
  function PairValue(hi: char, lo: char): (r: Option<Byte>)
    ensures r.None? <==> DigitValue(lo).None? || (hi != '+' && DigitValue(hi).None?)
  {
    if DigitValue(lo).None? then None
    else if hi == '+' then Some(DigitValue(lo).value)
    else if DigitValue(hi).None? then None
    else Some(16 * DigitValue(hi).value + DigitValue(lo).value)
  }

  function Encode(bytes: seq<Byte>): (h: string)
    ensures |h| == 2 * |bytes|
  {
    if bytes == [] then ""
    else [Digit(bytes[0] / 16), Digit(bytes[0] % 16)] + Encode(bytes[1..])
  }

  function Decode(h: string): (r: Option<seq<Byte>>)
    ensures r.Some? ==> |h| == 2 * |r.value|
  {
    if h == "" then Some([])
    else if |h| == 1 then None
    else
      var first := PairValue(h[0], h[1]);
      var rest := Decode(h[2..]);
      if first.None? || rest.None? then None else Some([first.value] + rest.value)
  }

  /** The decoding loop, which stops at the first bad pair. */
  method DecodeSafe(h: string) returns (r: Option<seq<Byte>>)
    ensures r == Decode(h)
  {
    if |h| % 2 != 0 {
      OddLength(h);
      return None;
    }
    var bytes: seq<Byte> := [];
    var i := 0;
    assert h[0..] == h;
    assert Decode(h).Some? ==> bytes + Decode(h).value == Decode(h).value;
    while i < |h|
      invariant 0 <= i <= |h| && i % 2 == 0
      invariant Decode(h) == if Decode(h[i..]).None? then None else Some(bytes + Decode(h[i..]).value)
    {
      var b := PairValue(h[i], h[i + 1]);
      assert h[i..][2..] == h[i + 2..];
      if b.None? {
        return None;
      }
      if Decode(h[i + 2..]).Some? {
        var rest := Decode(h[i + 2..]).value;
        assert bytes + ([b.value] + rest) == (bytes + [b.value]) + rest;
      }
      bytes := bytes + [b.value];
      i := i + 2;
    }
    assert h[i..] == "";
    assert bytes + [] == bytes;
    return Some(bytes);
  }

  lemma {:induction false} OddLength(h: string)
    requires |h| % 2 != 0
    ensures Decode(h).None?
  {
    if |h| > 1 {
      OddLength(h[2..]);
    }
  }

  lemma PairOfDigits(b: Byte)
    ensures PairValue(Digit(b / 16), Digit(b % 16)) == Some(b)
  {
    var hi, lo := b / 16, b % 16;
    assert DigitValue(Digit(hi)) == Some(hi) && Digit(hi) != '+';
    assert DigitValue(Digit(lo)) == Some(lo);
  }

  lemma {:induction false} DecodeEncode(bytes: seq<Byte>)
    ensures Decode(Encode(bytes)) == Some(bytes)
  {
    if bytes != [] {
      DecodeEncode(bytes[1..]);
      PairOfDigits(bytes[0]);
      var h := Encode(bytes);
      assert h[2..] == Encode(bytes[1..]);
      assert [bytes[0]] + bytes[1..] == bytes;
    }
  }

  /** Two byte strings with the same text are equal, so a text can serve as an index key. */
  lemma EncodeInjective(a: seq<Byte>, b: seq<Byte>)
    requires Encode(a) == Encode(b)
    ensures a == b
  {
    DecodeEncode(a);
    DecodeEncode(b);
  }

  predicate Canonical(h: string) {
    forall i :: 0 <= i < |h| ==> LowerDigit(h[i])
  }

  /** Decoding is not one-to-one: it forgets letter case and plus signs. A decodable text is the
      encoding of what it decodes to exactly when it is written in lower-case digits. */
  lemma {:induction false} EncodeDecode(h: string)
    requires Decode(h).Some?
    ensures Encode(Decode(h).value) == h <==> Canonical(h)
  {
    if h != "" {
      EncodeDecode(h[2..]);
      var bytes := Decode(h).value;
      assert bytes[1..] == Decode(h[2..]).value;
      assert h == [h[0], h[1]] + h[2..];
      assert Encode(bytes)[2..] == Encode(bytes[1..]);
      assert Canonical(h) <==> Canonical([h[0], h[1]]) && Canonical(h[2..]) by {
        assert forall i :: 0 <= i < |h[2..]| ==> h[2..][i] == h[i + 2];
        assert forall i :: 2 <= i < |h| ==> h[i] == h[2..][i - 2];
      }
      assert [Digit(bytes[0] / 16), Digit(bytes[0] % 16)] == [h[0], h[1]] <==> Canonical([h[0], h[1]]) by {
        PairRoundTrip(h[0], h[1]);
        assert [h[0], h[1]][0] == h[0] && [h[0], h[1]][1] == h[1];
      }
    }
  }

  predicate LowerDigit(c: char) {
    '0' <= c <= '9' || 'a' <= c <= 'f'
  }

  lemma DigitRoundTrip(c: char)
    requires DigitValue(c).Some?
    ensures Digit(DigitValue(c).value) == c <==> LowerDigit(c)
  {
  }

  lemma PairRoundTrip(hi: char, lo: char)
    requires PairValue(hi, lo).Some?
    ensures var b := PairValue(hi, lo).value;
      (Digit(b / 16) == hi && Digit(b % 16) == lo) <==> (LowerDigit(hi) && LowerDigit(lo))
  {
    DigitRoundTrip(lo);
    var l := DigitValue(lo).value;
    if hi == '+' {
      assert l / 16 == 0;
    } else {
      DigitRoundTrip(hi);
      var d := DigitValue(hi).value;
      assert (16 * d + l) / 16 == d && (16 * d + l) % 16 == l;
    }
  }
}

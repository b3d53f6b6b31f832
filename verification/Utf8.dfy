/** UTF-8, and the lossy decoding the frame parser applies to a frame's bytes. */
module Utf8 {
  import opened Text

  newtype Byte = b: int | 0 <= b < 0x100

  predicate IsTail(b: Byte) {
    0x80 <= b < 0xC0
  }

  function EncodeChar(c: char): (r: seq<Byte>)
    ensures |r| == CharBytes(c)
  {
    var n := c as int;
    if n < 0x80 then [n as Byte]
    else if n < 0x800 then [(0xC0 + n / 0x40) as Byte, Tail(n)]
    else if n < 0x10000 then [(0xE0 + n / 0x1000) as Byte, Tail(n / 0x40), Tail(n)]
    else [(0xF0 + n / 0x40000) as Byte, Tail(n / 0x1000), Tail(n / 0x40), Tail(n)]
  }

  function Tail(n: nat): Byte {
    (0x80 + n % 0x40) as Byte
  }

  function Encode(s: string): seq<Byte> {
    if s == [] then [] else EncodeChar(s[0]) + Encode(s[1..])
  }

  /** What may follow a leading byte, as the Unicode standard's table of well-formed
      sequences has it: surrogates and overlong forms are excluded by the second byte. */
  predicate SecondFits(lead: Byte, second: Byte) {
    if lead == 0xE0 then 0xA0 <= second < 0xC0
    else if lead == 0xED then 0x80 <= second < 0xA0
    else if lead == 0xF0 then 0x90 <= second < 0xC0
    else if lead == 0xF4 then 0x80 <= second < 0x90
    else IsTail(second)
  }

  function SequenceLength(lead: Byte): nat {
    if lead < 0x80 then 1
    else if 0xC2 <= lead < 0xE0 then 2
    else if 0xE0 <= lead < 0xF0 then 3
    else if 0xF0 <= lead < 0xF5 then 4
    else 0
  }

  /** How many of the first bytes can still be the start of one well-formed character. */
  function ValidPrefix(b: seq<Byte>): (n: nat)
    requires b != []
    ensures 1 <= n <= |b|
  {
    var want := SequenceLength(b[0]);
    if want < 2 || |b| < 2 || !SecondFits(b[0], b[1]) then 1
    else if want < 3 || |b| < 3 || !IsTail(b[2]) then 2
    else if want < 4 || |b| < 4 || !IsTail(b[3]) then 3
    else 4
  }

  function Scalar(b: seq<Byte>): int
    requires 1 <= |b| <= 4
  {
    var tail := (i: nat) requires i < |b| => b[i] as int - 0x80;
    if |b| == 1 then b[0] as int
    else if |b| == 2 then (b[0] as int - 0xC0) * 0x40 + tail(1)
    else if |b| == 3 then (b[0] as int - 0xE0) * 0x1000 + tail(1) * 0x40 + tail(2)
    else (b[0] as int - 0xF0) * 0x40000 + tail(1) * 0x1000 + tail(2) * 0x40 + tail(3)
  }

  predicate IsScalar(n: int) {
    0 <= n < 0xD800 || 0xE000 <= n < 0x110000
  }

  lemma {:induction false} WellFormedIsScalar(b: seq<Byte>)
    requires b != [] && ValidPrefix(b) == SequenceLength(b[0])
    ensures IsScalar(Scalar(b[..ValidPrefix(b)]))
  {
  }

  /** `String::from_utf8_lossy`: each maximal ill-formed piece becomes one U+FFFD. */
  function Lossy(b: seq<Byte>): string {
    if b == [] then []
    else
      var n := ValidPrefix(b);
      if n == SequenceLength(b[0]) then
        WellFormedIsScalar(b);
        [Scalar(b[..n]) as char] + Lossy(b[n..])
      else ['\U{FFFD}'] + Lossy(b[n..])
  }

  lemma {:induction false} TwoDigits(n: int)
    requires 0x80 <= n < 0x800
    ensures 2 <= n / 0x40 < 0x20 && (n / 0x40) * 0x40 + n % 0x40 == n
  {
  }

  lemma {:induction false} ThreeDigits(n: int)
    requires 0x800 <= n < 0x10000 && IsScalar(n)
    ensures var h, m, l := n / 0x1000, n / 0x40 % 0x40, n % 0x40;
      0 <= h < 0x10 && h * 0x1000 + m * 0x40 + l == n
      && (h == 0 ==> m >= 0x20) && (h == 0xD ==> m < 0x20)
  {
    assert n / 0x40 / 0x40 == n / 0x1000;
  }

  lemma {:induction false} FourDigits(n: int)
    requires 0x10000 <= n < 0x110000
    ensures var t, h, m, l := n / 0x40000, n / 0x1000 % 0x40, n / 0x40 % 0x40, n % 0x40;
      0 <= t < 5 && t * 0x40000 + h * 0x1000 + m * 0x40 + l == n
      && (t == 0 ==> h >= 0x10) && (t == 4 ==> h < 0x10)
  {
    assert n / 0x40 / 0x40 == n / 0x1000;
    assert n / 0x1000 / 0x40 == n / 0x40000;
  }

  lemma {:induction false} EncodedCharDecodes(c: char, rest: seq<Byte>)
    ensures var b := EncodeChar(c) + rest;
      ValidPrefix(b) == SequenceLength(b[0]) == |EncodeChar(c)|
      && Scalar(b[..|EncodeChar(c)|]) == c as int
  {
    var e := EncodeChar(c);
    var n := c as int;
    assert (e + rest)[..|e|] == e;
    if 0x80 <= n < 0x800 {
      TwoDigits(n);
    } else if 0x800 <= n < 0x10000 {
      ThreeDigits(n);
    } else if 0x10000 <= n {
      FourDigits(n);
    }
  }

  /** Decoding undoes encoding, for every string. */
  lemma {:induction false} LossyUndoesEncode(s: string)
    ensures Lossy(Encode(s)) == s
  {
    if s != [] {
      var e := EncodeChar(s[0]);
      EncodedCharDecodes(s[0], Encode(s[1..]));
      assert Encode(s)[|e|..] == Encode(s[1..]);
      LossyUndoesEncode(s[1..]);
    }
  }

  lemma {:induction false} EncodeConcat(s: string, t: string)
    ensures Encode(s + t) == Encode(s) + Encode(t)
  {
    if s == [] {
      assert s + t == t;
    } else {
      assert (s + t)[1..] == s[1..] + t;
      EncodeConcat(s[1..], t);
    }
  }

  /** An ASCII byte appears in an encoding only where its character does. */
  lemma {:induction false} AsciiIsItself(s: string, c: char)
    requires c < '\U{80}' && c !in s
    ensures c as int as Byte !in Encode(s)
  {
    if s != [] {
      AsciiIsItself(s[1..], c);
    }
  }
}

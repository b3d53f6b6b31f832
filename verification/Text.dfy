/** Strings the way the Rust core treats them: `char`s are Unicode scalar values,
    lengths that the source measures in bytes are UTF-8 lengths, and blanks are
    Unicode White_Space. */
module Text {

  datatype Option<+T> = None | Some(value: T)

  /** `char::is_whitespace`. */
  predicate IsBlankChar(c: char) {
    '\t' <= c <= '\r' || c == ' ' || c == '\U{85}' || c == '\U{A0}' || c == '\U{1680}'
    || '\U{2000}' <= c <= '\U{200A}' || c == '\U{2028}' || c == '\U{2029}' || c == '\U{202F}'
    || c == '\U{205F}' || c == '\U{3000}'
  }

  function TrimStart(s: string): string {
    if s != [] && IsBlankChar(s[0]) then TrimStart(s[1..]) else s
  }

  function TrimEnd(s: string): string {
    if s != [] && IsBlankChar(s[|s| - 1]) then TrimEnd(s[..|s| - 1]) else s
  }

  lemma {:induction false} TrimStartSpec(s: string)
    ensures var r := TrimStart(s);
      (r != [] ==> !IsBlankChar(r[0])) && |r| <= |s| && r == s[|s| - |r|..]
      && forall i :: 0 <= i < |s| - |r| ==> IsBlankChar(s[i])
  {
    if s != [] && IsBlankChar(s[0]) {
      TrimStartSpec(s[1..]);
    }
  }

  lemma {:induction false} TrimEndSpec(s: string)
    ensures var r := TrimEnd(s);
      (r != [] ==> !IsBlankChar(r[|r| - 1])) && r <= s
      && forall i :: |r| <= i < |s| ==> IsBlankChar(s[i])
  {
    if s != [] && IsBlankChar(s[|s| - 1]) {
      TrimEndSpec(s[..|s| - 1]);
    }
  }

  /** `str::trim`. */
  function Trim(s: string): string {
    TrimEnd(TrimStart(s))
  }

  predicate IsBlank(s: string) {
    Trim(s) == []
  }

  lemma {:induction false} TrimIsIdempotent(s: string)
    ensures Trim(Trim(s)) == Trim(s)
  {
    TrimStartSpec(s);
    TrimEndSpec(TrimStart(s));
    var r := Trim(s);
    if r != [] {
      assert r[0] == TrimStart(s)[0];
    }
  }

  /** A string is blank exactly when it holds nothing but white space. */
  lemma {:induction false} BlankIsAllWhiteSpace(s: string)
    ensures IsBlank(s) <==> forall i :: 0 <= i < |s| ==> IsBlankChar(s[i])
  {
    var t := TrimStart(s);
    TrimStartSpec(s);
    TrimEndSpec(t);
    if t != [] {
      assert t[0] == s[|s| - |t|];
    }
    if !IsBlank(s) {
      var r := Trim(s);
      assert r[|r| - 1] == t[|r| - 1] == s[|s| - |t| + |r| - 1];
    }
  }

  /** `char::len_utf8`. */
  function CharBytes(c: char): (n: nat)
    ensures 1 <= n <= 4
  {
    if c < '\U{80}' then 1 else if c < '\U{800}' then 2 else if c < '\U{10000}' then 3 else 4
  }

  /** `str::len`: the length of the UTF-8 encoding. */
  function ByteLen(s: string): (n: nat)
    ensures n >= |s|
  {
    if s == [] then 0 else CharBytes(s[0]) + ByteLen(s[1..])
  }

  predicate EndsWith(s: string, suffix: string) {
    |suffix| <= |s| && s[|s| - |suffix|..] == suffix
  }
}

/** Writing text so that the inline parser takes it literally. */
module Escaping {
  import opened Inline

  /** A backslash before every character that one takes. */
  function Escaped(s: string): string {
    if s == [] then []
    else (if s[0] in ESCAPABLE then ['\\', s[0]] else [s[0]]) + Escaped(s[1..])
  }

  /** The characters that mean something somewhere in Markdown, and no others. */
  lemma BackslashTakes(c: char)
    ensures c in ESCAPABLE <==>
      c in {'\\', '`', '*', '_', '~', '!', '[', ']', '(', ')', '{', '}', '#', '+', '-', '.', '>', '|'}
  {
  }

  /** A bare address, which no backslash keeps from being one. */
  predicate OpensAddress(s: string) {
    || "https://" <= s
    || "http://" <= s
    || (s != [] && s[0] == '<' && IsLinkTarget(s[1..]) && '>' in s[1..])
  }

  predicate HoldsAddress(s: string) {
    s != [] && (OpensAddress(s) || HoldsAddress(s[1..]))
  }

  lemma {:induction false} EscapedPrefix(s: string, t: string)
    requires forall c :: c in t ==> c !in ESCAPABLE
    ensures t <= Escaped(s) <==> t <= s
  {
    if t != [] && s != [] {
      assert t == [t[0]] + t[1..];
      EscapedPrefix(s[1..], t[1..]);
      var e := Escaped(s);
      if s[0] in ESCAPABLE {
        assert e[0] == '\\' && '\\' in ESCAPABLE;
        assert t[0] in t;
      } else {
        assert e == [s[0]] + Escaped(s[1..]) && s == [s[0]] + s[1..];
        assert t <= e <==> t[0] == s[0] && t[1..] <= Escaped(s[1..]);
        assert t <= s <==> t[0] == s[0] && t[1..] <= s[1..];
      }
    }
  }

  lemma {:induction false} EscapedHolds(s: string, c: char)
    requires c != '\\'
    ensures c in Escaped(s) <==> c in s
  {
    if s != [] {
      EscapedHolds(s[1..], c);
      assert s == [s[0]] + s[1..];
    }
  }

  // ----- what the parser sees

  lemma {:induction false} EscapedStart(s: string)
    requires s != [] && s[0] !in ESCAPABLE
    ensures Escaped(s) == [s[0]] + Escaped(s[1..])
  {
  }

  /** Only addresses are left to open anything. */
  lemma {:induction false} PlainOpensNothing(content: string, i: nat, isWord: char -> bool)
    requires i < |content| && content[i] !in ESCAPABLE
    ensures PieceAt(content, i, isWord)
         == var address := OrElse(AngleAt(content, i), UrlAt(content, i));
            if address.Some? then address.value else Literal(content[i], i + 1)
  {
    assert forall c :: c in "\\`*_~![" ==> c in ESCAPABLE;
    assert content[i] !in "\\`*_~![";
    assert content[i..][0] == content[i];
  }

  lemma {:induction false} FindsOne(content: string, c: char, from: nat, k: nat)
    requires from <= k < |content| && content[k] == c
    ensures Find(content, [c], from).Some?
    decreases k - from
  {
    if from < k {
      FindsOne(content, c, from + 1, k);
    } else {
      assert content[from..from + 1] == [c];
    }
  }

  lemma {:induction false} TargetStands(rest: string, close: nat, t: string)
    requires close < |rest| && t <= rest && rest[close] == '>' && '>' !in t
    ensures t <= rest[..close]
  {
    forall k | 0 <= k < |t| ensures t[k] == rest[k] != '>' {
      assert t[k] in t;
    }
  }

  lemma {:induction false} TargetOf(rest: string, close: nat)
    requires close < |rest| && rest[close] == '>'
    ensures IsLinkTarget(rest[..close]) <==> IsLinkTarget(rest)
  {
    if "https://" <= rest {
      TargetStands(rest, close, "https://");
    } else if "http://" <= rest {
      TargetStands(rest, close, "http://");
    } else if "mailto:" <= rest {
      TargetStands(rest, close, "mailto:");
    }
  }

  lemma {:induction false} AngleOpensWhen(content: string, i: nat)
    requires i < |content| && content[i] == '<'
    ensures AngleAt(content, i).Some? <==> IsLinkTarget(content[i + 1..]) && '>' in content[i + 1..]
  {
    var rest := content[i + 1..];
    if k :| 0 <= k < |rest| && rest[k] == '>' {
      FindsOne(content, '>', i, i + 1 + k);
    }
    var found := Find(content, ">", i);
    if found.Some? {
      var close := found.value;
      assert content[close] == content[close..close + 1][0] == '>';
      assert rest[close - i - 1] == '>';
      assert content[i + 1..close] == rest[..close - i - 1];
      TargetOf(rest, close - i - 1);
    }
  }

  lemma {:induction false} TargetsStand(s: string)
    ensures IsLinkTarget(Escaped(s)) <==> IsLinkTarget(s)
  {
    EscapedPrefix(s, "https://");
    EscapedPrefix(s, "http://");
    EscapedPrefix(s, "mailto:");
  }

  lemma {:induction false} StripStops(content: string, i: nat, end: nat)
    requires i < end <= |content| && content[i] !in ".,;:"
    ensures WithoutPunctuation(content, i, end) > i
  {
    if end > i + 1 && content[end - 1] in ".,;:" {
      StripStops(content, i, end - 1);
    }
  }

  /** An address opens after the escapes exactly where one opened before. */
  lemma {:induction false} AddressStands(content: string, i: nat, s: string)
    requires i < |content| && s != [] && s[0] !in ESCAPABLE && content[i..] == Escaped(s)
    ensures var address := OrElse(AngleAt(content, i), UrlAt(content, i));
      && (address.Some? <==> OpensAddress(s)) && (address.Some? ==> address.value.Bare?)
  {
    EscapedStart(s);
    assert content[i] == content[i..][0] == s[0];
    EscapedPrefix(s, "https://");
    EscapedPrefix(s, "http://");
    if s[0] == '<' {
      AngleOpensWhen(content, i);
      assert content[i + 1..] == content[i..][1..] == Escaped(s[1..]);
      TargetsStand(s[1..]);
      EscapedHolds(s[1..], '>');
    } else if StartsAt(content, i, "https://") || StartsAt(content, i, "http://") {
      assert content[i] == 'h';
      StripStops(content, i, WordEnd(content, i));
    }
  }

  lemma {:induction false} EscapedPiece(content: string, i: nat, s: string, isWord: char -> bool)
    requires i < |content| && s != [] && content[i..] == Escaped(s)
    ensures var p := PieceAt(content, i, isWord);
      if OpensAddress(s) then p.Bare?
      else p == Literal(s[0], if s[0] in ESCAPABLE then i + 2 else i + 1)
  {
    if s[0] in ESCAPABLE {
      assert content[i] == content[i..][0] == '\\' && content[i + 1] == content[i..][1] == s[0];
    } else {
      EscapedStart(s);
      assert content[i] == content[i..][0] == s[0];
      PlainOpensNothing(content, i, isWord);
      AddressStands(content, i, s);
    }
  }

  lemma {:induction false} EscapedRest(content: string, i: nat, s: string)
    requires i < |content| && s != [] && content[i..] == Escaped(s)
    ensures var next := if s[0] in ESCAPABLE then i + 2 else i + 1;
      next <= |content| && content[next..] == Escaped(s[1..])
  {
    var next := if s[0] in ESCAPABLE then i + 2 else i + 1;
    assert content[next..] == content[i..][next - i..];
  }

  lemma {:induction false} BareLinks(content: string, i: nat, isWord: char -> bool)
    requires i < |content| && PieceAt(content, i, isWord).Bare?
    ensures Parsed(content, i, isWord).links != []
  {
  }

  lemma {:induction false} LiteralThen(content: string, i: nat, isWord: char -> bool, c: char, next: nat)
    requires i < |content| && PieceAt(content, i, isWord) == Literal(c, next)
    ensures Parsed(content, i, isWord) == Joined(Rich([c], [], []), Parsed(content, next, isWord))
  {
  }

  lemma {:induction false} LiteralJoins(c: char, rest: string)
    ensures Joined(Rich([c], [], []), Rich(rest, [], [])) == Rich([c] + rest, [], [])
  {
  }

  lemma {:induction false} EscapedParses(content: string, i: nat, s: string, isWord: char -> bool)
    requires i <= |content| && content[i..] == Escaped(s)
    ensures if HoldsAddress(s) then Parsed(content, i, isWord).links != []
            else Parsed(content, i, isWord) == Rich(s, [], [])
    decreases |s|
  {
    if s == [] {
      assert i == |content|;
    } else {
      assert i < |content|;
      EscapedPiece(content, i, s, isWord);
      if OpensAddress(s) {
        BareLinks(content, i, isWord);
      } else {
        var next := if s[0] in ESCAPABLE then i + 2 else i + 1;
        EscapedRest(content, i, s);
        EscapedParses(content, next, s[1..], isWord);
        LiteralThen(content, i, isWord, s[0], next);
        LiteralJoins(s[0], s[1..]);
        assert [s[0]] + s[1..] == s;
      }
    }
  }

  /** Text with every such character escaped comes out of the parser as it was, exactly when it
      holds no bare address. */
  lemma {:induction false} EscapedIsLiteralWhen(s: string, isWord: char -> bool)
    ensures Parsed(Escaped(s), 0, isWord) == Rich(s, [], []) <==> !HoldsAddress(s)
  {
    assert Escaped(s)[0..] == Escaped(s);
    EscapedParses(Escaped(s), 0, s, isWord);
  }
}

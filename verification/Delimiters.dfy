/** Where emphasis begins and ends: what a single asterisk or underscore means. */
module Delimiters {
  import opened Text
  import opened Inline

  /** Text follows, and an underscore does not stand inside a word. */
  predicate MayOpen(content: string, i: nat, isWord: char -> bool) {
    && i + 1 < |content| && !IsBlankChar(content[i + 1])
    && (content[i] == '_' && i > 0 ==> !isWord(content[i - 1]) || !isWord(content[i + 1]))
  }

  /** Not escaped, right after text, not doubled, and an underscore not inside a word. */
  predicate MayClose(content: string, at: nat, c: char, isWord: char -> bool) {
    && 0 < at < |content| && content[at] == c && Slashes(content, at) % 2 == 0 && !IsBlankChar(content[at - 1])
    && (at + 1 < |content| ==>
          content[at + 1] != c && (c == '_' ==> !isWord(content[at - 1]) || !isWord(content[at + 1])))
  }

  predicate IsFree(content: string, at: nat, c: char) {
    at < |content| && content[at] == c && Slashes(content, at) % 2 == 0
  }

  lemma {:induction false} FirstOne(content: string, c: char, from: nat)
    requires from <= |content|
    ensures var found := Find(content, [c], from);
      && (found.Some? ==> found.value < |content| && content[found.value] == c)
      && var end := if found.Some? then found.value else |content|;
      forall k :: from <= k < end ==> content[k] != c
    decreases |content| - from
  {
    if from < |content| {
      assert content[from..from + 1] == [content[from]];
      if content[from] != c {
        FirstOne(content, c, from + 1);
      }
    }
  }

  lemma {:induction false} FirstFree(content: string, c: char, from: nat)
    requires from <= |content|
    ensures var found := FindUnescaped(content, [c], from);
      && (found.Some? ==> found.value < |content| && IsFree(content, found.value, c))
      && var end := if found.Some? then found.value else |content|;
      forall k :: from <= k < end ==> !IsFree(content, k, c)
    decreases |content| - from
  {
    FirstOne(content, c, from);
    var found := Find(content, [c], from);
    if found.Some? && Slashes(content, found.value) % 2 != 0 {
      FirstFree(content, c, found.value + 1);
    }
  }

  lemma ClosesWhenFree(content: string, at: nat, isWord: char -> bool)
    requires at < |content| && IsFree(content, at, content[at])
    ensures ClosesEmphasis(content, at, isWord) <==> MayClose(content, at, content[at], isWord)
  {
  }

  /** Emphasis ends at the first delimiter that may close it. */
  lemma {:induction false} EmphasisEndsAtFirst(content: string, c: char, from: nat, isWord: char -> bool)
    requires from <= |content|
    ensures var found := FindEmphasisClose(content, c, from, isWord);
      && (found.Some? ==> found.value < |content| && MayClose(content, found.value, c, isWord))
      && var end := if found.Some? then found.value else |content|;
      forall k :: from <= k < end ==> !MayClose(content, k, c, isWord)
    decreases |content| - from
  {
    FirstFree(content, c, from);
    var at := FindUnescaped(content, [c], from);
    var end := if at.Some? then at.value else |content|;
    forall k | from <= k < end ensures !MayClose(content, k, c, isWord) {
      assert !IsFree(content, k, c);
    }
    if at.Some? {
      ClosesWhenFree(content, at.value, isWord);
      if !ClosesEmphasis(content, at.value, isWord) {
        EmphasisEndsAtFirst(content, c, at.value + 1, isWord);
      }
    }
  }

  /** The text from `from` up to `to` is emphasized, by the delimiter before it. */
  predicate IsEmphasized(content: string, from: nat, to: nat, c: char, isWord: char -> bool) {
    && 0 < from <= to < |content| && MayOpen(content, from - 1, isWord) && MayClose(content, to, c, isWord)
    && forall k :: from <= k < to ==> !MayClose(content, k, c, isWord)
  }

  /** Not the start of strong text. */
  predicate IsSingle(content: string, i: nat) {
    i < |content| && content[i] in "*_" && (i + 1 < |content| ==> content[i + 1] != content[i])
  }

  lemma {:induction false} SingleIsNoOther(content: string, i: nat, isWord: char -> bool)
    requires IsSingle(content, i)
    ensures var emphasis := EmphasisAt(content, i, isWord);
      PieceAt(content, i, isWord) == if emphasis.Some? then emphasis.value else Literal(content[i], i + 1)
  {
    assert content[i..][0] == content[i];
    assert i + 1 < |content| ==> content[i..][1] == content[i + 1];
  }

  lemma {:induction false} SingleOpensWhen(content: string, i: nat, isWord: char -> bool)
    requires IsSingle(content, i)
    ensures CanOpenEmphasis(content, i, isWord) <==> MayOpen(content, i, isWord)
  {
  }

  /** What a single delimiter means: it emphasizes the text up to the first one that may close
      it, if it may open and there is one; otherwise it stands for itself. */
  lemma {:induction false} SingleDelimiterMeans(content: string, i: nat, from: nat, isWord: char -> bool)
    requires IsSingle(content, i) && from == i + 1
    ensures var p := PieceAt(content, i, isWord);
      if p.Nested? then
        p.style == Emphasis && p.from == from && p.next == p.to + 1
        && IsEmphasized(content, from, p.to, content[i], isWord)
      else
        p == Literal(content[i], i + 1)
        && forall to :: !IsEmphasized(content, from, to, content[i], isWord)
  {
    SingleIsNoOther(content, i, isWord);
    SingleOpensWhen(content, i, isWord);
    EmphasisEndsAtFirst(content, content[i], from, isWord);
  }
}

/** What the inline parser promises about its ranges and about the text it shows. */
module InlineShape {
  import opened Inline

  // ----- ranges

  datatype Range = Range(start: nat, end: nat)

  ghost predicate IsMark(rich: Rich, m: Range) {
    || (exists s :: s in rich.spans && m == Range(s.start, s.end))
    || (exists l :: l in rich.links && m == Range(l.start, l.end))
  }

  predicate NestedOrApart(a: Range, b: Range) {
    || a.end <= b.start || b.end <= a.start
    || (a.start <= b.start && b.end <= a.end) || (b.start <= a.start && a.end <= b.end)
  }

  /** Every range lies in the text and is not empty, and no two cross. */
  ghost predicate IsWellNested(rich: Rich) {
    && (forall m :: IsMark(rich, m) ==> m.start < m.end <= |rich.text|)
    && (forall m, n :: IsMark(rich, m) && IsMark(rich, n) ==> NestedOrApart(m, n))
  }

  lemma {:induction false} MarksOfJoined(a: Rich, b: Rich, m: Range)
    requires IsMark(Joined(a, b), m)
    ensures IsMark(a, m) || (m.start >= |a.text| && m.end >= |a.text|
                             && IsMark(b, Range(m.start - |a.text|, m.end - |a.text|)))
  {
    var n := |a.text|;
    if s :| s in Joined(a, b).spans && m == Range(s.start, s.end) {
      if s !in a.spans {
        var i :| 0 <= i < |b.spans| && s == MovedSpan(b.spans[i], n);
        assert b.spans[i] in b.spans;
      }
    } else {
      var l :| l in Joined(a, b).links && m == Range(l.start, l.end);
      if l !in a.links {
        var i :| 0 <= i < |b.links| && l == MovedLink(b.links[i], n);
        assert b.links[i] in b.links;
      }
    }
  }

  lemma {:induction false} JoinedMarksNest(a: Rich, b: Rich, m: Range, n: Range)
    requires IsWellNested(a) && IsWellNested(b)
    requires IsMark(Joined(a, b), m) && IsMark(Joined(a, b), n)
    ensures m.start < m.end <= |a.text| + |b.text|
    ensures NestedOrApart(m, n)
  {
    MarksOfJoined(a, b, m);
    MarksOfJoined(a, b, n);
    var k := |a.text|;
    var inM, inN := IsMark(a, m), IsMark(a, n);
    if !inM {
      assert IsMark(b, Range(m.start - k, m.end - k));
    }
    if !inN {
      assert IsMark(b, Range(n.start - k, n.end - k));
    }
    if !inM && !inN {
      assert NestedOrApart(Range(m.start - k, m.end - k), Range(n.start - k, n.end - k));
    }
  }

  lemma {:induction false} JoinedIsWellNested(a: Rich, b: Rich)
    requires IsWellNested(a) && IsWellNested(b)
    ensures IsWellNested(Joined(a, b))
  {
    forall m, n | IsMark(Joined(a, b), m) && IsMark(Joined(a, b), n)
      ensures m.start < m.end <= |Joined(a, b).text| && NestedOrApart(m, n)
    {
      JoinedMarksNest(a, b, m, n);
    }
  }

  /** One more range around everything crosses nothing. */
  lemma {:induction false} WrappedIsWellNested(inner: Rich, outer: Rich)
    requires IsWellNested(inner) && outer.text == inner.text != ""
    requires forall m :: IsMark(outer, m) ==> IsMark(inner, m) || m == Range(0, |inner.text|)
    ensures IsWellNested(outer)
  {
  }

  lemma {:induction false} StyledIsWellNested(inner: Rich, style: Style)
    requires IsWellNested(inner)
    ensures IsWellNested(Styled(inner, style))
  {
    if inner.text != "" {
      WrappedIsWellNested(inner, Styled(inner, style));
    }
  }

  lemma {:induction false} LinkedIsWellNested(inner: Rich, url: string)
    requires IsWellNested(inner)
    ensures IsWellNested(Linked(inner, url))
  {
    if inner.text != "" && IsLinkTarget(url) {
      WrappedIsWellNested(inner, Linked(inner, url));
    }
  }

  lemma {:induction false} ShownIsWellNested(content: string, i: nat, p: Piece, isWord: char -> bool)
    requires i < |content| && IsPieceAt(content, i, p)
    ensures IsWellNested(Shown(content, i, p, isWord))
    decreases |content|, 0
  {
    match p
    case Literal(_, _) =>
    case CodeSpan(from, to, _) =>
      StyledIsWellNested(Rich(content[from..to], [], []), Code);
    case Nested(style, from, to, _) =>
      ParsedIsWellNested(content[from..to], 0, isWord);
      StyledIsWellNested(Parsed(content[from..to], 0, isWord), style);
    case Label(isImage, from, to, url, _) =>
      var inner := Parsed(content[from..to], 0, isWord);
      ParsedIsWellNested(content[from..to], 0, isWord);
      JoinedIsWellNested(Rich(IMAGE, [], []), inner);
      LinkedIsWellNested(if isImage then Joined(Rich(IMAGE, [], []), inner) else inner, url);
    case Bare(from, to, _) =>
  }

  /** Whatever the source, however it nests its delimiters. */
  lemma {:induction false} ParsedIsWellNested(content: string, i: nat, isWord: char -> bool)
    requires i <= |content|
    ensures IsWellNested(Parsed(content, i, isWord))
    decreases |content|, |content| - i
  {
    if i < |content| {
      var p := PieceAt(content, i, isWord);
      ShownIsWellNested(content, i, p, isWord);
      ParsedIsWellNested(content, p.next, isWord);
      JoinedIsWellNested(Shown(content, i, p, isWord), Parsed(content, p.next, isWord));
    }
  }

  // ----- the visible text

  /** `out` is the source with characters left out, and with the image label where the source
      opens an image. */
  predicate IsDrawnFrom(source: string, out: string)
    decreases |source|
  {
    || out == []
    || (source != [] && out[0] == source[0] && IsDrawnFrom(source[1..], out[1..]))
    || (source != [] && IsDrawnFrom(source[1..], out))
    || ("![" <= source && IMAGE <= out && IsDrawnFrom(source[2..], out[|IMAGE|..]))
  }

  lemma {:induction false} DrawnFromRest(a: string, b: string, out: string)
    requires IsDrawnFrom(b, out)
    ensures IsDrawnFrom(a + b, out)
  {
    if a == [] {
      assert a + b == b;
    } else {
      assert (a + b)[1..] == a[1..] + b;
      DrawnFromRest(a[1..], b, out);
    }
  }

  lemma {:induction false} DrawnFromBoth(a: string, x: string, b: string, y: string)
    requires IsDrawnFrom(a, x) && IsDrawnFrom(b, y)
    ensures IsDrawnFrom(a + b, x + y)
    decreases |a|
  {
    if x == [] {
      assert x + y == y;
      DrawnFromRest(a, b, y);
    } else if a[0] == x[0] && IsDrawnFrom(a[1..], x[1..]) {
      assert (a + b)[1..] == a[1..] + b && (x + y)[1..] == x[1..] + y;
      DrawnFromBoth(a[1..], x[1..], b, y);
    } else if IsDrawnFrom(a[1..], x) {
      assert (a + b)[1..] == a[1..] + b;
      DrawnFromBoth(a[1..], x, b, y);
    } else {
      assert (a + b)[2..] == a[2..] + b && (x + y)[|IMAGE|..] == x[|IMAGE|..] + y;
      assert (a + b)[..2] == a[..2] && (x + y)[..|IMAGE|] == x[..|IMAGE|];
      DrawnFromBoth(a[2..], x[|IMAGE|..], b, y);
    }
  }

  lemma {:induction false} DrawnFromPart(before: string, part: string, after: string, out: string)
    requires IsDrawnFrom(part, out)
    ensures IsDrawnFrom(before + part + after, out)
  {
    DrawnFromRest(before, part, out);
    DrawnFromBoth(before + part, out, after, []);
    assert out + [] == out;
  }

  lemma {:induction false} DrawnFromSelf(s: string)
    ensures IsDrawnFrom(s, s)
  {
    if s != [] {
      DrawnFromSelf(s[1..]);
    }
  }

  lemma {:induction false} ImageIsDrawn(opening: string, part: string, after: string, out: string)
    requires opening == "![" && IsDrawnFrom(part, out)
    ensures IsDrawnFrom(opening + part + after, IMAGE + out)
  {
    DrawnFromPart([], part, after, out);
    assert [] + part + after == (opening + part + after)[2..];
    assert (opening + part + after)[..2] == opening;
    assert (IMAGE + out)[|IMAGE|..] == out;
  }

  lemma {:induction false} PartIsDrawn(content: string, i: nat, from: nat, to: nat, next: nat, out: string)
    requires i <= from <= to <= next <= |content| && IsDrawnFrom(content[from..to], out)
    ensures IsDrawnFrom(content[i..next], out)
  {
    DrawnFromPart(content[i..from], content[from..to], content[to..next], out);
    assert content[i..next] == content[i..from] + content[from..to] + content[to..next];
  }

  lemma {:induction false} ImagePartIsDrawn(content: string, i: nat, from: nat, to: nat, next: nat, out: string)
    requires i <= from <= to <= next <= |content| && content[i..from] == "![" && IsDrawnFrom(content[from..to], out)
    ensures IsDrawnFrom(content[i..next], IMAGE + out)
  {
    ImageIsDrawn(content[i..from], content[from..to], content[to..next], out);
    assert content[i..next] == content[i..from] + content[from..to] + content[to..next];
  }

  lemma {:induction false} InnerIsDrawn(content: string, from: nat, to: nat, isWord: char -> bool)
    requires from <= to <= |content| && to - from < |content|
    ensures IsDrawnFrom(content[from..to], Parsed(content[from..to], 0, isWord).text)
    decreases |content|, 0
  {
    var inner := content[from..to];
    ParsedIsDrawn(inner, 0, isWord);
    assert inner[0..] == inner;
  }

  lemma {:induction false} ShownIsDrawn(content: string, i: nat, p: Piece, isWord: char -> bool)
    requires i < |content| && IsPieceAt(content, i, p)
    ensures IsDrawnFrom(content[i..p.next], Shown(content, i, p, isWord).text)
    decreases |content|, 1
  {
    match p
    case Literal(c, next) =>
      DrawnFromSelf([c]);
      assert content[next - 1..next] == [c];
      PartIsDrawn(content, i, next - 1, next, next, [c]);
    case CodeSpan(from, to, next) =>
      DrawnFromSelf(content[from..to]);
      PartIsDrawn(content, i, from, to, next, content[from..to]);
    case Bare(from, to, next) =>
      DrawnFromSelf(content[from..to]);
      PartIsDrawn(content, i, from, to, next, content[from..to]);
    case Nested(_, from, to, next) =>
      InnerIsDrawn(content, from, to, isWord);
      PartIsDrawn(content, i, from, to, next, Parsed(content[from..to], 0, isWord).text);
    case Label(isImage, from, to, _, next) =>
      InnerIsDrawn(content, from, to, isWord);
      if isImage {
        ImagePartIsDrawn(content, i, from, to, next, Parsed(content[from..to], 0, isWord).text);
      } else {
        PartIsDrawn(content, i, from, to, next, Parsed(content[from..to], 0, isWord).text);
      }
  }

  lemma {:induction false} TwoPartsAreDrawn(content: string, i: nat, next: nat, x: string, y: string)
    requires i <= next <= |content| && IsDrawnFrom(content[i..next], x) && IsDrawnFrom(content[next..], y)
    ensures IsDrawnFrom(content[i..], x + y)
  {
    DrawnFromBoth(content[i..next], x, content[next..], y);
    assert content[i..] == content[i..next] + content[next..];
  }

  /** The parser invents nothing and changes no order: what is visible is drawn from the
      source, and the label stands only for the opening of an image. */
  lemma {:induction false} ParsedIsDrawn(content: string, i: nat, isWord: char -> bool)
    requires i <= |content|
    ensures IsDrawnFrom(content[i..], Parsed(content, i, isWord).text)
    decreases |content|, |content| - i + 1
  {
    if i < |content| {
      var p := PieceAt(content, i, isWord);
      ShownIsDrawn(content, i, p, isWord);
      ParsedIsDrawn(content, p.next, isWord);
      TwoPartsAreDrawn(content, i, p.next, Shown(content, i, p, isWord).text, Parsed(content, p.next, isWord).text);
    }
  }
}

/** Inline Markdown: delimiters go, and what they meant is kept as ranges into the visible
    text. Offsets count characters. What counts as a letter or digit is a parameter. */
module Inline {
  import opened Text

  datatype Style = Strong | Emphasis | Code | Strikethrough

  datatype Span = Span(start: nat, end: nat, style: Style)

  datatype Link = Link(start: nat, end: nat, url: string)

  datatype Rich = Rich(text: string, spans: seq<Span>, links: seq<Link>)

  const NOTHING := Rich("", [], [])

  const ESCAPABLE := "\\`*_{}[]()#+-.!>|~"

  const IMAGE := "Image: "

  // ----- searching

  /** The marker stands at `at`, not before `from`. */
  predicate StandsAt(content: string, marker: string, from: nat, at: nat) {
    from <= at && at + |marker| <= |content| && content[at..at + |marker|] == marker
  }

  function Find(content: string, marker: string, from: nat): (at: Option<nat>)
    requires from <= |content|
    ensures at.Some? ==> StandsAt(content, marker, from, at.value)
    decreases |content| - from
  {
    if from + |marker| > |content| then None
    else if content[from..from + |marker|] == marker then Some(from)
    else if from == |content| then None
    else Find(content, marker, from + 1)
  }

  /** How many backslashes stand right before `i`. */
  function Slashes(content: string, i: nat): nat
    requires i <= |content|
  {
    if i > 0 && content[i - 1] == '\\' then 1 + Slashes(content, i - 1) else 0
  }

  function FindUnescaped(content: string, marker: string, from: nat): (at: Option<nat>)
    requires from <= |content| && marker != []
    ensures at.Some? ==> StandsAt(content, marker, from, at.value) && Slashes(content, at.value) % 2 == 0
    decreases |content| - from
  {
    var at := Find(content, marker, from);
    if at.None? || Slashes(content, at.value) % 2 == 0 then at
    else FindUnescaped(content, marker, at.value + |marker|)
  }

  method CountSlashes(content: string, i: nat) returns (n: nat)
    requires i <= |content|
    ensures n == Slashes(content, i)
  {
    n := 0;
    while n < i && content[i - n - 1] == '\\'
      invariant n <= i && n + Slashes(content, i - n) == Slashes(content, i)
    {
      n := n + 1;
    }
  }

  method SearchUnescaped(content: string, marker: string, start: nat) returns (at: Option<nat>)
    requires start <= |content| && marker != []
    ensures at == FindUnescaped(content, marker, start)
  {
    var from := start;
    while from <= |content|
      invariant from <= |content| && FindUnescaped(content, marker, from) == FindUnescaped(content, marker, start)
      decreases |content| - from
    {
      var candidate := Find(content, marker, from);
      if candidate.None? {
        return None;
      }
      var slashes := CountSlashes(content, candidate.value);
      if slashes % 2 == 0 {
        return candidate;
      }
      from := candidate.value + |marker|;
    }
  }

  function FindStrongClose(content: string, marker: string, from: nat): (at: Option<nat>)
    requires from <= |content| && |marker| == 2 && marker[0] == marker[1]
    ensures at.Some? ==> from <= at.value && at.value + 2 <= |content|
  {
    var close := FindUnescaped(content, marker, from);
    if close.Some? && close.value + 2 < |content| && content[close.value + 2] == marker[0]
    then Some(close.value + 1) else close
  }

  function CanOpenEmphasis(content: string, i: nat, isWord: char -> bool): bool
    requires i < |content|
  {
    && i + 1 < |content|
    && !IsBlankChar(content[i + 1])
    && !(content[i] == '_' && i > 0 && isWord(content[i - 1]) && isWord(content[i + 1]))
  }

  /** The delimiter closes: no blank before it, not doubled, not an underscore inside a word. */
  predicate ClosesEmphasis(content: string, at: nat, isWord: char -> bool)
    requires at < |content|
  {
    var next := if at + 1 < |content| then Some(content[at + 1]) else None;
    && at > 0
    && !IsBlankChar(content[at - 1])
    && next != Some(content[at])
    && !(content[at] == '_' && isWord(content[at - 1]) && next.Some? && isWord(next.value))
  }

  function FindEmphasisClose(content: string, marker: char, from: nat, isWord: char -> bool): (at: Option<nat>)
    requires from <= |content|
    ensures at.Some? ==> from <= at.value < |content| && content[at.value] == marker
    decreases |content| - from
  {
    var at := FindUnescaped(content, [marker], from);
    if at.None? then None
    else
      assert content[at.value] == content[at.value..at.value + 1][0];
      if ClosesEmphasis(content, at.value, isWord) then at
      else FindEmphasisClose(content, marker, at.value + 1, isWord)
  }

  method SearchEmphasisClose(content: string, marker: char, start: nat, isWord: char -> bool)
    returns (at: Option<nat>)
    requires start <= |content|
    ensures at == FindEmphasisClose(content, marker, start, isWord)
  {
    var from := start;
    at := SearchUnescaped(content, [marker], from);
    while at.Some?
      invariant from <= |content| && at == FindUnescaped(content, [marker], from)
      invariant FindEmphasisClose(content, marker, from, isWord) == FindEmphasisClose(content, marker, start, isWord)
      decreases |content| - from
    {
      if ClosesEmphasis(content, at.value, isWord) {
        return;
      }
      from := at.value + 1;
      at := SearchUnescaped(content, [marker], from);
    }
  }

  predicate IsLinkTarget(value: string) {
    "https://" <= value || "http://" <= value || "mailto:" <= value
  }

  // ----- what stands at an index

  /** What the text at an index is; `next` is where the text after it begins. */
  datatype Piece =
    | Literal(character: char, next: nat)
    | CodeSpan(from: nat, to: nat, next: nat)
    | Nested(style: Style, from: nat, to: nat, next: nat)
    | Label(isImage: bool, from: nat, to: nat, url: string, next: nat)
    | Bare(from: nat, to: nat, next: nat)

  /** It takes something, all it shows lies in what it takes, and only a plain character stands
      for itself. */
  predicate IsPieceAt(content: string, i: nat, p: Piece) {
    && i < p.next <= |content|
    && match p
       case Literal(c, next) => c == content[next - 1]
       case CodeSpan(from, to, next) => i < from <= to <= next
       case Nested(_, from, to, next) => i < from <= to < next
       case Label(isImage, from, to, _, next) => i < from <= to < next && (isImage ==> content[i..from] == "![")
       case Bare(from, to, next) => i <= from < to <= next
  }

  type Found = Option<Piece>

  function StartsAt(content: string, i: nat, marker: string): bool
    requires i <= |content|
  {
    marker <= content[i..]
  }

  function EscapeAt(content: string, i: nat): (p: Found)
    requires i < |content|
    ensures p.Some? ==> IsPieceAt(content, i, p.value)
  {
    if content[i] == '\\' && i + 1 < |content| && content[i + 1] in ESCAPABLE
    then Some(Literal(content[i + 1], i + 2)) else None
  }

  function Backticks(content: string, i: nat): (n: nat)
    requires i <= |content|
    ensures i + n <= |content|
    decreases |content| - i
  {
    if i < |content| && content[i] == '`' then 1 + Backticks(content, i + 1) else 0
  }

  function CodeAt(content: string, i: nat): (p: Found)
    requires i < |content|
    ensures p.Some? ==> IsPieceAt(content, i, p.value)
  {
    var n := Backticks(content, i);
    if n == 0 then None
    else
      var close := FindUnescaped(content, content[i..i + n], i + n);
      if close.None? then None
      else
        var from, to := i + n, close.value;
        if to - from > 1 && content[from] == ' ' && content[to - 1] == ' '
        then Some(CodeSpan(from + 1, to - 1, to + n))
        else Some(CodeSpan(from, to, to + n))
  }

  function StrongAt(content: string, i: nat): (p: Found)
    requires i < |content|
    ensures p.Some? ==> IsPieceAt(content, i, p.value)
  {
    if StartsAt(content, i, "**") || StartsAt(content, i, "__") then
      var close := FindStrongClose(content, [content[i], content[i]], i + 2);
      if close.Some? then Some(Nested(Strong, i + 2, close.value, close.value + 2)) else None
    else None
  }

  function StrikeAt(content: string, i: nat): (p: Found)
    requires i < |content|
    ensures p.Some? ==> IsPieceAt(content, i, p.value)
  {
    if StartsAt(content, i, "~~") then
      var close := FindUnescaped(content, "~~", i + 2);
      if close.Some? then Some(Nested(Strikethrough, i + 2, close.value, close.value + 2)) else None
    else None
  }

  /** `[caption](url)`, with the bracket at `open`. */
  function LabelAt(content: string, i: nat, open: nat): (p: Found)
    requires i <= open < |content| && (open > i ==> content[i..open + 1] == "![")
    ensures p.Some? ==> IsPieceAt(content, i, p.value) && p.value.Label?
  {
    if content[open] != '[' then None
    else
      var labelEnd := FindUnescaped(content, "](", open + 1);
      if labelEnd.None? then None
      else
        var urlEnd := FindUnescaped(content, ")", labelEnd.value + 2);
        if urlEnd.None? then None
        else Some(Label(open > i, open + 1, labelEnd.value, Trim(content[labelEnd.value + 2..urlEnd.value]),
                        urlEnd.value + 1))
  }

  function ImageAt(content: string, i: nat): (p: Found)
    requires i < |content|
    ensures p.Some? ==> IsPieceAt(content, i, p.value)
  {
    if StartsAt(content, i, "![") then
      assert content[i..i + 2] == "![";
      LabelAt(content, i, i + 1)
    else None
  }

  function LinkAt(content: string, i: nat): (p: Found)
    requires i < |content|
    ensures p.Some? ==> IsPieceAt(content, i, p.value)
  {
    LabelAt(content, i, i)
  }

  function AngleAt(content: string, i: nat): (p: Found)
    requires i < |content|
    ensures p.Some? ==> IsPieceAt(content, i, p.value)
  {
    var close := Find(content, ">", i);
    if content[i] == '<' && close.Some? && close.value > i && IsLinkTarget(content[i + 1..close.value])
    then Some(Bare(i + 1, close.value, close.value + 1)) else None
  }

  /** Where the word that starts at `i` ends: the first blank after its first character. */
  function WordEnd(content: string, i: nat): (end: nat)
    requires i < |content|
    ensures i < end <= |content|
    decreases |content| - i
  {
    if i + 1 == |content| || IsBlankChar(content[i + 1]) then i + 1 else WordEnd(content, i + 1)
  }

  function WithoutPunctuation(content: string, i: nat, end: nat): (e: nat)
    requires i <= end <= |content|
    ensures i <= e <= end
  {
    if end > i && content[end - 1] in ".,;:" then WithoutPunctuation(content, i, end - 1) else end
  }

  function UrlAt(content: string, i: nat): (p: Found)
    requires i < |content|
    ensures p.Some? ==> IsPieceAt(content, i, p.value)
  {
    if StartsAt(content, i, "https://") || StartsAt(content, i, "http://") then
      var end := WithoutPunctuation(content, i, WordEnd(content, i));
      if end > i then Some(Bare(i, end, end)) else None
    else None
  }

  function EmphasisAt(content: string, i: nat, isWord: char -> bool): (p: Found)
    requires i < |content|
    ensures p.Some? ==> IsPieceAt(content, i, p.value)
  {
    if (content[i] == '*' || content[i] == '_') && CanOpenEmphasis(content, i, isWord) then
      var close := FindEmphasisClose(content, content[i], i + 1, isWord);
      if close.Some? then Some(Nested(Emphasis, i + 1, close.value, close.value + 1)) else None
    else None
  }

  function OrElse(first: Found, second: Found): Found {
    if first.Some? then first else second
  }

  /** The first reading that fits; a character that opens nothing stands for itself. */
  function PieceAt(content: string, i: nat, isWord: char -> bool): (p: Piece)
    requires i < |content|
    ensures IsPieceAt(content, i, p)
  {
    var marked := OrElse(EscapeAt(content, i), OrElse(CodeAt(content, i),
                  OrElse(StrongAt(content, i), StrikeAt(content, i))));
    var linked := OrElse(ImageAt(content, i), OrElse(LinkAt(content, i),
                  OrElse(AngleAt(content, i), UrlAt(content, i))));
    var found := OrElse(marked, OrElse(linked, EmphasisAt(content, i, isWord)));
    if found.Some? then found.value else Literal(content[i], i + 1)
  }

  // ----- the parse

  function MovedSpan(s: Span, off: nat): Span {
    s.(start := s.start + off, end := s.end + off)
  }

  function MovedLink(l: Link, off: nat): Link {
    l.(start := l.start + off, end := l.end + off)
  }

  function MovedSpans(spans: seq<Span>, off: nat): seq<Span> {
    seq(|spans|, i requires 0 <= i < |spans| => MovedSpan(spans[i], off))
  }

  function MovedLinks(links: seq<Link>, off: nat): seq<Link> {
    seq(|links|, i requires 0 <= i < |links| => MovedLink(links[i], off))
  }

  function Joined(a: Rich, b: Rich): Rich {
    Rich(a.text + b.text, a.spans + MovedSpans(b.spans, |a.text|), a.links + MovedLinks(b.links, |a.text|))
  }

  function Styled(inner: Rich, style: Style): Rich {
    if inner.text == "" then inner else inner.(spans := inner.spans + [Span(0, |inner.text|, style)])
  }

  function Linked(inner: Rich, url: string): Rich {
    if inner.text == "" || !IsLinkTarget(url) then inner
    else inner.(links := inner.links + [Link(0, |inner.text|, url)])
  }

  function Shown(content: string, i: nat, p: Piece, isWord: char -> bool): Rich
    requires i < |content| && IsPieceAt(content, i, p)
    decreases |content|, 0
  {
    match p
    case Literal(c, _) => Rich([c], [], [])
    case CodeSpan(from, to, _) => Styled(Rich(content[from..to], [], []), Code)
    case Nested(style, from, to, _) => Styled(Parsed(content[from..to], 0, isWord), style)
    case Label(isImage, from, to, url, _) =>
      var caption := Parsed(content[from..to], 0, isWord);
      Linked(if isImage then Joined(Rich(IMAGE, [], []), caption) else caption, url)
    case Bare(from, to, _) => Rich(content[from..to], [], [Link(0, to - from, content[from..to])])
  }

  function Parsed(content: string, i: nat, isWord: char -> bool): Rich
    requires i <= |content|
    decreases |content|, |content| - i
  {
    if i == |content| then NOTHING
    else
      var p := PieceAt(content, i, isWord);
      Joined(Shown(content, i, p, isWord), Parsed(content, p.next, isWord))
  }

  method AppendLiteral(output: Rich, text: string, style: Style) returns (out: Rich)
    ensures out == Joined(output, Styled(Rich(text, [], []), style))
  {
    var start := |output.text|;
    out := output.(text := output.text + text);
    if start < |out.text| {
      out := out.(spans := out.spans + [Span(start, |out.text|, style)]);
    }
  }

  lemma {:induction false} JoinedIsAssociative(a: Rich, b: Rich, c: Rich)
    ensures Joined(Joined(a, b), c) == Joined(a, Joined(b, c))
  {
    var left, right := Joined(Joined(a, b), c), Joined(a, Joined(b, c));
    assert left.text == right.text;
    assert left.spans == right.spans;
    assert left.links == right.links;
  }

  lemma {:induction false} JoinedWithNothing(a: Rich)
    ensures Joined(a, NOTHING) == a
  {
    assert a.text + "" == a.text && a.spans + [] == a.spans && a.links + [] == a.links;
  }

  lemma {:induction false} StyledThere(output: Rich, inner: Rich, style: Style)
    ensures var out := Joined(output, inner);
      Joined(output, Styled(inner, style))
      == if inner.text == "" then out else out.(spans := out.spans + [Span(|output.text|, |out.text|, style)])
  {
    if inner.text != "" {
      var out := Joined(output, inner);
      assert Joined(output, Styled(inner, style)).spans == out.spans + [Span(|output.text|, |out.text|, style)];
    }
  }

  lemma {:induction false} LinkedThere(output: Rich, inner: Rich, url: string)
    ensures var out := Joined(output, inner);
      Joined(output, Linked(inner, url))
      == if inner.text == "" || !IsLinkTarget(url) then out
         else out.(links := out.links + [Link(|output.text|, |out.text|, url)])
  {
    if inner.text != "" && IsLinkTarget(url) {
      var out := Joined(output, inner);
      assert Joined(output, Linked(inner, url)).links == out.links + [Link(|output.text|, |out.text|, url)];
    }
  }

  method AppendNested(output: Rich, text: string, style: Style, isWord: char -> bool) returns (out: Rich)
    ensures out == Joined(output, Styled(Parsed(text, 0, isWord), style))
    decreases |text|, 2
  {
    StyledThere(output, Parsed(text, 0, isWord), style);
    var start := |output.text|;
    out := ParseInlineInto(text, output, isWord);
    if start < |out.text| {
      out := out.(spans := out.spans + [Span(start, |out.text|, style)]);
    }
  }

  method AppendLabel(output: Rich, isImage: bool, caption: string, url: string, isWord: char -> bool)
    returns (out: Rich)
    ensures out == Joined(output, Linked(
      if isImage then Joined(Rich(IMAGE, [], []), Parsed(caption, 0, isWord)) else Parsed(caption, 0, isWord), url))
    decreases |caption|, 2
  {
    ghost var parsed := Parsed(caption, 0, isWord);
    ghost var inner := if isImage then Joined(Rich(IMAGE, [], []), parsed) else parsed;
    LinkedThere(output, inner, url);
    var start := |output.text|;
    out := output;
    if isImage {
      out := out.(text := out.text + IMAGE);
      assert out == Joined(output, Rich(IMAGE, [], []));
      JoinedIsAssociative(output, Rich(IMAGE, [], []), Parsed(caption, 0, isWord));
    }
    out := ParseInlineInto(caption, out, isWord);
    assert out == Joined(output, inner);
    if start < |out.text| && IsLinkTarget(url) {
      out := out.(links := out.links + [Link(start, |out.text|, url)]);
    }
  }

  method AppendPiece(output: Rich, content: string, i: nat, p: Piece, isWord: char -> bool) returns (out: Rich)
    requires i < |content| && IsPieceAt(content, i, p)
    ensures out == Joined(output, Shown(content, i, p, isWord))
    decreases |content|, 0
  {
    match p
    case Literal(c, _) =>
      out := output.(text := output.text + [c]);
    case CodeSpan(from, to, _) =>
      out := AppendLiteral(output, content[from..to], Code);
    case Nested(style, from, to, _) =>
      out := AppendNested(output, content[from..to], style, isWord);
    case Label(isImage, from, to, url, _) =>
      out := AppendLabel(output, isImage, content[from..to], url, isWord);
    case Bare(from, to, _) =>
      var start := |output.text|;
      out := output.(text := output.text + content[from..to]);
      out := out.(links := out.links + [Link(start, |out.text|, content[from..to])]);
  }

  method ParseInlineInto(content: string, output: Rich, isWord: char -> bool) returns (out: Rich)
    ensures out == Joined(output, Parsed(content, 0, isWord))
    decreases |content|, 1
  {
    out := output;
    var index := 0;
    while index < |content|
      invariant index <= |content|
      invariant Joined(out, Parsed(content, index, isWord)) == Joined(output, Parsed(content, 0, isWord))
    {
      var piece := PieceAt(content, index, isWord);
      JoinedIsAssociative(out, Shown(content, index, piece, isWord), Parsed(content, piece.next, isWord));
      out := AppendPiece(out, content, index, piece, isWord);
      index := piece.next;
    }
    JoinedWithNothing(out);
  }
}

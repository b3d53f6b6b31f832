/** Printing marked-up text and parsing it: what each marker means, and where it means it. */
module InlineRoundTrip {
  import opened Text
  import opened Inline
  import opened Escaping

  /** A line of text, piece by piece. */
  datatype Tree =
    | End
    | Words(text: string, next: Tree)
    | Marked(style: Style, marker: char, inner: Tree, next: Tree)
    | Verbatim(text: string, next: Tree)
    | Labelled(isImage: bool, inner: Tree, url: string, next: Tree)
    | Angled(url: string, next: Tree)
    | Address(url: string, next: Tree)

  // ----- printing

  /** Strong text and struck text double their marker. */
  function Marker(style: Style, c: char): string {
    if style == Emphasis then [c] else [c, c]
  }

  /** Code that begins and ends with a blank is written with one more on either side. */
  function Padded(code: string): string {
    if |code| > 1 && code[0] == ' ' && code[|code| - 1] == ' ' then " " + code + " " else code
  }

  function Opening(t: Tree): string {
    match t
    case Marked(style, marker, _, _) => Marker(style, marker)
    case Verbatim(_, _) => "`"
    case Labelled(isImage, _, _, _) => if isImage then "![" else "["
    case Angled(_, _) => "<"
    case _ => ""
  }

  function Body(t: Tree): string
    decreases t, 0
  {
    match t
    case End => ""
    case Words(text, _) => Escaped(text)
    case Marked(_, _, inner, _) => Print(inner)
    case Verbatim(text, _) => Padded(text)
    case Labelled(_, inner, _, _) => Print(inner)
    case Angled(url, _) => url
    case Address(url, _) => url
  }

  function Closing(t: Tree): string {
    match t
    case Marked(style, marker, _, _) => Marker(style, marker)
    case Verbatim(_, _) => "`"
    case Labelled(_, _, url, _) => "](" + url + ")"
    case Angled(_, _) => ">"
    case _ => ""
  }

  function Print(t: Tree): string
    decreases t, 1
  {
    if t.End? then "" else Opening(t) + Body(t) + Closing(t) + Print(t.next)
  }

  // ----- what is to be seen

  function OwnText(t: Tree): string
    decreases t, 0
  {
    match t
    case End => ""
    case Words(text, _) => text
    case Marked(_, _, inner, _) => TextOf(inner)
    case Verbatim(text, _) => text
    case Labelled(isImage, inner, _, _) => (if isImage then "Image: " else "") + TextOf(inner)
    case Angled(url, _) => url
    case Address(url, _) => url
  }

  function TextOf(t: Tree): string
    decreases t, 1
  {
    if t.End? then "" else OwnText(t) + TextOf(t.next)
  }

  /** The styles of the piece, for a text that begins at `off`. */
  function OwnSpans(t: Tree, off: nat): seq<Span>
    decreases t, 0
  {
    match t
    case Marked(style, _, inner, _) => SpansOf(inner, off) + [Span(off, off + |TextOf(inner)|, style)]
    case Verbatim(text, _) => [Span(off, off + |text|, Code)]
    case Labelled(isImage, inner, _, _) => SpansOf(inner, if isImage then off + |"Image: "| else off)
    case _ => []
  }

  function SpansOf(t: Tree, off: nat): seq<Span>
    decreases t, 1
  {
    if t.End? then [] else OwnSpans(t, off) + SpansOf(t.next, off + |OwnText(t)|)
  }

  function OwnLinks(t: Tree, off: nat): seq<Link>
    decreases t, 0
  {
    match t
    case Marked(_, _, inner, _) => LinksOf(inner, off)
    case Labelled(isImage, inner, url, _) =>
      LinksOf(inner, if isImage then off + |"Image: "| else off)
      + if NamesAPlace(url) && OwnText(t) != "" then [Link(off, off + |OwnText(t)|, url)] else []
    case Angled(url, _) => [Link(off, off + |url|, url)]
    case Address(url, _) => [Link(off, off + |url|, url)]
    case _ => []
  }

  function LinksOf(t: Tree, off: nat): seq<Link>
    decreases t, 1
  {
    if t.End? then [] else OwnLinks(t, off) + LinksOf(t.next, off + |OwnText(t)|)
  }

  // ----- what can be printed

  predicate NamesAPlace(url: string) {
    (|url| >= 7 && (url[..7] == "http://" || url[..7] == "mailto:")) || (|url| >= 8 && url[..8] == "https://")
  }

  lemma TargetsNameAPlace(url: string)
    ensures IsLinkTarget(url) <==> NamesAPlace(url)
  {
    assert |url| >= 7 ==> url[..7] <= url;
    assert |url| >= 8 ==> url[..8] <= url;
  }

  /** Every such character in the text has a backslash of its own before it. */
  predicate IsGuarded(s: string, c: char) {
    forall k {:trigger Slashes(s, k)} :: 0 <= k < |s| && s[k] == c ==> Slashes(s, k) % 2 == 1
  }

  predicate EndsEven(s: string) {
    Slashes(s, |s|) % 2 == 0
  }

  /** No bare address opens in the text, with what follows it. */
  predicate WordsFit(text: string, after: string) {
    text == [] || (!OpensAddress(Escaped(text) + after) && WordsFit(text[1..], after))
  }

  predicate EmphasisFits(c: char, before: string, body: string, after: string, isWord: char -> bool)
    requires body != []
  {
    var first, last := body[0], body[|body| - 1];
    && !IsBlankChar(first) && !IsBlankChar(last) && (after == [] || after[0] != c)
    && (c == '_' ==>
          && !(before != [] && isWord(before[|before| - 1]) && isWord(first))
          && !(isWord(last) && after != [] && isWord(after[0])))
  }

  /** Emphasis all through, with the same marker: with strong text around it there are three. */
  predicate IsAllEmphasis(body: string, c: char) {
    && |body| > 2 && body[0] == c && body[|body| - 1] == c
    && var core := body[1..|body| - 1];
      core[|core| - 1] != c && IsGuarded(core, c) && EndsEven(core)
  }

  /** The marker is one of the style's, does not stand in the text or at its end, and is not
      doubled by what follows. */
  predicate MarkFits(style: Style, c: char, before: string, body: string, after: string, isWord: char -> bool) {
    && (if style == Strikethrough then c == '~' else style != Code && (c == '*' || c == '_'))
    && body != []
    && if style == Strong && IsAllEmphasis(body, c) then true
       else
         IsGuarded(body, c)
         && if style == Emphasis then EmphasisFits(c, before, body, after, isWord)
            else body[|body| - 1] != c && (style == Strong ==> after == [] || after[0] != c)
  }

  predicate CodeFits(text: string) {
    text != [] && '`' !in text && EndsEven(Padded(text))
  }

  predicate UrlFits(url: string) {
    Trim(url) == url && IsGuarded(url, ')') && EndsEven(url)
  }

  function Stops(s: string): (n: nat)
    ensures n <= |s| && forall k :: 0 <= k < n ==> s[k] in ".,;:"
  {
    if s != [] && s[0] in ".,;:" then 1 + Stops(s[1..]) else 0
  }

  /** A bare address goes on up to a blank, without the stops before it. */
  predicate AddressFits(url: string, after: string) {
    && ("https://" <= url || "http://" <= url) && EndsEven(url)
    && (forall c :: c in url ==> !IsBlankChar(c)) && url[|url| - 1] !in ".,;:"
    && (Stops(after) == |after| || IsBlankChar(after[Stops(after)]))
  }

  predicate PieceFits(t: Tree, before: string, isWord: char -> bool) {
    match t
    case End => true
    case Words(text, next) => WordsFit(text, Print(next))
    case Marked(style, c, inner, next) =>
      TextOf(inner) != "" && MarkFits(style, c, before, Print(inner), Print(next), isWord)
    case Verbatim(text, _) => CodeFits(text)
    case Labelled(_, inner, url, _) => IsGuarded(Print(inner), ']') && UrlFits(url)
    case Angled(url, _) => NamesAPlace(url) && '>' !in url
    case Address(url, next) => AddressFits(url, Print(next))
  }

  /** Every piece can be printed where it stands, after `before`. */
  predicate Fits(t: Tree, before: string, isWord: char -> bool) {
    t.End?
    || (&& PieceFits(t, before, isWord)
        && (t.Marked? || t.Labelled? ==> Fits(t.inner, "", isWord))
        && Fits(t.next, before + Opening(t) + Body(t) + Closing(t), isWord))
  }

  // ----- backslashes

  lemma {:induction false} SlashesOfPart(content: string, from: nat, body: string, k: nat)
    requires from + |body| <= |content| && content[from..from + |body|] == body && k <= |body|
    requires from == 0 || content[from - 1] != '\\'
    ensures Slashes(content, from + k) == Slashes(body, k)
  {
    if k > 0 {
      assert content[from + k - 1] == body[k - 1];
      SlashesOfPart(content, from, body, k - 1);
    }
  }

  /** An even run of backslashes before a text does not count in it. */
  lemma {:induction false} ParityJoins(a: string, b: string, k: nat)
    requires EndsEven(a) && k <= |b|
    ensures Slashes(a + b, |a| + k) % 2 == Slashes(b, k) % 2
  {
    var all := a + b;
    if k == 0 {
      SlashesOfPart(all, 0, a, |a|);
    } else {
      assert all[|a| + k - 1] == b[k - 1];
      ParityJoins(a, b, k - 1);
    }
  }

  lemma {:induction false} EvenJoins(a: string, b: string)
    requires EndsEven(a) && EndsEven(b)
    ensures EndsEven(a + b)
  {
    ParityJoins(a, b, |b|);
  }

  lemma EndsInOther(a: string)
    requires a != [] ==> a[|a| - 1] != '\\'
    ensures EndsEven(a)
  {
  }

  lemma EscapeEndsEven(c: char)
    ensures EndsEven(['\\', c]) && (c != '\\' ==> EndsEven([c]))
  {
    assert Slashes(['\\', c], 1) == 1;
  }

  lemma {:induction false} EscapedEndsEven(s: string)
    ensures EndsEven(Escaped(s))
  {
    if s != [] {
      var first := if s[0] in ESCAPABLE then ['\\', s[0]] else [s[0]];
      assert '\\' in ESCAPABLE;
      EscapeEndsEven(s[0]);
      EscapedEndsEven(s[1..]);
      EvenJoins(first, Escaped(s[1..]));
    }
  }

  lemma {:induction false} PieceEndsEven(t: Tree, before: string, isWord: char -> bool)
    requires !t.End? && PieceFits(t, before, isWord)
    ensures EndsEven(Opening(t) + Body(t) + Closing(t))
  {
    match t
    case Words(text, _) =>
      EscapedEndsEven(text);
      assert "" + Body(t) + "" == Body(t);
    case Address(url, _) =>
      assert "" + Body(t) + "" == Body(t);
    case _ =>
      EndsInOther(Opening(t) + Body(t) + Closing(t));
  }

  lemma {:induction false} PrintEndsEven(t: Tree, before: string, isWord: char -> bool)
    requires Fits(t, before, isWord)
    ensures EndsEven(Print(t))
  {
    if !t.End? {
      PieceEndsEven(t, before, isWord);
      PrintEndsEven(t.next, before + Opening(t) + Body(t) + Closing(t), isWord);
      EvenJoins(Opening(t) + Body(t) + Closing(t), Print(t.next));
    }
  }

  // ----- searching

  predicate Stands(content: string, marker: string, at: nat) {
    at + |marker| <= |content| && content[at..at + |marker|] == marker
  }

  lemma {:induction false} FindSpec(content: string, marker: string, from: nat)
    requires from <= |content| && marker != []
    ensures var at := Find(content, marker, from);
      forall k :: from <= k < (if at.Some? then at.value else |content|) ==> !Stands(content, marker, k)
    decreases |content| - from
  {
    if from + |marker| <= |content| && !Stands(content, marker, from) {
      FindSpec(content, marker, from + 1);
    }
  }

  lemma {:induction false} FindsFirst(content: string, marker: string, from: nat, close: nat)
    requires from <= close && marker != [] && Stands(content, marker, close)
    requires forall k :: from <= k < close ==> !Stands(content, marker, k)
    ensures Find(content, marker, from) == Some(close)
  {
    FindsNoLater(content, marker, from, close);
  }

  lemma {:induction false} FindsNoLater(content: string, marker: string, from: nat, close: nat)
    requires from <= close && marker != [] && Stands(content, marker, close)
    ensures var at := Find(content, marker, from);
      at.Some? && from <= at.value <= close && Stands(content, marker, at.value)
  {
    FindSpec(content, marker, from);
  }

  /** The marker stands at `close`, and before that only after backslashes. */
  predicate IsClose(content: string, marker: string, from: nat, close: nat) {
    && 1 <= |marker| <= 2 && from <= close && Stands(content, marker, close)
    && Slashes(content, close) % 2 == 0
    && (forall k {:trigger Slashes(content, k)} ::
          from <= k < close && content[k] == marker[0] ==> Slashes(content, k) % 2 == 1)
    && (|marker| == 2 && marker[0] == marker[1] && from < close ==> content[close - 1] != marker[0])
  }

  lemma {:induction false} StandsFirst(content: string, marker: string, at: nat)
    requires marker != [] && Stands(content, marker, at)
    ensures content[at] == marker[0] && (|marker| > 1 ==> content[at + 1] == marker[1])
  {
    assert content[at] == content[at..at + |marker|][0];
    assert |marker| > 1 ==> content[at + 1] == content[at..at + |marker|][1];
  }

  /** A marker that is skipped ends before the close. */
  lemma {:induction false} SkippedEndsBefore(content: string, marker: string, from: nat, close: nat, at: nat)
    requires IsClose(content, marker, from, close) && from <= at < close && Stands(content, marker, at)
    ensures at + |marker| <= close && Slashes(content, at) % 2 == 1
    ensures IsClose(content, marker, at + |marker|, close)
  {
    StandsFirst(content, marker, at);
    StandsFirst(content, marker, close);
  }

  lemma {:induction false} FoundUnescaped(content: string, marker: string, from: nat, at: nat)
    requires from <= |content| && marker != [] && Find(content, marker, from) == Some(at)
    requires Slashes(content, at) % 2 == 0
    ensures FindUnescaped(content, marker, from) == Some(at)
  {
  }

  lemma {:induction false} SkipGoesOn(content: string, marker: string, from: nat, at: nat)
    requires from <= |content| && marker != [] && Find(content, marker, from) == Some(at)
    requires Slashes(content, at) % 2 == 1
    ensures FindUnescaped(content, marker, from) == FindUnescaped(content, marker, at + |marker|)
  {
  }

  lemma {:induction false} ClosesAfterSkip(content: string, marker: string, from: nat, close: nat, at: nat)
    requires IsClose(content, marker, from, close) && from <= at < close
    requires Stands(content, marker, at) && Find(content, marker, from) == Some(at)
    ensures from < at + |marker| <= close && IsClose(content, marker, at + |marker|, close)
    ensures FindUnescaped(content, marker, from) == FindUnescaped(content, marker, at + |marker|)
  {
    SkippedEndsBefore(content, marker, from, close, at);
    SkipGoesOn(content, marker, from, at);
  }

  lemma {:induction false} FindsClose(content: string, marker: string, from: nat, close: nat)
    requires IsClose(content, marker, from, close)
    ensures FindUnescaped(content, marker, from) == Some(close)
    decreases close - from
  {
    FindsNoLater(content, marker, from, close);
    var at := Find(content, marker, from).value;
    if at < close {
      ClosesAfterSkip(content, marker, from, close, at);
      FindsClose(content, marker, at + |marker|, close);
    } else {
      FoundUnescaped(content, marker, from, at);
    }
  }

  // ----- one piece

  /** `content` is these five parts, and the piece stands at `i`. */
  predicate IsLaidOut(content: string, before: string, open: string, body: string, close: string, after: string) {
    content == before + open + body + close + after
  }

  lemma LaidOut(content: string, before: string, open: string, body: string, close: string, after: string)
    requires IsLaidOut(content, before, open, body, close, after)
    ensures var i, from, to := |before|, |before| + |open|, |before| + |open| + |body|;
      && to + |close| <= |content|
      && Stands(content, open, i) && Stands(content, close, to) && content[from..to] == body
      && content[..i] == before && content[to + |close|..] == after && content[i..] == open + body + close + after
  {
  }

  lemma {:induction false} BodyIsClosed(content: string, before: string, open: string, body: string, close: string,
                                         after: string, c: char)
    requires IsLaidOut(content, before, open, body, close, after)
    requires open != [] && open[|open| - 1] != '\\' && 1 <= |close| && EndsEven(body)
    requires close[0] == c && IsGuarded(body, c)
    requires |close| >= 2 && close[1] == c && body != [] ==> body[|body| - 1] != c
    ensures var from, to := |before| + |open|, |before| + |open| + |body|;
      IsClose(content, if |close| > 1 then close[..2] else close, from, to)
  {
    var from, to := |before| + |open|, |before| + |open| + |body|;
    LaidOut(content, before, open, body, close, after);
    assert content[from - 1] == open[|open| - 1];
    SlashesOfPart(content, from, body, |body|);
    forall k | from <= k < to && content[k] == c ensures Slashes(content, k) % 2 == 1 {
      SlashesOfPart(content, from, body, k - from);
      assert body[k - from] == content[k];
    }
    if |close| > 1 {
      assert content[to..to + 2] == close[..2];
    }
    if body != [] {
      assert content[to - 1] == body[|body| - 1];
    }
  }

  lemma {:induction false} BodyEnds(content: string, before: string, open: string, body: string, close: string,
                                     after: string, marker: string)
    requires IsLaidOut(content, before, open, body, close, after)
    requires open != [] && open[|open| - 1] != '\\' && EndsEven(body)
    requires close != [] && marker == (if |close| > 1 then close[..2] else close) && IsGuarded(body, marker[0])
    requires |marker| == 2 && marker[1] == marker[0] && body != [] ==> body[|body| - 1] != marker[0]
    ensures var from, to := |before| + |open|, |before| + |open| + |body|;
      to + |close| <= |content| && FindUnescaped(content, marker, from) == Some(to)
  {
    BodyIsClosed(content, before, open, body, close, after, marker[0]);
    FindsClose(content, marker, |before| + |open|, |before| + |open| + |body|);
  }

  lemma OpeningStands(content: string, before: string, open: string, body: string, close: string, after: string)
    requires IsLaidOut(content, before, open, body, close, after)
    ensures Stands(content, open, |before|)
  {
    LaidOut(content, before, open, body, close, after);
  }

  lemma AfterStands(content: string, before: string, open: string, body: string, close: string, after: string)
    requires IsLaidOut(content, before, open, body, close, after)
    ensures var end := |before| + |open| + |body| + |close|;
      end <= |content| && if after == [] then end == |content| else end < |content| && content[end] == after[0]
  {
  }

  // ----- what stands, and what it is read as

  predicate Opens(content: string, i: nat, c: char) {
    i < |content| && content[i] == c
  }

  lemma {:induction false} GuardedStart(body: string, c: char)
    requires body != [] && IsGuarded(body, c)
    ensures body[0] != c
  {
    assert Slashes(body, 0) == 0;
  }

  /** Nothing but a mark fits at a marker. */
  lemma {:induction false} MarkerIsNoOther(content: string, i: nat)
    requires i < |content| && content[i] in "*_~"
    ensures EscapeAt(content, i) == None && CodeAt(content, i) == None
    ensures ImageAt(content, i) == None && LinkAt(content, i) == None
    ensures AngleAt(content, i) == None && UrlAt(content, i) == None
  {
    assert content[i..][0] == content[i];
  }

  predicate IsStrong(content: string, i: nat, c: char, to: nat) {
    && (c == '*' || c == '_') && Stands(content, [c, c], i) && i + 2 <= to && to + 2 <= |content|
    && FindStrongClose(content, [c, c], i + 2) == Some(to)
  }

  lemma {:induction false} StrongStands(content: string, before: string, c: char, body: string, after: string,
                                        isWord: char -> bool)
    requires IsLaidOut(content, before, [c, c], body, [c, c], after) && EndsEven(body)
    requires MarkFits(Strong, c, before, body, after, isWord)
    ensures IsStrong(content, |before|, c, |before| + 2 + |body|)
  {
    if IsAllEmphasis(body, c) {
      ThreeStand(content, before, c, body[1..|body| - 1], body, after, |before|, |before| + 1 + |body|);
    } else {
      TwoStand(content, before, c, body, after);
    }
  }

  lemma FindsOneLater(content: string, c: char, from: nat)
    requires from + 1 < |content| && content[from + 1] != c
    ensures FindUnescaped(content, [c, c], from) == FindUnescaped(content, [c, c], from + 1)
  {
    assert content[from..from + 2][1] == content[from + 1];
  }

  lemma {:induction false} ThreeLieThere(content: string, before: string, c: char, core: string, body: string,
                                         after: string, i: nat, to: nat)
    requires IsLaidOut(content, before, [c, c], body, [c, c], after) && body == [c] + core + [c]
    requires i == |before| && to == i + 3 + |core|
    ensures IsLaidOut(content, before, [c, c, c], core, [c, c, c], after)
    ensures to + 3 <= |content| && content[to + 2] == c && content[i + 3..to] == core
  {
    assert content == before + [c, c, c] + core + [c, c, c] + after;
  }

  lemma {:induction false} ThreeEnd(content: string, before: string, c: char, core: string, after: string, i: nat,
                                    to: nat)
    requires IsLaidOut(content, before, [c, c, c], core, [c, c, c], after) && i == |before| && to == i + 3 + |core|
    requires c != '\\' && core != [] && core[|core| - 1] != c && IsGuarded(core, c) && EndsEven(core)
    ensures i + 3 <= |content| && FindUnescaped(content, [c, c], i + 3) == Some(to)
  {
    assert [c, c, c][..2] == [c, c];
    BodyEnds(content, before, [c, c, c], core, [c, c, c], after, [c, c]);
  }

  /** Of three closing markers the first is that of the emphasis. */
  lemma {:induction false} ThreeStand(content: string, before: string, c: char, core: string, body: string,
                                      after: string, i: nat, to: nat)
    requires IsLaidOut(content, before, [c, c], body, [c, c], after) && body == [c] + core + [c]
    requires (c == '*' || c == '_') && core != [] && core[|core| - 1] != c && IsGuarded(core, c) && EndsEven(core)
    requires i == |before| && to == i + 3 + |core|
    ensures IsStrong(content, i, c, to + 1)
  {
    hide FindUnescaped;
    OpeningStands(content, before, [c, c], body, [c, c], after);
    ThreeLieThere(content, before, c, core, body, after, i, to);
    hide IsLaidOut;
    GuardedStart(core, c);
    assert content[i + 3] == content[i + 3..to][0];
    FindsOneLater(content, c, i + 2);
    ThreeEnd(content, before, c, core, after, i, to);
  }

  lemma {:induction false} TwoStand(content: string, before: string, c: char, body: string, after: string)
    requires IsLaidOut(content, before, [c, c], body, [c, c], after) && EndsEven(body) && body != []
    requires (c == '*' || c == '_') && IsGuarded(body, c) && body[|body| - 1] != c && (after == [] || after[0] != c)
    ensures IsStrong(content, |before|, c, |before| + 2 + |body|)
  {
    assert [c, c][..2] == [c, c];
    BodyEnds(content, before, [c, c], body, [c, c], after, [c, c]);
    OpeningStands(content, before, [c, c], body, [c, c], after);
    AfterStands(content, before, [c, c], body, [c, c], after);
    StrongCloses(content, c, |before| + 2, |before| + 2 + |body|);
  }

  lemma StrongCloses(content: string, c: char, from: nat, to: nat)
    requires from <= to && to + 2 <= |content| && FindUnescaped(content, [c, c], from) == Some(to)
    requires to + 2 < |content| ==> content[to + 2] != c
    ensures FindStrongClose(content, [c, c], from) == Some(to)
  {
  }

  lemma {:induction false} StrongIsRead(content: string, i: nat, c: char, to: nat, isWord: char -> bool)
    requires IsStrong(content, i, c, to)
    ensures PieceAt(content, i, isWord) == Nested(Strong, i + 2, to, to + 2)
  {
    StandsFirst(content, [c, c], i);
    MarkerIsNoOther(content, i);
    assert [c, c] <= content[i..];
    assert StartsAt(content, i, "**") || StartsAt(content, i, "__");
  }

  predicate IsStruck(content: string, i: nat, to: nat) {
    Stands(content, "~~", i) && i + 2 <= to && to + 2 <= |content| && FindUnescaped(content, "~~", i + 2) == Some(to)
  }

  lemma {:induction false} StruckStands(content: string, before: string, body: string, after: string,
                                        isWord: char -> bool)
    requires IsLaidOut(content, before, "~~", body, "~~", after) && EndsEven(body)
    requires MarkFits(Strikethrough, '~', before, body, after, isWord)
    ensures IsStruck(content, |before|, |before| + 2 + |body|)
  {
    assert "~~"[..2] == "~~";
    BodyEnds(content, before, "~~", body, "~~", after, "~~");
    OpeningStands(content, before, "~~", body, "~~", after);
  }

  lemma {:induction false} StruckIsRead(content: string, i: nat, to: nat, isWord: char -> bool)
    requires IsStruck(content, i, to)
    ensures PieceAt(content, i, isWord) == Nested(Strikethrough, i + 2, to, to + 2)
  {
    StandsFirst(content, "~~", i);
    MarkerIsNoOther(content, i);
    assert "~~" <= content[i..] && content[i..][0] == '~';
  }

  predicate IsEmphasis(content: string, i: nat, c: char, to: nat, isWord: char -> bool) {
    && i + 1 < to < |content| && content[i] == c && (c == '*' || c == '_') && content[i + 1] != c
    && CanOpenEmphasis(content, i, isWord)
    && FindEmphasisClose(content, c, i + 1, isWord) == Some(to)
  }

  lemma {:induction false} EmphasisEdges(content: string, before: string, c: char, body: string, after: string,
                                         isWord: char -> bool)
    requires IsLaidOut(content, before, [c], body, [c], after)
    requires MarkFits(Emphasis, c, before, body, after, isWord)
    ensures var i, to := |before|, |before| + 1 + |body|;
      && i + 1 < to < |content| && content[i] == c == content[to] && content[i + 1] != c
      && CanOpenEmphasis(content, i, isWord) && ClosesEmphasis(content, to, isWord)
  {
    var i, to := |before|, |before| + 1 + |body|;
    GuardedStart(body, c);
    assert content[i] == c == content[to] && content[i + 1] == body[0] && content[to - 1] == body[|body| - 1];
    assert before != [] ==> content[i - 1] == before[|before| - 1];
    assert after != [] ==> content[to + 1] == after[0];
  }

  lemma {:induction false} EmphasisCloses(content: string, c: char, from: nat, to: nat, isWord: char -> bool)
    requires from <= to < |content| && FindUnescaped(content, [c], from) == Some(to)
    requires ClosesEmphasis(content, to, isWord)
    ensures FindEmphasisClose(content, c, from, isWord) == Some(to)
  {
  }

  lemma {:induction false} EmphasisStands(content: string, before: string, c: char, body: string, after: string,
                                          isWord: char -> bool)
    requires IsLaidOut(content, before, [c], body, [c], after) && EndsEven(body)
    requires MarkFits(Emphasis, c, before, body, after, isWord)
    ensures IsEmphasis(content, |before|, c, |before| + 1 + |body|, isWord)
  {
    var i, to := |before|, |before| + 1 + |body|;
    BodyEnds(content, before, [c], body, [c], after, [c]);
    EmphasisEdges(content, before, c, body, after, isWord);
    EmphasisCloses(content, c, i + 1, to, isWord);
  }

  lemma {:induction false} EmphasisIsRead(content: string, i: nat, c: char, to: nat, isWord: char -> bool)
    requires IsEmphasis(content, i, c, to, isWord)
    ensures PieceAt(content, i, isWord) == Nested(Emphasis, i + 1, to, to + 1)
  {
    MarkerIsNoOther(content, i);
    assert content[i..][0] == content[i] && content[i..][1] == content[i + 1];
    assert StrongAt(content, i) == None && StrikeAt(content, i) == None;
  }

  predicate IsCode(content: string, i: nat, to: nat) {
    && i + 1 < to < |content| && content[i] == '`' && content[i + 1] != '`'
    && FindUnescaped(content, "`", i + 1) == Some(to)
  }

  lemma {:induction false} CodeStands(content: string, before: string, body: string, after: string)
    requires IsLaidOut(content, before, "`", body, "`", after)
    requires body != [] && '`' !in body && EndsEven(body)
    ensures IsCode(content, |before|, |before| + 1 + |body|)
  {
    forall k | 0 <= k < |body| ensures body[k] != '`' {
      assert body[k] in body;
    }
    BodyEnds(content, before, "`", body, "`", after, "`");
    OpeningStands(content, before, "`", body, "`", after);
    StandsFirst(content, "`", |before|);
    assert content[|before| + 1] == body[0];
  }

  function CodePiece(content: string, i: nat, to: nat): Piece
    requires IsCode(content, i, to)
  {
    if to - i > 2 && content[i + 1] == ' ' && content[to - 1] == ' ' then CodeSpan(i + 2, to - 1, to + 1)
    else CodeSpan(i + 1, to, to + 1)
  }

  lemma {:induction false} CodeValue(content: string, i: nat, to: nat)
    requires IsCode(content, i, to)
    ensures CodeAt(content, i) == Some(CodePiece(content, i, to)) && EscapeAt(content, i) == None
  {
    assert Backticks(content, i + 1) == 0 && Backticks(content, i) == 1;
    assert content[i..i + 1] == "`";
  }

  lemma {:induction false} CodeIsRead(content: string, i: nat, to: nat, isWord: char -> bool)
    requires IsCode(content, i, to)
    ensures PieceAt(content, i, isWord) == CodePiece(content, i, to)
  {
    CodeValue(content, i, to);
  }

  lemma {:induction false} PaddedSpec(text: string)
    requires text != [] && '`' !in text
    ensures var body := Padded(text);
      && body != [] && '`' !in body
      && text == if |body| > 1 && body[0] == ' ' && body[|body| - 1] == ' ' then body[1..|body| - 1] else body
  {
  }

  lemma {:induction false} PartOfPart(content: string, from: nat, to: nat, body: string)
    requires from < to <= |content| && content[from..to] == body
    ensures content[from] == body[0] && content[to - 1] == body[|body| - 1]
    ensures |body| > 1 ==> content[from + 1..to - 1] == body[1..|body| - 1]
  {
    if |body| > 1 {
      var part, inner := content[from + 1..to - 1], body[1..|body| - 1];
      assert |part| == |inner|;
      forall k | 0 <= k < |inner| ensures part[k] == inner[k] {
        assert content[from..to][k + 1] == content[from + k + 1];
      }
    }
  }

  /** What the parser reads of a label: its bracket, its two ends and its address. */
  predicate IsLabel(content: string, i: nat, open: string, from: nat, labelEnd: nat, urlEnd: nat, url: string) {
    && from == i + |open| <= labelEnd && labelEnd + 2 <= urlEnd < |content|
    && Stands(content, open, i)
    && FindUnescaped(content, "](", from) == Some(labelEnd)
    && FindUnescaped(content, ")", labelEnd + 2) == Some(urlEnd)
    && Trim(content[labelEnd + 2..urlEnd]) == url
  }

  lemma {:induction false} UrlIsClosed(content: string, before: string, url: string, after: string)
    requires IsLaidOut(content, before, "](", url, ")", after) && UrlFits(url)
    ensures var from := |before| + 2;
      && from + |url| < |content| && FindUnescaped(content, ")", from) == Some(from + |url|)
      && Trim(content[from..from + |url|]) == url
  {
    BodyEnds(content, before, "](", url, ")", after, ")");
    LaidOut(content, before, "](", url, ")", after);
  }

  lemma {:induction false} CaptionIsClosed(content: string, before: string, open: string, body: string, close: string,
                                           after: string)
    requires IsLaidOut(content, before, open, body, close, after)
    requires |close| >= 2 && close[0] == ']' && close[1] == '('
    requires open != [] && open[|open| - 1] != '\\' && EndsEven(body) && IsGuarded(body, ']')
    ensures FindUnescaped(content, "](", |before| + |open|) == Some(|before| + |open| + |body|)
  {
    assert close[..2] == "](";
    BodyEnds(content, before, open, body, close, after, "](");
  }

  lemma {:induction false} LinkPartsStand(content: string, before: string, url: string, close: string, after: string)
    requires content == before + close + after && close == "](" + url + ")" && UrlFits(url)
    ensures var from := |before| + 2;
      && from + |url| < |content| && FindUnescaped(content, ")", from) == Some(from + |url|)
      && Trim(content[from..from + |url|]) == url
  {
    assert content == before + "](" + url + ")" + after;
    UrlIsClosed(content, before, url, after);
  }

  /** Up to the caption's end, and from there on. */
  lemma {:induction false} LabelStands(content: string, before: string, open: string, body: string, url: string,
                                       close: string, after: string)
    requires IsLaidOut(content, before, open, body, close, after)
    requires open != [] && open[|open| - 1] != '\\' && close == "](" + url + ")"
    requires EndsEven(body) && IsGuarded(body, ']') && UrlFits(url)
    ensures var from := |before| + |open|;
      IsLabel(content, |before|, open, from, from + |body|, from + |body| + 2 + |url|, url)
  {
    CaptionIsClosed(content, before, open, body, close, after);
    LabelEndStands(content, before + open + body, |before| + |open| + |body|, url, close, after);
    OpeningStands(content, before, open, body, close, after);
  }

  lemma {:induction false} LabelEndStands(content: string, head: string, n: nat, url: string, close: string,
                                          after: string)
    requires content == head + close + after && close == "](" + url + ")" && UrlFits(url) && n == |head|
    ensures n + 2 + |url| < |content| && FindUnescaped(content, ")", n + 2) == Some(n + 2 + |url|)
    ensures Trim(content[n + 2..n + 2 + |url|]) == url
  {
    LinkPartsStand(content, head, url, close, after);
  }

  lemma {:induction false} ImageIsRead(content: string, i: nat, labelEnd: nat, urlEnd: nat, url: string,
                                       isWord: char -> bool)
    requires IsLabel(content, i, "![", i + 2, labelEnd, urlEnd, url)
    ensures PieceAt(content, i, isWord) == Label(true, i + 2, labelEnd, url, urlEnd + 1)
  {
    hide FindUnescaped;
    hide Trim;
    StandsFirst(content, "![", i);
    assert content[i..][0] == content[i];
    assert "![" <= content[i..];
    assert LabelAt(content, i, i + 1) == Some(Label(true, i + 2, labelEnd, url, urlEnd + 1));
  }

  lemma {:induction false} LinkIsRead(content: string, i: nat, labelEnd: nat, urlEnd: nat, url: string,
                                      isWord: char -> bool)
    requires IsLabel(content, i, "[", i + 1, labelEnd, urlEnd, url)
    ensures PieceAt(content, i, isWord) == Label(false, i + 1, labelEnd, url, urlEnd + 1)
  {
    hide FindUnescaped;
    hide Trim;
    StandsFirst(content, "[", i);
    assert content[i..][0] == content[i];
    assert LabelAt(content, i, i) == Some(Label(false, i + 1, labelEnd, url, urlEnd + 1));
  }

  predicate IsAngle(content: string, i: nat, to: nat) {
    && i < to < |content| && content[i] == '<' && Find(content, ">", i) == Some(to)
    && IsLinkTarget(content[i + 1..to])
  }

  lemma {:induction false} NoneInBody(content: string, before: string, open: char, body: string, c: char,
                                      after: string, k: nat)
    requires IsLaidOut(content, before, [open], body, [c], after) && open != c && c !in body
    requires |before| <= k < |before| + 1 + |body|
    ensures !Stands(content, [c], k)
  {
    assert content[k] == if k == |before| then open else body[k - |before| - 1];
    if Stands(content, [c], k) {
      StandsFirst(content, [c], k);
    }
  }

  lemma {:induction false} AngleStands(content: string, before: string, url: string, after: string)
    requires IsLaidOut(content, before, "<", url, ">", after) && IsLinkTarget(url) && '>' !in url
    ensures IsAngle(content, |before|, |before| + 1 + |url|)
  {
    var i, to := |before|, |before| + 1 + |url|;
    LaidOut(content, before, "<", url, ">", after);
    StandsFirst(content, "<", i);
    forall k | i <= k < to ensures !Stands(content, ">", k) {
      NoneInBody(content, before, '<', url, '>', after, k);
    }
    FindsFirst(content, ">", i, to);
  }

  lemma {:induction false} AngleIsRead(content: string, i: nat, to: nat, isWord: char -> bool)
    requires IsAngle(content, i, to)
    ensures PieceAt(content, i, isWord) == Bare(i + 1, to, to + 1)
  {
    PlainOpensNothing(content, i, isWord);
  }

  /** A bare address from `i` to `end`, with nothing but stops from there to the next blank. */
  predicate IsAddress(content: string, i: nat, end: nat, stop: nat) {
    && i < end <= stop <= |content|
    && ("https://" <= content[i..] || "http://" <= content[i..])
    && (forall k :: i <= k < stop ==> !IsBlankChar(content[k]))
    && (stop == |content| || IsBlankChar(content[stop]))
    && content[end - 1] !in ".,;:" && (forall k :: end <= k < stop ==> content[k] in ".,;:")
  }

  lemma {:induction false} WordEnds(content: string, i: nat, stop: nat)
    requires i < stop <= |content| && (forall k :: i < k < stop ==> !IsBlankChar(content[k]))
    requires stop == |content| || IsBlankChar(content[stop])
    ensures WordEnd(content, i) == stop
    decreases stop - i
  {
    if i + 1 < stop {
      WordEnds(content, i + 1, stop);
    }
  }

  lemma {:induction false} StopsGo(content: string, i: nat, end: nat, stop: nat)
    requires i < end <= stop <= |content| && content[end - 1] !in ".,;:"
    requires forall k :: end <= k < stop ==> content[k] in ".,;:"
    ensures WithoutPunctuation(content, i, stop) == end
    decreases stop - end
  {
    if end < stop {
      StopsGo(content, i, end, stop - 1);
    }
  }

  lemma {:induction false} AddressIsRead(content: string, i: nat, end: nat, stop: nat, isWord: char -> bool)
    requires IsAddress(content, i, end, stop)
    ensures PieceAt(content, i, isWord) == Bare(i, end, end)
  {
    assert content[i] == content[i..][0] == 'h';
    WordEnds(content, i, stop);
    StopsGo(content, i, end, stop);
    PlainOpensNothing(content, i, isWord);
  }

  lemma {:induction false} AddressStarts(url: string, after: string)
    requires "https://" <= url || "http://" <= url
    ensures "https://" <= url + after || "http://" <= url + after
  {
  }

  lemma {:induction false} AddressStands(content: string, before: string, url: string, after: string)
    requires content == before + url + after && AddressFits(url, after)
    ensures IsAddress(content, |before|, |before| + |url|, |before| + |url| + Stops(after))
  {
    var i, end := |before|, |before| + |url|;
    var stop := end + Stops(after);
    AddressStarts(url, after);
    assert content[i..] == url + after;
    forall k | i <= k < stop ensures !IsBlankChar(content[k]) {
      if k < end {
        assert content[k] == url[k - i] && url[k - i] in url;
      } else {
        assert content[k] == after[k - end];
        assert forall c :: c in ".,;:" ==> !IsBlankChar(c);
      }
    }
    forall k | end <= k < stop ensures content[k] in ".,;:" {
      assert content[k] == after[k - end];
    }
    assert content[end - 1] == url[|url| - 1];
    assert stop < |content| ==> content[stop] == after[Stops(after)];
  }

  /** A character that no backslash protects and that opens no address. */
  lemma {:induction false} PlainIsRead(content: string, i: nat, isWord: char -> bool)
    requires i < |content| && content[i] !in ESCAPABLE && !OpensAddress(content[i..])
    ensures PieceAt(content, i, isWord) == Literal(content[i], i + 1)
  {
    PlainOpensNothing(content, i, isWord);
    assert content[i..][0] == content[i] && content[i..][1..] == content[i + 1..];
    if content[i] == '<' {
      AngleOpensWhen(content, i);
    }
  }

  lemma {:induction false} EscapeIsRead(content: string, i: nat, isWord: char -> bool)
    requires i + 1 < |content| && content[i] == '\\' && content[i + 1] in ESCAPABLE
    ensures PieceAt(content, i, isWord) == Literal(content[i + 1], i + 2)
  {
  }

  // ----- one piece after the other

  /** The parse from `i` on is `own`, and then the parse from `next` on. */
  ghost predicate ReadsTo(content: string, i: nat, next: nat, own: Rich, isWord: char -> bool) {
    i <= next <= |content| && Parsed(content, i, isWord) == Joined(own, Parsed(content, next, isWord))
  }

  lemma {:induction false} NestedReads(content: string, i: nat, style: Style, from: nat, to: nat, next: nat,
                                       inner: Rich, isWord: char -> bool)
    requires i < |content| && PieceAt(content, i, isWord) == Nested(style, from, to, next)
    requires Parsed(content[from..to], 0, isWord) == inner && inner.text != ""
    ensures ReadsTo(content, i, next, inner.(spans := inner.spans + [Span(0, |inner.text|, style)]), isWord)
  {
  }

  lemma {:induction false} CodeReads(content: string, i: nat, from: nat, to: nat, next: nat, text: string,
                                     isWord: char -> bool)
    requires i < |content| && PieceAt(content, i, isWord) == CodeSpan(from, to, next)
    requires content[from..to] == text != ""
    ensures ReadsTo(content, i, next, Rich(text, [Span(0, |text|, Code)], []), isWord)
  {
    assert [] + [Span(0, |text|, Code)] == [Span(0, |text|, Code)];
  }

  lemma {:induction false} PieceIsNext(content: string, i: nat, p: Piece, isWord: char -> bool)
    requires i < |content| && PieceAt(content, i, isWord) == p
    ensures IsPieceAt(content, i, p)
    ensures ReadsTo(content, i, p.next, Shown(content, i, p, isWord), isWord)
  {
    hide Shown;
  }

  lemma {:induction false} BareReads(content: string, i: nat, from: nat, to: nat, next: nat, url: string,
                                     isWord: char -> bool)
    requires i < |content| && PieceAt(content, i, isWord) == Bare(from, to, next) && content[from..to] == url
    ensures ReadsTo(content, i, next, Rich(url, [], [Link(0, |url|, url)]), isWord)
  {
    hide PieceAt;
    hide Parsed;
    PieceIsNext(content, i, Bare(from, to, next), isWord);
  }

  /** A caption with its label before it, and the link over both. */
  function Captioned(isImage: bool, inner: Rich, url: string): Rich {
    var text := (if isImage then "Image: " else "") + inner.text;
    var lead := if isImage then |"Image: "| else 0;
    Rich(text, MovedSpans(inner.spans, lead),
         MovedLinks(inner.links, lead)
         + if IsLinkTarget(url) && text != "" then [Link(0, |text|, url)] else [])
  }

  lemma {:induction false} CaptionIsShown(isImage: bool, inner: Rich, url: string)
    ensures Linked(if isImage then Joined(Rich(IMAGE, [], []), inner) else inner, url)
         == Captioned(isImage, inner, url)
  {
    var shown := Linked(if isImage then Joined(Rich(IMAGE, [], []), inner) else inner, url);
    assert MovedSpans(inner.spans, 0) == inner.spans && MovedLinks(inner.links, 0) == inner.links;
    assert Joined(Rich(IMAGE, [], []), inner).spans == MovedSpans(inner.spans, |IMAGE|);
    assert shown.text == Captioned(isImage, inner, url).text;
    assert shown.spans == Captioned(isImage, inner, url).spans;
    assert shown.links == Captioned(isImage, inner, url).links;
  }

  lemma {:induction false} LabelReads(content: string, i: nat, isImage: bool, from: nat, to: nat, url: string,
                                      next: nat, inner: Rich, isWord: char -> bool)
    requires i < |content| && PieceAt(content, i, isWord) == Label(isImage, from, to, url, next)
    requires Parsed(content[from..to], 0, isWord) == inner
    ensures ReadsTo(content, i, next, Captioned(isImage, inner, url), isWord)
  {
    CaptionIsShown(isImage, inner, url);
  }

  function Own(t: Tree): Rich {
    Rich(OwnText(t), OwnSpans(t, 0), OwnLinks(t, 0))
  }

  function Drawn(t: Tree): Rich {
    Rich(TextOf(t), SpansOf(t, 0), LinksOf(t, 0))
  }

  // ----- offsets

  lemma {:induction false} OwnMarksMove(t: Tree, a: nat, b: nat)
    ensures MovedSpans(OwnSpans(t, a), b) == OwnSpans(t, a + b)
    ensures MovedLinks(OwnLinks(t, a), b) == OwnLinks(t, a + b)
    decreases t, 0
  {
    match t
    case Marked(_, _, inner, _) =>
      MarksMove(inner, a, b);
      MarkedMoves(t, a, b);
    case Labelled(isImage, inner, url, _) =>
      MarksMove(inner, a + if isImage then |"Image: "| else 0, b);
      LabelledMoves(t, a, b);
    case _ =>
  }

  lemma {:induction false} MarkedMoves(t: Tree, a: nat, b: nat)
    requires t.Marked? && MovedSpans(SpansOf(t.inner, a), b) == SpansOf(t.inner, a + b)
    ensures MovedSpans(OwnSpans(t, a), b) == OwnSpans(t, a + b)
  {
    MovedSpansJoin(SpansOf(t.inner, a), [Span(a, a + |TextOf(t.inner)|, t.style)], b);
  }

  lemma {:induction false} LabelledMoves(t: Tree, a: nat, b: nat)
    requires t.Labelled?
    requires var lead := a + if t.isImage then |"Image: "| else 0;
      MovedLinks(LinksOf(t.inner, lead), b) == LinksOf(t.inner, lead + b)
    ensures MovedLinks(OwnLinks(t, a), b) == OwnLinks(t, a + b)
  {
    var lead := a + if t.isImage then |"Image: "| else 0;
    MovedLinksJoin(LinksOf(t.inner, lead),
                   if NamesAPlace(t.url) && OwnText(t) != "" then [Link(a, a + |OwnText(t)|, t.url)] else [], b);
  }

  lemma {:induction false} MarksMove(t: Tree, a: nat, b: nat)
    ensures MovedSpans(SpansOf(t, a), b) == SpansOf(t, a + b)
    ensures MovedLinks(LinksOf(t, a), b) == LinksOf(t, a + b)
    decreases t, 1
  {
    if !t.End? {
      var next := a + |OwnText(t)|;
      OwnMarksMove(t, a, b);
      MarksMove(t.next, next, b);
      MovedSpansJoin(OwnSpans(t, a), SpansOf(t.next, next), b);
      MovedLinksJoin(OwnLinks(t, a), LinksOf(t.next, next), b);
    }
  }

  lemma MovedSpansJoin(x: seq<Span>, y: seq<Span>, off: nat)
    ensures MovedSpans(x + y, off) == MovedSpans(x, off) + MovedSpans(y, off)
  {
  }

  lemma MovedLinksJoin(x: seq<Link>, y: seq<Link>, off: nat)
    ensures MovedLinks(x + y, off) == MovedLinks(x, off) + MovedLinks(y, off)
  {
  }

  lemma {:induction false} OwnThenRest(t: Tree)
    requires !t.End?
    ensures Joined(Own(t), Drawn(t.next)) == Drawn(t)
  {
    MarksMove(t.next, 0, |OwnText(t)|);
  }

  lemma {:induction false} CaptionedIsOwn(t: Tree)
    requires t.Labelled?
    ensures Captioned(t.isImage, Drawn(t.inner), t.url) == Own(t)
  {
    TargetsNameAPlace(t.url);
    MarksMove(t.inner, 0, if t.isImage then |"Image: "| else 0);
  }

  // ----- plain text

  lemma {:induction false} CharReads(content: string, i: nat, c: char, next: nat, isWord: char -> bool)
    requires i < |content| && PieceAt(content, i, isWord) == Literal(c, next)
    ensures ReadsTo(content, i, next, Rich([c], [], []), isWord)
  {
  }

  /** One character of a text, as it is written. */
  predicate IsChar(content: string, i: nat, c: char, next: nat) {
    next <= |content|
    && if c in ESCAPABLE then i + 2 == next && content[i] == '\\' && content[i + 1] == c
       else i + 1 == next && content[i] == c && !OpensAddress(content[i..])
  }

  lemma {:induction false} CharIsRead(content: string, i: nat, c: char, next: nat, isWord: char -> bool)
    requires IsChar(content, i, c, next)
    ensures ReadsTo(content, i, next, Rich([c], [], []), isWord)
  {
    if c in ESCAPABLE {
      EscapeIsRead(content, i, isWord);
    } else {
      PlainIsRead(content, i, isWord);
    }
    CharReads(content, i, c, next, isWord);
  }

  lemma {:induction false} FirstCharStands(content: string, i: nat, s: string, after: string, next: nat)
    requires i <= |content| && content[i..] == Escaped(s) + after && s != [] && WordsFit(s, after)
    requires next == i + if s[0] in ESCAPABLE then 2 else 1
    ensures IsChar(content, i, s[0], next) && content[next..] == Escaped(s[1..]) + after
  {
    assert content[next..] == content[i..][next - i..];
    assert content[i] == content[i..][0];
    if s[0] in ESCAPABLE {
      assert content[i + 1] == content[i..][1];
    }
  }

  lemma {:induction false} NothingReads(content: string, i: nat, isWord: char -> bool)
    requires i <= |content|
    ensures ReadsTo(content, i, i, Rich("", [], []), isWord)
  {
    var r := Parsed(content, i, isWord);
    assert MovedSpans(r.spans, 0) == r.spans && MovedLinks(r.links, 0) == r.links;
  }

  lemma {:induction false} CharThenWords(content: string, i: nat, mid: nat, next: nat, s: string,
                                         isWord: char -> bool)
    requires s != [] && ReadsTo(content, i, mid, Rich([s[0]], [], []), isWord)
    requires ReadsTo(content, mid, next, Rich(s[1..], [], []), isWord)
    ensures ReadsTo(content, i, next, Rich(s, [], []), isWord)
  {
    JoinedIsAssociative(Rich([s[0]], [], []), Rich(s[1..], [], []), Parsed(content, next, isWord));
    assert [s[0]] + s[1..] == s;
    assert Joined(Rich([s[0]], [], []), Rich(s[1..], [], [])) == Rich(s, [], []);
  }

  lemma {:induction false} WordsRead(content: string, i: nat, s: string, after: string, next: nat,
                                     isWord: char -> bool)
    requires i <= |content| && content[i..] == Escaped(s) + after && WordsFit(s, after)
    requires next == i + |Escaped(s)|
    ensures ReadsTo(content, i, next, Rich(s, [], []), isWord)
    decreases |s|
  {
    if s == [] {
      NothingReads(content, i, isWord);
    } else {
      var mid := i + if s[0] in ESCAPABLE then 2 else 1;
      FirstCharStands(content, i, s, after, mid);
      CharIsRead(content, i, s[0], mid, isWord);
      WordsRead(content, mid, s[1..], after, next, isWord);
      CharThenWords(content, i, mid, next, s, isWord);
    }
  }

  // ----- every piece, of text alone

  lemma BodyStands(content: string, before: string, open: string, body: string, close: string, after: string,
                   i: nat, next: nat)
    requires IsLaidOut(content, before, open, body, close, after)
    requires i == |before| && next == i + |open| + |body| + |close|
    ensures next <= |content| && content[i + |open|..next - |close|] == body && content[next..] == after
    ensures content[i..] == open + body + close + after
  {
    LaidOut(content, before, open, body, close, after);
  }

  function Wrapped(inner: Rich, style: Style): Rich {
    inner.(spans := inner.spans + [Span(0, |inner.text|, style)])
  }

  lemma {:induction false} StrongReads(content: string, i: nat, next: nat, c: char, inner: Rich, isWord: char -> bool)
    requires next >= 2 && IsStrong(content, i, c, next - 2)
    requires Parsed(content[i + 2..next - 2], 0, isWord) == inner && inner.text != ""
    ensures ReadsTo(content, i, next, Wrapped(inner, Strong), isWord)
  {
    hide PieceAt;
    hide Parsed;
    StrongIsRead(content, i, c, next - 2, isWord);
    NestedReads(content, i, Strong, i + 2, next - 2, next, inner, isWord);
  }

  lemma {:induction false} EmphasisReads(content: string, i: nat, next: nat, c: char, inner: Rich,
                                         isWord: char -> bool)
    requires next >= 1 && IsEmphasis(content, i, c, next - 1, isWord)
    requires Parsed(content[i + 1..next - 1], 0, isWord) == inner && inner.text != ""
    ensures ReadsTo(content, i, next, Wrapped(inner, Emphasis), isWord)
  {
    hide PieceAt;
    hide Parsed;
    EmphasisIsRead(content, i, c, next - 1, isWord);
    NestedReads(content, i, Emphasis, i + 1, next - 1, next, inner, isWord);
  }

  lemma {:induction false} StruckReads(content: string, i: nat, next: nat, inner: Rich, isWord: char -> bool)
    requires next >= 2 && IsStruck(content, i, next - 2)
    requires Parsed(content[i + 2..next - 2], 0, isWord) == inner && inner.text != ""
    ensures ReadsTo(content, i, next, Wrapped(inner, Strikethrough), isWord)
  {
    hide PieceAt;
    hide Parsed;
    StruckIsRead(content, i, next - 2, isWord);
    NestedReads(content, i, Strikethrough, i + 2, next - 2, next, inner, isWord);
  }

  lemma {:induction false} StrongPiece(content: string, before: string, c: char, body: string, after: string,
                                       i: nat, next: nat, inner: Rich, isWord: char -> bool)
    requires IsLaidOut(content, before, [c, c], body, [c, c], after) && i == |before| && next == i + 4 + |body|
    requires MarkFits(Strong, c, before, body, after, isWord) && EndsEven(body)
    requires Parsed(body, 0, isWord) == inner && inner.text != ""
    ensures ReadsTo(content, i, next, Wrapped(inner, Strong), isWord)
  {
    hide PieceAt;
    hide Parsed;
    StrongStands(content, before, c, body, after, isWord);
    BodyStands(content, before, [c, c], body, [c, c], after, i, next);
    StrongReads(content, i, next, c, inner, isWord);
  }

  lemma {:induction false} EmphasisPiece(content: string, before: string, c: char, body: string, after: string,
                                         i: nat, next: nat, inner: Rich, isWord: char -> bool)
    requires IsLaidOut(content, before, [c], body, [c], after) && i == |before| && next == i + 2 + |body|
    requires MarkFits(Emphasis, c, before, body, after, isWord) && EndsEven(body)
    requires Parsed(body, 0, isWord) == inner && inner.text != ""
    ensures ReadsTo(content, i, next, Wrapped(inner, Emphasis), isWord)
  {
    hide PieceAt;
    hide Parsed;
    EmphasisStands(content, before, c, body, after, isWord);
    BodyStands(content, before, [c], body, [c], after, i, next);
    EmphasisReads(content, i, next, c, inner, isWord);
  }

  lemma {:induction false} StruckPiece(content: string, before: string, body: string, after: string,
                                       i: nat, next: nat, inner: Rich, isWord: char -> bool)
    requires IsLaidOut(content, before, "~~", body, "~~", after) && i == |before| && next == i + 4 + |body|
    requires MarkFits(Strikethrough, '~', before, body, after, isWord) && EndsEven(body)
    requires Parsed(body, 0, isWord) == inner && inner.text != ""
    ensures ReadsTo(content, i, next, Wrapped(inner, Strikethrough), isWord)
  {
    hide PieceAt;
    hide Parsed;
    StruckStands(content, before, body, after, isWord);
    BodyStands(content, before, "~~", body, "~~", after, i, next);
    StruckReads(content, i, next, inner, isWord);
  }

  lemma {:induction false} CodeHoldsText(content: string, i: nat, next: nat, text: string)
    requires i + 2 <= next <= |content| && IsCode(content, i, next - 1)
    requires content[i + 1..next - 1] == Padded(text) && text != [] && '`' !in text
    ensures var p := CodePiece(content, i, next - 1);
      p.next == next && p.from <= p.to <= |content| && content[p.from..p.to] == text
  {
    PaddedSpec(text);
    PartOfPart(content, i + 1, next - 1, Padded(text));
  }

  lemma {:induction false} CodeIsReadAs(content: string, i: nat, next: nat, text: string, isWord: char -> bool)
    requires i + 2 <= next <= |content| && IsCode(content, i, next - 1)
    requires content[i + 1..next - 1] == Padded(text) && text != [] && '`' !in text
    ensures ReadsTo(content, i, next, Rich(text, [Span(0, |text|, Code)], []), isWord)
  {
    var p := CodePiece(content, i, next - 1);
    CodeHoldsText(content, i, next, text);
    CodeIsRead(content, i, next - 1, isWord);
    CodeReads(content, i, p.from, p.to, p.next, text, isWord);
  }

  lemma {:induction false} VerbatimPiece(content: string, before: string, text: string, after: string,
                                         i: nat, next: nat, isWord: char -> bool)
    requires IsLaidOut(content, before, "`", Padded(text), "`", after) && CodeFits(text)
    requires i == |before| && next == i + 2 + |Padded(text)|
    ensures ReadsTo(content, i, next, Rich(text, [Span(0, |text|, Code)], []), isWord)
  {
    PaddedSpec(text);
    CodeStands(content, before, Padded(text), after);
    BodyStands(content, before, "`", Padded(text), "`", after, i, next);
    CodeIsReadAs(content, i, next, text, isWord);
  }

  lemma {:induction false} ImageReads(content: string, i: nat, to: nat, next: nat, url: string, inner: Rich,
                                      isWord: char -> bool)
    requires next >= 1 && IsLabel(content, i, "![", i + 2, to, next - 1, url)
    requires Parsed(content[i + 2..to], 0, isWord) == inner
    ensures ReadsTo(content, i, next, Captioned(true, inner, url), isWord)
  {
    hide PieceAt;
    hide Parsed;
    ImageIsRead(content, i, to, next - 1, url, isWord);
    LabelReads(content, i, true, i + 2, to, url, next, inner, isWord);
  }

  lemma {:induction false} LinkReads(content: string, i: nat, to: nat, next: nat, url: string, inner: Rich,
                                     isWord: char -> bool)
    requires next >= 1 && IsLabel(content, i, "[", i + 1, to, next - 1, url)
    requires Parsed(content[i + 1..to], 0, isWord) == inner
    ensures ReadsTo(content, i, next, Captioned(false, inner, url), isWord)
  {
    hide PieceAt;
    hide Parsed;
    LinkIsRead(content, i, to, next - 1, url, isWord);
    LabelReads(content, i, false, i + 1, to, url, next, inner, isWord);
  }

  lemma {:induction false} LabelLiesAt(content: string, before: string, open: string, body: string, url: string,
                                       close: string, after: string, i: nat, to: nat, next: nat)
    requires IsLaidOut(content, before, open, body, close, after)
    requires open != [] && open[|open| - 1] != '\\' && close == "](" + url + ")"
    requires EndsEven(body) && IsGuarded(body, ']') && UrlFits(url)
    requires i == |before| && to == i + |open| + |body| && next == to + |close|
    ensures next >= 1 && IsLabel(content, i, open, i + |open|, to, next - 1, url)
  {
    LabelStands(content, before, open, body, url, close, after);
  }

  lemma {:induction false} CaptionLiesAt(content: string, before: string, open: string, body: string, close: string,
                                         after: string, from: nat, to: nat)
    requires IsLaidOut(content, before, open, body, close, after)
    requires from == |before| + |open| && to == from + |body|
    ensures to <= |content| && content[from..to] == body
  {
    LaidOut(content, before, open, body, close, after);
  }

  lemma {:induction false} LabelPiece(content: string, before: string, isImage: bool, open: string, body: string,
                                      url: string, close: string, after: string, i: nat, next: nat, inner: Rich,
                                      isWord: char -> bool)
    requires IsLaidOut(content, before, open, body, close, after)
    requires open == (if isImage then "![" else "[") && close == "](" + url + ")"
    requires EndsEven(body) && IsGuarded(body, ']') && UrlFits(url)
    requires i == |before| && next == i + |open| + |body| + |close| && Parsed(body, 0, isWord) == inner
    ensures ReadsTo(content, i, next, Captioned(isImage, inner, url), isWord)
  {
    hide PieceAt;
    hide Parsed;
    hide IsLaidOut;
    hide Captioned;
    hide ReadsTo;
    var from, to := i + |open|, i + |open| + |body|;
    LabelLiesAt(content, before, open, body, url, close, after, i, to, next);
    CaptionLiesAt(content, before, open, body, close, after, from, to);
    if isImage {
      ImageReads(content, i, to, next, url, inner, isWord);
    } else {
      LinkReads(content, i, to, next, url, inner, isWord);
    }
  }

  lemma {:induction false} AngleReads(content: string, i: nat, next: nat, url: string, isWord: char -> bool)
    requires next > i + 1 && IsAngle(content, i, next - 1) && content[i + 1..next - 1] == url
    ensures ReadsTo(content, i, next, Rich(url, [], [Link(0, |url|, url)]), isWord)
  {
    AngleIsRead(content, i, next - 1, isWord);
    BareReads(content, i, i + 1, next - 1, next, url, isWord);
  }

  lemma {:induction false} AnglePiece(content: string, before: string, url: string, after: string,
                                      i: nat, next: nat, isWord: char -> bool)
    requires IsLaidOut(content, before, "<", url, ">", after) && IsLinkTarget(url) && '>' !in url
    requires i == |before| && next == i + 2 + |url|
    ensures ReadsTo(content, i, next, Rich(url, [], [Link(0, |url|, url)]), isWord)
  {
    AngleStands(content, before, url, after);
    BodyStands(content, before, "<", url, ">", after, i, next);
    AngleReads(content, i, next, url, isWord);
  }

  lemma {:induction false} AddressReads(content: string, i: nat, next: nat, stop: nat, url: string,
                                        isWord: char -> bool)
    requires IsAddress(content, i, next, stop) && content[i..next] == url
    ensures ReadsTo(content, i, next, Rich(url, [], [Link(0, |url|, url)]), isWord)
  {
    AddressIsRead(content, i, next, stop, isWord);
    BareReads(content, i, i, next, next, url, isWord);
  }

  lemma {:induction false} AddressPiece(content: string, before: string, url: string, after: string,
                                        i: nat, next: nat, isWord: char -> bool)
    requires content == before + url + after && AddressFits(url, after) && i == |before| && next == i + |url|
    ensures ReadsTo(content, i, next, Rich(url, [], [Link(0, |url|, url)]), isWord)
  {
    AddressStands(content, before, url, after);
    assert content[i..next] == url;
    AddressReads(content, i, next, next + Stops(after), url, isWord);
  }

  lemma {:induction false} WordsPiece(content: string, before: string, text: string, after: string,
                                      i: nat, next: nat, isWord: char -> bool)
    requires content == before + Escaped(text) + after && WordsFit(text, after)
    requires i == |before| && next == i + |Escaped(text)|
    ensures ReadsTo(content, i, next, Rich(text, [], []), isWord)
  {
    assert content[i..] == Escaped(text) + after;
    WordsRead(content, i, text, after, next, isWord);
  }

  // ----- every piece, of the tree

  /** The piece stands from `i` to `next`, after `before` and before the rest. */
  predicate IsPrinted(content: string, before: string, t: Tree, i: nat, next: nat) {
    && !t.End? && IsLaidOut(content, before, Opening(t), Body(t), Closing(t), Print(t.next))
    && i == |before| && next == i + |Opening(t)| + |Body(t)| + |Closing(t)|
  }

  /** What is inside parses as it should. */
  ghost predicate InnerReads(t: Tree, isWord: char -> bool) {
    t.Marked? || t.Labelled? ==> Parsed(Print(t.inner), 0, isWord) == Drawn(t.inner)
  }

  predicate InnerEndsEven(t: Tree) {
    t.Marked? || t.Labelled? ==> EndsEven(Print(t.inner))
  }

  lemma {:induction false} MarkedReads(content: string, before: string, t: Tree, i: nat, next: nat,
                                       isWord: char -> bool)
    requires IsPrinted(content, before, t, i, next) && t.Marked? && PieceFits(t, before, isWord)
    requires InnerReads(t, isWord) && InnerEndsEven(t)
    ensures ReadsTo(content, i, next, Wrapped(Drawn(t.inner), t.style), isWord)
  {
    var c, body, after, inner := t.marker, Print(t.inner), Print(t.next), Drawn(t.inner);
    match t.style
    case Strong => StrongPiece(content, before, c, body, after, i, next, inner, isWord);
    case Emphasis => EmphasisPiece(content, before, c, body, after, i, next, inner, isWord);
    case Strikethrough => StruckPiece(content, before, body, after, i, next, inner, isWord);
  }

  lemma {:induction false} LabelledReads(content: string, before: string, t: Tree, i: nat, next: nat,
                                         isWord: char -> bool)
    requires IsPrinted(content, before, t, i, next) && t.Labelled? && PieceFits(t, before, isWord)
    requires InnerReads(t, isWord) && InnerEndsEven(t)
    ensures ReadsTo(content, i, next, Captioned(t.isImage, Drawn(t.inner), t.url), isWord)
  {
    LabelPiece(content, before, t.isImage, Opening(t), Print(t.inner), t.url, Closing(t), Print(t.next), i, next,
               Drawn(t.inner), isWord);
  }

  lemma NoMarks(before: string, body: string, after: string)
    ensures before + "" + body + "" + after == before + body + after
  {
  }

  lemma {:induction false} OwnIs(t: Tree)
    ensures match t
            case Words(text, _) => Own(t) == Rich(text, [], [])
            case Marked(style, _, inner, _) => Own(t) == Wrapped(Drawn(inner), style)
            case Verbatim(text, _) => Own(t) == Rich(text, [Span(0, |text|, Code)], [])
            case Labelled(isImage, inner, url, _) => Own(t) == Captioned(isImage, Drawn(inner), url)
            case Angled(url, _) => Own(t) == Rich(url, [], [Link(0, |url|, url)])
            case Address(url, _) => Own(t) == Rich(url, [], [Link(0, |url|, url)])
            case End => true
  {
    if t.Labelled? {
      CaptionedIsOwn(t);
    }
  }

  lemma {:induction false} PieceReads(content: string, before: string, t: Tree, i: nat, next: nat,
                                      isWord: char -> bool)
    requires IsPrinted(content, before, t, i, next) && PieceFits(t, before, isWord)
    requires InnerReads(t, isWord) && InnerEndsEven(t)
    ensures ReadsTo(content, i, next, Own(t), isWord)
  {
    OwnIs(t);
    match t
    case Words(text, rest) =>
      NoMarks(before, Escaped(text), Print(rest));
      WordsPiece(content, before, text, Print(rest), i, next, isWord);
    case Marked(_, _, _, _) => MarkedReads(content, before, t, i, next, isWord);
    case Verbatim(text, rest) => VerbatimPiece(content, before, text, Print(rest), i, next, isWord);
    case Labelled(_, _, _, _) => LabelledReads(content, before, t, i, next, isWord);
    case Angled(url, rest) => AnglePiece(content, before, url, Print(rest), i, next, isWord);
    case Address(url, rest) =>
      NoMarks(before, url, Print(rest));
      AddressPiece(content, before, url, Print(rest), i, next, isWord);
  }

  /** From `i` on the parse draws the tree. */
  ghost predicate Draws(content: string, i: nat, t: Tree, isWord: char -> bool) {
    i <= |content| && Parsed(content, i, isWord) == Drawn(t)
  }

  lemma {:induction false} PieceThenRest(content: string, i: nat, next: nat, t: Tree, isWord: char -> bool)
    requires !t.End? && ReadsTo(content, i, next, Own(t), isWord) && Draws(content, next, t.next, isWord)
    ensures Draws(content, i, t, isWord)
  {
    OwnThenRest(t);
  }

  lemma {:induction false} EndDraws(content: string, i: nat, isWord: char -> bool)
    requires i == |content|
    ensures Draws(content, i, End, isWord)
  {
  }

  lemma Regrouped(a: string, b: string, c: string, d: string, e: string)
    ensures a + (b + c + d + e) == a + b + c + d + e
  {
  }

  lemma {:induction false} PrintedReads(content: string, before: string, t: Tree, i: nat, isWord: char -> bool)
    requires content == before + Print(t) && i == |before| && Fits(t, before, isWord)
    ensures Draws(content, i, t, isWord)
    decreases t
  {
    if t.End? {
      EndDraws(content, i, isWord);
    } else {
      var next := i + |Opening(t)| + |Body(t)| + |Closing(t)|;
      InnerIsRead(t, before, isWord);
      Regrouped(before, Opening(t), Body(t), Closing(t), Print(t.next));
      PieceReads(content, before, t, i, next, isWord);
      PrintedReads(content, before + Opening(t) + Body(t) + Closing(t), t.next, next, isWord);
      PieceThenRest(content, i, next, t, isWord);
    }
  }

  lemma {:induction false} InnerIsRead(t: Tree, before: string, isWord: char -> bool)
    requires !t.End? && Fits(t, before, isWord)
    ensures InnerReads(t, isWord) && InnerEndsEven(t)
    decreases t, 0
  {
    if t.Marked? || t.Labelled? {
      assert Print(t.inner) == "" + Print(t.inner);
      PrintedReads(Print(t.inner), "", t.inner, 0, isWord);
      PrintEndsEven(t.inner, "", isWord);
    }
  }

  /** Printing then parsing: whatever is printed, however its pieces nest, is drawn with exactly its
      text, its styles where they belong and its links with their addresses. */
  lemma {:induction false} PrintedIsDrawn(t: Tree, isWord: char -> bool)
    requires Fits(t, "", isWord)
    ensures Parsed(Print(t), 0, isWord) == Rich(TextOf(t), SpansOf(t, 0), LinksOf(t, 0))
  {
    assert "" + Print(t) == Print(t);
    PrintedReads(Print(t), "", t, 0, isWord);
  }
}

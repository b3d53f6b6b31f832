/** Clearing the nearly white background that is connected to the edges of the icon. */
module FloodFill {

  datatype Pixel = Pixel(red: nat, green: nat, blue: nat, alpha: nat)

  const CLEAR := Pixel(0, 0, 0, 0)

  datatype Spot = Spot(x: int, y: int)

  predicate IsNearlyWhite(p: Pixel) {
    p.red >= 240 && p.green >= 240 && p.blue >= 240
  }

  // ----- the background

  /** A picture, as far as the fill is concerned: its size and its nearly white spots. */
  datatype Picture = Picture(width: nat, height: nat, light: set<Spot>)

  predicate IsInside(pic: Picture, s: Spot) {
    0 <= s.x < pic.width && 0 <= s.y < pic.height
  }

  predicate IsBorder(pic: Picture, s: Spot) {
    IsInside(pic, s) && (s.x == 0 || s.y == 0 || s.x == pic.width - 1 || s.y == pic.height - 1)
  }

  predicate AreNeighbours(a: Spot, b: Spot) {
    (a.x == b.x && (a.y - b.y == 1 || b.y - a.y == 1)) || (a.y == b.y && (a.x - b.x == 1 || b.x - a.x == 1))
  }

  /** The set holds the nearly white border and spreads to nearly white neighbours. */
  ghost predicate IsClosed(pic: Picture, spots: set<Spot>) {
    && (forall s :: s in pic.light && IsBorder(pic, s) ==> s in spots)
    && (forall s, t :: s in spots && t in pic.light && AreNeighbours(s, t) ==> t in spots)
  }

  ghost predicate IsBackground(pic: Picture, spots: set<Spot>) {
    IsClosed(pic, spots) && forall other :: IsClosed(pic, other) ==> spots <= other
  }

  /** A way from the border to its last spot, over nearly white neighbours. */
  predicate IsTrail(pic: Picture, trail: seq<Spot>) {
    && trail != []
    && IsBorder(pic, trail[0])
    && (forall i :: 0 <= i < |trail| ==> trail[i] in pic.light)
    && (forall i :: 0 < i < |trail| ==> AreNeighbours(trail[i - 1], trail[i]))
  }

  ghost predicate IsConnected(pic: Picture, s: Spot) {
    exists trail :: IsTrail(pic, trail) && trail[|trail| - 1] == s
  }

  lemma {:induction false} TrailsStayInside(pic: Picture, spots: set<Spot>, trail: seq<Spot>)
    requires IsClosed(pic, spots) && IsTrail(pic, trail)
    ensures trail[|trail| - 1] in spots
  {
    if |trail| > 1 {
      var rest := trail[..|trail| - 1];
      assert IsTrail(pic, rest);
      TrailsStayInside(pic, spots, rest);
      assert AreNeighbours(rest[|rest| - 1], trail[|trail| - 1]);
    }
  }

  lemma {:induction false} TrailGoesOn(pic: Picture, s: Spot, t: Spot)
    requires IsConnected(pic, s) && t in pic.light && AreNeighbours(s, t)
    ensures IsConnected(pic, t)
  {
    var trail :| IsTrail(pic, trail) && trail[|trail| - 1] == s;
    var longer := trail + [t];
    assert IsTrail(pic, longer) && longer[|longer| - 1] == t;
  }

  lemma {:induction false} ConnectedIsClosed(pic: Picture)
    ensures IsClosed(pic, set s | s in pic.light && IsConnected(pic, s))
  {
    forall s | s in pic.light && IsBorder(pic, s) ensures IsConnected(pic, s) {
      assert IsTrail(pic, [s]) && [s][|[s]| - 1] == s;
    }
    forall s, t | IsConnected(pic, s) && t in pic.light && AreNeighbours(s, t) ensures IsConnected(pic, t) {
      TrailGoesOn(pic, s, t);
    }
  }

  /** The background is what nearly white trails reach from the border. */
  lemma {:induction false} BackgroundIsConnected(pic: Picture, spots: set<Spot>, s: Spot)
    requires IsBackground(pic, spots)
    ensures s in spots <==> IsConnected(pic, s)
  {
    ConnectedIsClosed(pic);
    if IsConnected(pic, s) {
      var trail :| IsTrail(pic, trail) && trail[|trail| - 1] == s;
      TrailsStayInside(pic, spots, trail);
    }
  }

  // ----- the worklist

  /** Whatever is still to be done is on the worklist. */
  ghost predicate IsOnTheWay(pic: Picture, edge: seq<Spot>, background: set<Spot>) {
    && (forall s :: s in edge ==> IsInside(pic, s))
    && (forall s :: s in background ==> IsInside(pic, s))
    && background <= pic.light
    && (forall s :: s in pic.light && IsBorder(pic, s) ==> s in background || s in edge)
    && (forall s, t :: s in background && t in pic.light && AreNeighbours(s, t) ==> t in background || t in edge)
  }

  /** And nothing that does not belong there. */
  ghost predicate IsNoMore(pic: Picture, edge: seq<Spot>, background: set<Spot>) {
    forall other :: IsClosed(pic, other) ==>
      background <= other && forall s :: s in edge && s in pic.light ==> s in other
  }

  ghost predicate IsPicture(pic: Picture) {
    forall s :: s in pic.light ==> IsInside(pic, s)
  }

  ghost function PictureOf(pixels: array2<Pixel>): Picture
    reads pixels
  {
    Picture(pixels.Length0, pixels.Length1,
            set x, y | 0 <= x < pixels.Length0 && 0 <= y < pixels.Length1 && IsNearlyWhite(pixels[x, y]) :: Spot(x, y))
  }

  method BorderOf(width: nat, height: nat, ghost pic: Picture) returns (edge: seq<Spot>)
    requires pic.width == width && pic.height == height && (width > 0 <==> height > 0)
    ensures forall s :: s in edge <==> IsBorder(pic, s)
  {
    edge := [];
    for x := 0 to width
      invariant forall s :: s in edge <==> 0 <= s.x < x && (s.y == 0 || s.y == height - 1)
    {
      edge := edge + [Spot(x, 0), Spot(x, height - 1)];
    }
    for y := 0 to height
      invariant forall s :: s in edge <==>
        || (0 <= s.x < width && (s.y == 0 || s.y == height - 1))
        || (0 <= s.y < y && (s.x == 0 || s.x == width - 1))
    {
      edge := edge + [Spot(0, y), Spot(width - 1, y)];
    }
  }

  method NeighboursOf(s: Spot, width: nat, height: nat, ghost pic: Picture) returns (near: seq<Spot>)
    requires pic.width == width && pic.height == height && IsInside(pic, s)
    ensures forall t :: t in near <==> IsInside(pic, t) && AreNeighbours(s, t)
  {
    near := [];
    if s.x > 0 {
      near := near + [Spot(s.x - 1, s.y)];
    }
    if s.x + 1 < width {
      near := near + [Spot(s.x + 1, s.y)];
    }
    if s.y > 0 {
      near := near + [Spot(s.x, s.y - 1)];
    }
    if s.y + 1 < height {
      near := near + [Spot(s.x, s.y + 1)];
    }
  }

  method FindBackground(pixels: array2<Pixel>) returns (background: set<Spot>)
    requires pixels.Length0 > 0 <==> pixels.Length1 > 0
    ensures IsBackground(PictureOf(pixels), background)
    ensures forall s :: s in background ==> IsInside(PictureOf(pixels), s)
  {
    ghost var pic := PictureOf(pixels);
    var edge := BorderOf(pixels.Length0, pixels.Length1, pic);
    background := {};
    Begins(pic, edge);
    while edge != []
      invariant IsOnTheWay(pic, edge, background)
      invariant IsNoMore(pic, edge, background)
      decreases |pic.light - background|, |edge|
    {
      var s := edge[0];
      assert s in edge;
      LightAt(pixels, s);
      if s in background || !IsNearlyWhite(pixels[s.x, s.y]) {
        Skips(pic, edge, background);
        edge := edge[1..];
      } else {
        var near := NeighboursOf(s, pixels.Length0, pixels.Length1, pic);
        Spreads(pic, edge, background, near);
        Shrinks(pic.light, background, s);
        edge := edge[1..] + near;
        background := background + {s};
      }
    }
    Ends(pic, background);
  }

  lemma LightAt(pixels: array2<Pixel>, s: Spot)
    requires IsInside(PictureOf(pixels), s)
    ensures IsPicture(PictureOf(pixels))
    ensures IsNearlyWhite(pixels[s.x, s.y]) <==> s in PictureOf(pixels).light
  {
    assert s == Spot(s.x, s.y);
  }

  lemma Begins(pic: Picture, edge: seq<Spot>)
    requires forall s :: s in edge <==> IsBorder(pic, s)
    ensures IsOnTheWay(pic, edge, {}) && IsNoMore(pic, edge, {})
  {
  }

  lemma Skips(pic: Picture, edge: seq<Spot>, background: set<Spot>)
    requires IsOnTheWay(pic, edge, background) && IsNoMore(pic, edge, background)
    requires edge != [] && (edge[0] in background || edge[0] !in pic.light)
    ensures IsOnTheWay(pic, edge[1..], background) && IsNoMore(pic, edge[1..], background)
  {
    assert edge == [edge[0]] + edge[1..];
  }

  lemma Ends(pic: Picture, background: set<Spot>)
    requires IsOnTheWay(pic, [], background) && IsNoMore(pic, [], background)
    ensures IsBackground(pic, background)
  {
  }

  lemma Shrinks(light: set<Spot>, background: set<Spot>, s: Spot)
    requires s in light && s !in background
    ensures |light - (background + {s})| < |light - background|
  {
    assert light - background == (light - (background + {s})) + {s};
  }

  lemma Spreads(pic: Picture, edge: seq<Spot>, background: set<Spot>, near: seq<Spot>)
    requires IsPicture(pic) && IsOnTheWay(pic, edge, background) && IsNoMore(pic, edge, background)
    requires edge != [] && edge[0] in pic.light
    requires forall t :: t in near <==> IsInside(pic, t) && AreNeighbours(edge[0], t)
    ensures IsOnTheWay(pic, edge[1..] + near, background + {edge[0]})
    ensures IsNoMore(pic, edge[1..] + near, background + {edge[0]})
  {
    var s := edge[0];
    assert edge == [s] + edge[1..];
    forall other | IsClosed(pic, other)
      ensures background + {s} <= other && forall t :: t in edge[1..] + near && t in pic.light ==> t in other
    {
      assert s in other;
    }
  }

  function Between(i: int, j: int): nat {
    if i < j then j - i else i - j
  }

  /** One pixel further, not across a corner. */
  predicate IsOneStep(a: Spot, b: Spot) {
    Between(a.x, b.x) + Between(a.y, b.y) == 1
  }

  ghost predicate IsInPicture(pixels: array2<Pixel>, s: Spot) {
    0 <= s.x < pixels.Length0 && 0 <= s.y < pixels.Length1
  }

  /** Pixels from an edge of the picture on, step by step, none with a channel under 240. */
  ghost predicate IsLightWay(pixels: array2<Pixel>, way: seq<Spot>)
    reads pixels
  {
    && way != []
    && (forall i :: 0 <= i < |way| ==> IsInPicture(pixels, way[i]))
    && (way[0].x == 0 || way[0].y == 0 || way[0].x == pixels.Length0 - 1 || way[0].y == pixels.Length1 - 1)
    && (forall i :: 0 < i < |way| ==> IsOneStep(way[i - 1], way[i]))
    && (forall i :: 0 <= i < |way| ==>
          var p := pixels[way[i].x, way[i].y]; p.red >= 240 && p.green >= 240 && p.blue >= 240)
  }

  lemma OneStepIsNeighbour(a: Spot, b: Spot)
    ensures IsOneStep(a, b) <==> AreNeighbours(a, b)
  {
  }

  lemma {:induction false} LightWaysAreTrails(pixels: array2<Pixel>, way: seq<Spot>)
    ensures IsLightWay(pixels, way) <==> IsTrail(PictureOf(pixels), way)
  {
    var pic := PictureOf(pixels);
    forall i | 0 < i < |way| ensures IsOneStep(way[i - 1], way[i]) <==> AreNeighbours(way[i - 1], way[i]) {
      OneStepIsNeighbour(way[i - 1], way[i]);
    }
    forall i | 0 <= i < |way| && IsInPicture(pixels, way[i])
      ensures IsNearlyWhite(pixels[way[i].x, way[i].y]) <==> way[i] in pic.light
    {
      LightAt(pixels, way[i]);
    }
  }

  /** What is cleared, said of the pixels alone. */
  lemma {:induction false} ClearedWhen(pixels: array2<Pixel>, s: Spot)
    ensures IsConnected(PictureOf(pixels), s)
       <==> exists way :: IsLightWay(pixels, way) && way[|way| - 1] == s
  {
    if IsConnected(PictureOf(pixels), s) {
      var trail :| IsTrail(PictureOf(pixels), trail) && trail[|trail| - 1] == s;
      LightWaysAreTrails(pixels, trail);
    }
    if way :| IsLightWay(pixels, way) && way[|way| - 1] == s {
      LightWaysAreTrails(pixels, way);
    }
  }

  /** Exactly the background is cleared, and nothing else changes. */
  method PortraitWithoutBackground(pixels: array2<Pixel>)
    requires pixels.Length0 > 0 <==> pixels.Length1 > 0
    modifies pixels
    ensures forall x, y :: 0 <= x < pixels.Length0 && 0 <= y < pixels.Length1 ==>
      pixels[x, y] == if IsConnected(old(PictureOf(pixels)), Spot(x, y)) then Pixel(0, 0, 0, 0) else old(pixels[x, y])
  {
    ghost var pic := PictureOf(pixels);
    var background := FindBackground(pixels);
    var rest := background;
    while rest != {}
      invariant rest <= background
      invariant forall x, y :: 0 <= x < pixels.Length0 && 0 <= y < pixels.Length1 ==>
        pixels[x, y] == if Spot(x, y) in background - rest then CLEAR else old(pixels[x, y])
      decreases rest
    {
      var s :| s in rest;
      assert IsInside(pic, s);
      pixels[s.x, s.y] := CLEAR;
      rest := rest - {s};
    }
    forall x, y | 0 <= x < pixels.Length0 && 0 <= y < pixels.Length1
      ensures Spot(x, y) in background <==> IsConnected(pic, Spot(x, y))
    {
      BackgroundIsConnected(pic, background, Spot(x, y));
    }
  }
}

/**
 * Scene objects as the layout fixers see them, and the geometric helpers the
 * fixers share: the closed box-overlap test, "move below the obstacle",
 * the walk to the nearest matching ancestor and the safe-area anchors.
 * What Unity computes (world corners, local points, the safe area) is given.
 */
module Geometry {
  import opened Wrappers
  import opened Strings

  datatype Vec2 = Vec2(x: real, y: real)

  /** A world-space rectangle: `GetWorldCorners` entries 0 (bottom-left) and 2 (top-right). */
  datatype Box = Box(min: Vec2, max: Vec2)

  /** A RectTransform: `anchoredPosition`, `sizeDelta` and its world corners. */
  datatype RectInfo = RectInfo(pos: Vec2, size: Vec2, world: Box)

  /** A GameObject: its name, its RectTransform (if any) and whether it has an Image. */
  datatype SceneObject = SceneObject(name: string, rect: Option<RectInfo>, hasImage: bool)

  predicate WellFormed(b: Box)
  {
    b.min.x <= b.max.x && b.min.y <= b.max.y
  }

  /** The shared AABB test: overlapping unless strictly apart on some axis. */
  predicate Overlaps(a: Box, b: Box)
  {
    !(a.max.x < b.min.x || a.min.x > b.max.x || a.max.y < b.min.y || a.min.y > b.max.y)
  }

  predicate Inside(p: Vec2, b: Box)
  {
    b.min.x <= p.x <= b.max.x && b.min.y <= p.y <= b.max.y
  }

  function MaxR(a: real, b: real): real { if a < b then b else a }

  /** For well-formed boxes the test is exactly "the closed boxes share a point". */
  lemma OverlapsIffCommonPoint(a: Box, b: Box)
    requires WellFormed(a) && WellFormed(b)
    ensures Overlaps(a, b) <==> exists p :: Inside(p, a) && Inside(p, b)
  {
    if Overlaps(a, b) {
      var p := Vec2(MaxR(a.min.x, b.min.x), MaxR(a.min.y, b.min.y));
      assert Inside(p, a) && Inside(p, b);
    }
  }

  lemma OverlapsSymmetric(a: Box, b: Box)
    ensures Overlaps(a, b) == Overlaps(b, a)
  {
  }

  /** Every well-formed box overlaps itself. */
  lemma OverlapsReflexive(a: Box)
    requires WellFormed(a)
    ensures Overlaps(a, a)
  {
  }

  /** Boxes that only touch along an edge count as overlapping. */
  lemma TouchingEdgesOverlap(a: Box, b: Box)
    requires WellFormed(a) && WellFormed(b)
    requires a.max.x == b.min.x && a.min.y == b.min.y
    ensures Overlaps(a, b)
  {
  }

  /** The box a rect covers in its parent's coordinates, centred on `pos`. */
  function AnchoredBox(r: RectInfo): Box
  {
    Box(Vec2(r.pos.x - r.size.x / 2.0, r.pos.y - r.size.y / 2.0),
        Vec2(r.pos.x + r.size.x / 2.0, r.pos.y + r.size.y / 2.0))
  }

  /**
   * "Move below the obstacle": keep x and put the element's top edge `margin`
   * below the obstacle's bottom edge.
   */
  function BelowPosition(element: RectInfo, obstacle: RectInfo, margin: real): (p: Vec2)
    ensures p.x == element.pos.x
    ensures p.y + element.size.y / 2.0 == obstacle.pos.y - obstacle.size.y / 2.0 - margin
  {
    Vec2(element.pos.x, obstacle.pos.y - obstacle.size.y / 2.0 - element.size.y / 2.0 - margin)
  }

  /** With a positive margin the moved element is strictly below the obstacle (in anchored coordinates). */
  lemma BelowPositionClears(element: RectInfo, obstacle: RectInfo, margin: real)
    requires margin > 0.0
    ensures AnchoredBox(element.(pos := BelowPosition(element, obstacle, margin))).max.y < AnchoredBox(obstacle).min.y
    ensures !Overlaps(AnchoredBox(element.(pos := BelowPosition(element, obstacle, margin))), AnchoredBox(obstacle))
  {
  }

  /** A looked-up object that exists, has a RectTransform and overlaps the button. */
  predicate Hit(button: Box, c: Option<SceneObject>)
  {
    c.Some? && c.value.rect.Some? && Overlaps(button, c.value.rect.value.world)
  }

  /** The first candidate, in lookup order, that the button overlaps. */
  function FirstHit(button: Box, cs: seq<Option<SceneObject>>): (r: Option<nat>)
    ensures r.Some? ==> r.value < |cs| && Hit(button, cs[r.value])
    ensures r.Some? ==> forall j :: 0 <= j < r.value ==> !Hit(button, cs[j])
    ensures r.None? <==> forall j :: 0 <= j < |cs| ==> !Hit(button, cs[j])
  {
    if cs == [] then None
    else if Hit(button, cs[0]) then Some(0)
    else match FirstHit(button, cs[1..])
      case None => None
      case Some(k) => Some(k + 1)
  }

  /** The button after "move below the first overlapping candidate". */
  function MovedBelow(button: RectInfo, cs: seq<Option<SceneObject>>, margin: real): RectInfo
  {
    match FirstHit(button.world, cs)
    case None => button
    case Some(k) => button.(pos := BelowPosition(button, cs[k].value.rect.value, margin))
  }

  /**
   * The loop of both button fixers: walk the candidates in order, and at the
   * first one the button overlaps, move the button below it and stop.
   */
  method MoveBelowFirstHit(button: RectInfo, cs: seq<Option<SceneObject>>, margin: real)
    returns (r: RectInfo)
    ensures r == MovedBelow(button, cs, margin)
    ensures r.pos.x == button.pos.x && r.size == button.size && r.world == button.world
    ensures r != button ==> exists k :: 0 <= k < |cs| && Hit(button.world, cs[k])
  {
    r := button;
    var i := 0;
    while i < |cs|
      invariant 0 <= i <= |cs|
      invariant forall j :: 0 <= j < i ==> !Hit(button.world, cs[j])
      invariant r == button
    {
      var c := cs[i];
      if c.Some? && c.value.rect.Some? && Overlaps(button.world, c.value.rect.value.world) {
        r := button.(pos := BelowPosition(button, c.value.rect.value, margin));
        assert FirstHit(button.world, cs) == Some(i);
        return;
      }
      i := i + 1;
    }
  }

  /** Which ancestors a fixer accepts as the slider's panel. */
  datatype PanelRule =
    | PanelOrImageWithRect  // has a RectTransform, and is named "...panel..." or has an Image
    | PanelOrImage          // named "...panel..." or has an Image
    | PanelName             // named "...panel..."

  predicate NamedPanel(o: SceneObject)
  {
    Contains(ToLower(o.name), "panel")
  }

  predicate IsPanel(rule: PanelRule, o: SceneObject)
  {
    match rule
    case PanelOrImageWithRect => o.rect.Some? && (NamedPanel(o) || o.hasImage)
    case PanelOrImage => NamedPanel(o) || o.hasImage
    case PanelName => NamedPanel(o)
  }

  /** The nearest ancestor the rule accepts; `chain` lists parent, grandparent, ... */
  function NearestAncestor(chain: seq<SceneObject>, rule: PanelRule): (r: Option<nat>)
    ensures r.Some? ==> r.value < |chain| && IsPanel(rule, chain[r.value])
    ensures r.Some? ==> forall j :: 0 <= j < r.value ==> !IsPanel(rule, chain[j])
    ensures r.None? <==> forall j :: 0 <= j < |chain| ==> !IsPanel(rule, chain[j])
  {
    if chain == [] then None
    else if IsPanel(rule, chain[0]) then Some(0)
    else match NearestAncestor(chain[1..], rule)
      case None => None
      case Some(k) => Some(k + 1)
  }

  /** The while loop that climbs `parent` links until the rule accepts one. */
  method FindAncestor(chain: seq<SceneObject>, rule: PanelRule) returns (r: Option<nat>)
    ensures r == NearestAncestor(chain, rule)
  {
    var i := 0;
    while i < |chain|
      invariant 0 <= i <= |chain|
      invariant forall j :: 0 <= j < i ==> !IsPanel(rule, chain[j])
    {
      if IsPanel(rule, chain[i]) {
        r := Some(i);
        return;
      }
      i := i + 1;
    }
    r := None;
  }

  /** What `GameObject.Find(name)` returns in a scene mapping names to active objects. */
  function Find(scene: map<string, SceneObject>, name: string): (r: Option<SceneObject>)
    ensures r.Some? <==> name in scene
    ensures r.Some? ==> r.value == scene[name]
  {
    if name in scene then Some(scene[name]) else None
  }

  /**
   * Horizontal constraint of a slider of width `w` centred at `x`: a right
   * edge past `bound` puts the right edge at `bound - inset`; otherwise a
   * left edge past `-bound` puts the left edge at `-bound + inset`.
   */
  function ConstrainSpan(x: real, w: real, bound: real, inset: real): (r: real)
    ensures x + w / 2.0 > bound ==> r + w / 2.0 == bound - inset
    ensures x + w / 2.0 <= bound && x - w / 2.0 < -bound ==> r - w / 2.0 == -bound + inset
    ensures x + w / 2.0 <= bound && x - w / 2.0 >= -bound ==> r == x
  {
    if x + w / 2.0 > bound then bound - inset - w / 2.0
    else if x - w / 2.0 < -bound then -bound + inset + w / 2.0
    else x
  }

  /** A slider narrow enough for the span ends up inside it, and a second pass leaves it there. */
  lemma ConstrainSpanFits(x: real, w: real, bound: real, inset: real)
    requires 0.0 <= inset && 0.0 <= w <= 2.0 * (bound - inset)
    ensures var r := ConstrainSpan(x, w, bound, inset);
      -bound <= r - w / 2.0 && r + w / 2.0 <= bound
    ensures ConstrainSpan(ConstrainSpan(x, w, bound, inset), w, bound, inset) == ConstrainSpan(x, w, bound, inset)
  {
  }

  /**
   * One axis of "fit the slider in the panel": `lo` and `hi` are the slider's
   * edges in the panel's space, `half` the allowed half-extent. An edge past
   * `half` shifts the position back by the overshoot plus `padding`; the two
   * sides are checked one after the other against the original edges.
   */
  function FitAxis(p: real, lo: real, hi: real, half: real, padding: real): real
  {
    var afterHigh := if hi > half then p - ((hi - half) + padding) else p;
    if lo < -half then afterHigh + ((-half - lo) + padding) else afterHigh
  }

  /** The panel half-extents after taking off the margin. */
  function Halves(panelSize: Vec2, margin: real): Vec2
  {
    Vec2(panelSize.x / 2.0 - margin, panelSize.y / 2.0 - margin)
  }

  /** Some edge of the slider lies outside the allowed area. */
  predicate Violates(localMin: Vec2, localMax: Vec2, panelSize: Vec2, margin: real)
  {
    var h := Halves(panelSize, margin);
    localMax.x > h.x || localMin.x < -h.x || localMax.y > h.y || localMin.y < -h.y
  }

  function Fitted(pos: Vec2, localMin: Vec2, localMax: Vec2, panelSize: Vec2, margin: real, padding: real): Vec2
  {
    var h := Halves(panelSize, margin);
    Vec2(FitAxis(pos.x, localMin.x, localMax.x, h.x, padding),
         FitAxis(pos.y, localMin.y, localMax.y, h.y, padding))
  }

  /**
   * The four checks of both `EnsureSliderFitsInPanel` versions, each moving
   * the position and noting that an adjustment is needed.
   */
  method FitSliderInPanel(pos: Vec2, localMin: Vec2, localMax: Vec2, panelSize: Vec2, margin: real, padding: real)
    returns (newPos: Vec2, needsAdjustment: bool)
    ensures newPos == Fitted(pos, localMin, localMax, panelSize, margin, padding)
    ensures needsAdjustment <==> Violates(localMin, localMax, panelSize, margin)
  {
    newPos := pos;
    needsAdjustment := false;
    var halfX := panelSize.x / 2.0 - margin;
    var halfY := panelSize.y / 2.0 - margin;
    if localMax.x > halfX {
      newPos := newPos.(x := newPos.x - ((localMax.x - halfX) + padding));
      needsAdjustment := true;
    }
    if localMin.x < -halfX {
      newPos := newPos.(x := newPos.x + ((-halfX - localMin.x) + padding));
      needsAdjustment := true;
    }
    if localMax.y > halfY {
      newPos := newPos.(y := newPos.y - ((localMax.y - halfY) + padding));
      needsAdjustment := true;
    }
    if localMin.y < -halfY {
      newPos := newPos.(y := newPos.y + ((-halfY - localMin.y) + padding));
      needsAdjustment := true;
    }
  }

  /** An overshoot on one side only shifts by exactly that overshoot plus the padding; none, no shift. */
  lemma FitAxisShift(p: real, lo: real, hi: real, half: real, padding: real)
    ensures hi > half && lo >= -half ==> FitAxis(p, lo, hi, half, padding) == p - (hi - half) - padding
    ensures hi <= half && lo < -half ==> FitAxis(p, lo, hi, half, padding) == p + (-half - lo) + padding
    ensures hi <= half && lo >= -half ==> FitAxis(p, lo, hi, half, padding) == p
  {
  }

  /**
   * If the slider's edges move with its position and it is narrow enough,
   * the shifted edges lie within `[-half, half]`.
   */
  lemma FitAxisFits(p: real, lo: real, hi: real, half: real, padding: real)
    requires lo <= hi && 0.0 <= padding && hi - lo <= 2.0 * half - padding
    ensures var d := FitAxis(p, lo, hi, half, padding) - p;
      -half <= lo + d && hi + d <= half
  {
  }

  /** With nothing outside the allowed area the slider is not moved. */
  lemma FittedWithoutViolation(pos: Vec2, localMin: Vec2, localMax: Vec2, panelSize: Vec2, margin: real, padding: real)
    requires !Violates(localMin, localMax, panelSize, margin)
    ensures Fitted(pos, localMin, localMax, panelSize, margin, padding) == pos
  {
  }

  /** Anchors of a safe-area panel: the safe rect's corners over the screen size. */
  datatype Anchors = Anchors(min: Vec2, max: Vec2)

  /**
   * The safe-area anchor arithmetic. A zero screen dimension makes C# divide
   * by zero; that case is answered `None` here.
   */
  function SafeAreaAnchors(safePos: Vec2, safeSize: Vec2, screen: Vec2): (r: Option<Anchors>)
    ensures r.None? <==> screen.x == 0.0 || screen.y == 0.0
    ensures r.Some? ==> r.value.min.x * screen.x == safePos.x && r.value.min.y * screen.y == safePos.y
    ensures r.Some? ==> r.value.max.x * screen.x == safePos.x + safeSize.x
    ensures r.Some? ==> r.value.max.y * screen.y == safePos.y + safeSize.y
  {
    if screen.x == 0.0 || screen.y == 0.0 then None
    else Some(Anchors(Vec2(safePos.x / screen.x, safePos.y / screen.y),
                      Vec2((safePos.x + safeSize.x) / screen.x, (safePos.y + safeSize.y) / screen.y)))
  }

  lemma DivideWithin(a: real, b: real, s: real)
    requires s > 0.0 && 0.0 <= a <= b <= s
    ensures 0.0 <= a / s <= b / s <= 1.0
  {
    assert a / s * s == a && b / s * s == b;
  }

  /** A safe area that lies within the screen gives anchors with 0 <= min <= max <= 1. */
  lemma SafeAreaAnchorsInUnitSquare(safePos: Vec2, safeSize: Vec2, screen: Vec2)
    requires screen.x > 0.0 && screen.y > 0.0
    requires 0.0 <= safePos.x && 0.0 <= safeSize.x && safePos.x + safeSize.x <= screen.x
    requires 0.0 <= safePos.y && 0.0 <= safeSize.y && safePos.y + safeSize.y <= screen.y
    ensures SafeAreaAnchors(safePos, safeSize, screen).Some?
    ensures var a := SafeAreaAnchors(safePos, safeSize, screen).value;
      0.0 <= a.min.x <= a.max.x <= 1.0 && 0.0 <= a.min.y <= a.max.y <= 1.0
  {
    DivideWithin(safePos.x, safePos.x + safeSize.x, screen.x);
    DivideWithin(safePos.y, safePos.y + safeSize.y, screen.y);
  }
}

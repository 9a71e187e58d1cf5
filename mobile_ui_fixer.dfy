/**
 * `MobileUIFixer`: moves control buttons a fixed distance below the timer
 * panel, pushes sliders back inside their panel with 10 units of padding,
 * and re-applies the safe area whenever the screen size changes.
 */
module MobileUIFixer {
  import opened Wrappers
  import opened Strings
  import opened Geometry
  import AutoMobileUIFix

  /** The words of the filter in `FixButtonPositions`, in the order it tests them. */
  const ButtonWords: seq<string> := ["iniciar", "reiniciar", "play", "reset", "pause"]

  function IsControlButton(name: string): (r: bool)
    ensures r <==> MentionsAny(name, ButtonWords)
  {
    var n := ToLower(name);
    var r := Contains(n, "iniciar") || Contains(n, "reiniciar") || Contains(n, "play") || Contains(n, "reset")
             || Contains(n, "pause");
    assert r ==> exists k | 0 <= k < |ButtonWords| :: Contains(n, ButtonWords[k]) by {
      if Contains(n, "iniciar") { assert Contains(n, ButtonWords[0]); }
      else if Contains(n, "reiniciar") { assert Contains(n, ButtonWords[1]); }
      else if Contains(n, "play") { assert Contains(n, ButtonWords[2]); }
      else if Contains(n, "reset") { assert Contains(n, ButtonWords[3]); }
      else if Contains(n, "pause") { assert Contains(n, ButtonWords[4]); }
    }
    r
  }

  /** The same five words as `AutoMobileUIFix`'s filter, in another order: the same buttons. */
  lemma SameFilterAsAutoFix(name: string)
    ensures IsControlButton(name) <==> AutoMobileUIFix.IsControlButton(name)
  {
    var n := ToLower(name);
    var other := AutoMobileUIFix.TimerControlWords;
    if IsControlButton(name) {
      var k :| 0 <= k < |ButtonWords| && Contains(n, ButtonWords[k]);
      var j := if k == 3 then 4 else if k == 4 then 3 else k;
      assert other[j] == ButtonWords[k];
    }
    if AutoMobileUIFix.IsControlButton(name) {
      var j :| 0 <= j < |other| && Contains(n, other[j]);
      var k := if j == 3 then 4 else if j == 4 then 3 else j;
      assert ButtonWords[k] == other[j];
    }
  }

  /** `GameObject.Find("TimerPanel") ?? GameObject.Find("Timer Panel") ?? GameObject.Find("Panel")`. */
  function TimerPanel(scene: map<string, SceneObject>): (r: Option<SceneObject>)
    ensures "TimerPanel" in scene ==> r == Some(scene["TimerPanel"])
    ensures "TimerPanel" !in scene && "Timer Panel" in scene ==> r == Some(scene["Timer Panel"])
    ensures "TimerPanel" !in scene && "Timer Panel" !in scene ==> r == Find(scene, "Panel")
  {
    var first := Find(scene, "TimerPanel");
    if first.Some? then first
    else
      var second := Find(scene, "Timer Panel");
      if second.Some? then second else Find(scene, "Panel")
  }

  /** How close below the timer's bottom edge a button may sit, and where it is put instead. */
  const Buffer: real := 100.0
  const Drop: real := 120.0

  /** The y of the timer panel's bottom edge, when the panel exists and has a RectTransform. */
  function TimerBottom(scene: map<string, SceneObject>): Option<real>
  {
    var panel := TimerPanel(scene);
    if panel.Some? && panel.value.rect.Some? then
      var timer := panel.value.rect.value;
      Some(timer.pos.y - timer.size.y / 2.0)
    else None
  }

  function AdjustedPosition(pos: Vec2, scene: map<string, SceneObject>): Vec2
  {
    match TimerBottom(scene)
    case None => pos
    case Some(bottom) => if pos.y > bottom - Buffer then Vec2(pos.x, bottom - Drop) else pos
  }

  /** `AdjustButtonPosition`: the button's new `anchoredPosition`. */
  method AdjustButtonPosition(pos: Vec2, scene: map<string, SceneObject>) returns (r: Vec2)
    ensures r == AdjustedPosition(pos, scene)
  {
    r := pos;
    var timerPanel := TimerPanel(scene);
    if timerPanel.Some? {
      var timerRect := timerPanel.value.rect;
      if timerRect.Some? {
        var timerBottom := timerRect.value.pos.y - timerRect.value.size.y / 2.0;
        if pos.y > timerBottom - Buffer {
          r := Vec2(pos.x, timerBottom - Drop);
        }
      }
    }
  }

  /**
   * A button closer than 100 below the timer's bottom edge goes to 120 below
   * it, keeping x; afterwards it is at least 100 below, so a second call
   * changes nothing. Without a timer panel (or its RectTransform) nothing moves.
   */
  lemma AdjustButtonRule(pos: Vec2, scene: map<string, SceneObject>)
    ensures TimerBottom(scene).None? ==> AdjustedPosition(pos, scene) == pos
    ensures match TimerBottom(scene)
      case None => true
      case Some(bottom) =>
        && (pos.y > bottom - Buffer ==> AdjustedPosition(pos, scene) == Vec2(pos.x, bottom - Drop))
        && (pos.y <= bottom - Buffer ==> AdjustedPosition(pos, scene) == pos)
        && AdjustedPosition(pos, scene).y <= bottom - Buffer
    ensures AdjustedPosition(AdjustedPosition(pos, scene), scene) == AdjustedPosition(pos, scene)
  {
  }

  /** A "Timer Panel" without a RectTransform hides a "Panel" that has one: nothing moves. */
  lemma FirstFoundPanelDecides(pos: Vec2, scene: map<string, SceneObject>)
    requires "TimerPanel" !in scene && "Timer Panel" in scene && scene["Timer Panel"].rect.None?
    ensures AdjustedPosition(pos, scene) == pos
  {
  }

  /** `FindParentPanel`: the nearest ancestor named "...panel..." or with an Image. */
  method FindParentPanel(chain: seq<SceneObject>) returns (r: Option<nat>)
    ensures r == NearestAncestor(chain, PanelOrImage)
  {
    r := FindAncestor(chain, PanelOrImage);
  }

  /** The extra distance `EnsureSliderFitsInPanel` moves a slider past the panel's side. */
  const SliderPadding: real := 10.0

  /** `EnsureSliderFitsInPanel`: checks against half the panel size, no margin, 10 of padding. */
  method EnsureSliderFitsInPanel(slider: RectInfo, panel: RectInfo, localMin: Vec2, localMax: Vec2) returns (r: RectInfo)
    ensures r == slider.(pos := Fitted(slider.pos, localMin, localMax, panel.size, 0.0, SliderPadding))
    ensures !Violates(localMin, localMax, panel.size, 0.0) ==> r == slider
  {
    var newPos, positionChanged := FitSliderInPanel(slider.pos, localMin, localMax, panel.size, 0.0, SliderPadding);
    r := slider;
    if positionChanged {
      r := slider.(pos := newPos);
    } else {
      FittedWithoutViolation(slider.pos, localMin, localMax, panel.size, 0.0, SliderPadding);
    }
  }

  /**
   * A side past half the panel moves the slider back by the overshoot plus
   * 10; a slider at least 10 narrower than the panel then ends inside it.
   */
  lemma SliderFitRule(p: real, lo: real, hi: real, panelSize: real)
    requires lo <= hi && hi - lo <= panelSize - SliderPadding
    ensures var half := panelSize / 2.0;
      var q := FitAxis(p, lo, hi, half, SliderPadding);
      && (hi > half ==> q == p - (hi - half) - SliderPadding)
      && (lo < -half ==> q == p + (-half - lo) + SliderPadding)
      && (hi <= half && lo >= -half ==> q == p)
      && -half <= lo + (q - p) && hi + (q - p) <= half
  {
    var half := panelSize / 2.0;
    FitAxisShift(p, lo, hi, half, SliderPadding);
    FitAxisFits(p, lo, hi, half, SliderPadding);
  }

  /** The body of `FixSliderPositions` for one slider. */
  method FixSlider(slider: RectInfo, chain: seq<SceneObject>, localMin: Vec2, localMax: Vec2) returns (r: RectInfo)
    ensures match NearestAncestor(chain, PanelOrImage)
      case None => r == slider
      case Some(k) =>
        if chain[k].rect.None? then r == slider
        else r == slider.(pos := Fitted(slider.pos, localMin, localMax, chain[k].rect.value.size, 0.0, SliderPadding))
  {
    var parentPanel := FindParentPanel(chain);
    r := slider;
    if parentPanel.Some? && chain[parentPanel.value].rect.Some? {
      r := EnsureSliderFitsInPanel(slider, chain[parentPanel.value].rect.value, localMin, localMax);
    }
  }

  /** What `Update` keeps: the recorded screen size, and every anchor pair it has written. */
  datatype Watch = Watch(screenSize: Vec2, applied: seq<Option<Anchors>>)

  /** `Update`: on a new screen size, record it and (if enabled) re-apply the safe area. */
  function AfterUpdate(w: Watch, applySafeArea: bool, width: int, height: int, safePos: Vec2, safeSize: Vec2): Watch
  {
    var screen := Vec2(width as real, height as real);
    if w.screenSize == screen then w
    else w.(screenSize := screen,
            applied := if applySafeArea then w.applied + [SafeAreaAnchors(safePos, safeSize, screen)] else w.applied)
  }

  /**
   * The safe area is re-applied exactly when the size differs from the
   * recorded one (and applying is enabled); the new size is then recorded,
   * so a second update with the same size does nothing.
   */
  lemma UpdateRule(w: Watch, applySafeArea: bool, width: int, height: int, safePos: Vec2, safeSize: Vec2)
    ensures var r := AfterUpdate(w, applySafeArea, width, height, safePos, safeSize);
      && r.screenSize == Vec2(width as real, height as real)
      && (|r.applied| == |w.applied| + 1 <==> applySafeArea && w.screenSize != Vec2(width as real, height as real))
      && (|r.applied| == |w.applied| || |r.applied| == |w.applied| + 1)
      && r.applied[..|w.applied|] == w.applied
      && AfterUpdate(r, applySafeArea, width, height, safePos, safeSize) == r
  {
  }

  class MobileUIFixer {
    const applySafeArea: bool
    var screenSize: Vec2
    /** The anchor pairs written to the safe-area rect, oldest first. */
    var applied: seq<Option<Anchors>>

    ghost function Model(): Watch
      reads this
    {
      Watch(screenSize, applied)
    }

    /** `Awake`: record the screen size. */
    constructor (applySafeArea: bool, width: int, height: int)
      ensures this.applySafeArea == applySafeArea
      ensures Model() == Watch(Vec2(width as real, height as real), [])
    {
      this.applySafeArea := applySafeArea;
      screenSize := Vec2(width as real, height as real);
      applied := [];
    }

    /** `ApplySafeArea`, for the given safe area and screen size. */
    method ApplySafeArea(safePos: Vec2, safeSize: Vec2, width: int, height: int)
      modifies this`applied
      ensures applied == old(applied) + [SafeAreaAnchors(safePos, safeSize, Vec2(width as real, height as real))]
    {
      applied := applied + [SafeAreaAnchors(safePos, safeSize, Vec2(width as real, height as real))];
    }

    /** `Update`, once per frame, given the screen's current size and safe area. */
    method Update(width: int, height: int, safePos: Vec2, safeSize: Vec2)
      modifies this
      ensures Model() == AfterUpdate(old(Model()), applySafeArea, width, height, safePos, safeSize)
    {
      if width as real != screenSize.x || height as real != screenSize.y {
        screenSize := Vec2(width as real, height as real);
        if applySafeArea {
          ApplySafeArea(safePos, safeSize, width, height);
        }
      }
    }
  }
}

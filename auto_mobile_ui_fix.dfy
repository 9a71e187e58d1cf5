/**
 * `AutoMobileUIFix`: the same kind of start-up fixes as `MobileUIManager`,
 * with its own choices: a narrower button filter, a 20-unit gap below the
 * timer, a longer lookup list, and a slider fit that checks all four sides
 * against the panel less a 20-unit margin.
 */
module AutoMobileUIFix {
  import opened Wrappers
  import opened Strings
  import opened Geometry
  import MobileUIManager

  /** The words of the control-button filter in `FixButtonPositions`. */
  const TimerControlWords: seq<string> := ["iniciar", "reiniciar", "play", "pause", "reset"]

  function IsControlButton(name: string): (r: bool)
    ensures r <==> MentionsAny(name, TimerControlWords)
  {
    var n := ToLower(name);
    var r := Contains(n, "iniciar") || Contains(n, "reiniciar") || Contains(n, "play") || Contains(n, "pause")
             || Contains(n, "reset");
    assert r ==> exists k | 0 <= k < |TimerControlWords| :: Contains(n, TimerControlWords[k]) by {
      if Contains(n, "iniciar") { assert Contains(n, TimerControlWords[0]); }
      else if Contains(n, "reiniciar") { assert Contains(n, TimerControlWords[1]); }
      else if Contains(n, "play") { assert Contains(n, TimerControlWords[2]); }
      else if Contains(n, "pause") { assert Contains(n, TimerControlWords[3]); }
      else if Contains(n, "reset") { assert Contains(n, TimerControlWords[4]); }
    }
    r
  }

  /** Every button this filter picks, `MobileUIManager` picks too. */
  lemma FilterNarrowerThanManager(name: string)
    ensures IsControlButton(name) ==> MobileUIManager.IsControlButton(name)
  {
    if IsControlButton(name) {
      var k :| 0 <= k < |TimerControlWords| && Contains(ToLower(name), TimerControlWords[k]);
      assert MobileUIManager.ControlWords[k] == TimerControlWords[k];
    }
  }

  /** ... but not the other way round: a button named "Stop" is picked only by `MobileUIManager`. */
  lemma StopIsOnlyPickedByManager()
    ensures MobileUIManager.IsControlButton("Stop")
    ensures !IsControlButton("Stop")
  {
    var n := ToLower("Stop");
    assert n == "stop";
    assert OccursAt(n, "stop", 0);
    assert MobileUIManager.ControlWords[6] == "stop";
    assert !OccursAt(n, "play", 0);
  }

  /** The gap `CalculateNonOverlappingPosition` leaves below the timer. */
  const Gap: real := 20.0

  function CalculateNonOverlappingPosition(button: RectInfo, timer: RectInfo): Vec2
  {
    BelowPosition(button, timer, Gap)
  }

  /** Keep x; put the button's top edge 20 below the timer's bottom edge, clear of it. */
  lemma NonOverlappingPositionRule(button: RectInfo, timer: RectInfo)
    ensures CalculateNonOverlappingPosition(button, timer).x == button.pos.x
    ensures CalculateNonOverlappingPosition(button, timer).y
            == timer.pos.y - timer.size.y / 2.0 - button.size.y / 2.0 - Gap
    ensures !Overlaps(AnchoredBox(button.(pos := CalculateNonOverlappingPosition(button, timer))), AnchoredBox(timer))
  {
    BelowPositionClears(button, timer, Gap);
  }

  /** The timer objects `CheckAndFixButtonOverlap` looks up, in order. */
  function TimerLookups(scene: map<string, SceneObject>): seq<Option<SceneObject>>
  {
    [Find(scene, "TimerPanel"), Find(scene, "Timer Panel"), Find(scene, "Panel"),
     Find(scene, "TimerText"), Find(scene, "Timer")]
  }

  method CheckAndFixButtonOverlap(button: RectInfo, scene: map<string, SceneObject>) returns (r: RectInfo)
    ensures r == MovedBelow(button, TimerLookups(scene), Gap)
  {
    r := MoveBelowFirstHit(button, TimerLookups(scene), Gap);
  }

  /** Only the first overlapping timer object, in lookup order, is used. */
  lemma CheckAndFixButtonOverlapRule(button: RectInfo, scene: map<string, SceneObject>)
    ensures var cs := TimerLookups(scene);
      match FirstHit(button.world, cs)
      case None => MovedBelow(button, cs, Gap) == button
      case Some(k) =>
        && (forall j :: 0 <= j < k ==> !Hit(button.world, cs[j]))
        && MovedBelow(button, cs, Gap).pos == CalculateNonOverlappingPosition(button, cs[k].value.rect.value)
  {
  }

  /** A button overlapping both "Panel" and "TimerText" is moved below "Panel", which comes first. */
  lemma PanelBeforeTimerText(button: RectInfo, scene: map<string, SceneObject>)
    requires "TimerPanel" !in scene && "Timer Panel" !in scene
    requires Hit(button.world, Find(scene, "Panel")) && Hit(button.world, Find(scene, "TimerText"))
    ensures MovedBelow(button, TimerLookups(scene), Gap).pos
            == CalculateNonOverlappingPosition(button, scene["Panel"].rect.value)
  {
    var cs := TimerLookups(scene);
    assert !Hit(button.world, cs[0]) && !Hit(button.world, cs[1]) && Hit(button.world, cs[2]);
    var first := FirstHit(button.world, cs);
    assert first.Some?;
    assert first.value == 2;
  }

  /** `FindParentPanel`: the nearest ancestor named "...panel..." or with an Image. */
  method FindParentPanel(chain: seq<SceneObject>) returns (r: Option<nat>)
    ensures r == NearestAncestor(chain, PanelOrImage)
  {
    r := FindAncestor(chain, PanelOrImage);
  }

  /** The margin `EnsureSliderFitsInPanel` keeps inside the panel. */
  const SliderMargin: real := 20.0

  /**
   * `EnsureSliderFitsInPanel`: `localMin`/`localMax` are the slider's corners
   * in the panel's space; the new position is written only when adjusted.
   */
  method EnsureSliderFitsInPanel(slider: RectInfo, panel: RectInfo, localMin: Vec2, localMax: Vec2) returns (r: RectInfo)
    ensures r == slider.(pos := Fitted(slider.pos, localMin, localMax, panel.size, SliderMargin, 0.0))
    ensures !Violates(localMin, localMax, panel.size, SliderMargin) ==> r == slider
  {
    var newPos, needsAdjustment := FitSliderInPanel(slider.pos, localMin, localMax, panel.size, SliderMargin, 0.0);
    r := slider;
    if needsAdjustment {
      r := slider.(pos := newPos);
    } else {
      FittedWithoutViolation(slider.pos, localMin, localMax, panel.size, SliderMargin, 0.0);
    }
  }

  /**
   * A side past the panel's half-size less 20 moves the slider back by
   * exactly the overshoot; a slider that fits then lies within the margin.
   */
  lemma SliderFitRule(p: real, lo: real, hi: real, panelSize: real)
    requires lo <= hi && hi - lo <= panelSize - 2.0 * SliderMargin
    ensures var half := panelSize / 2.0 - SliderMargin;
      var q := FitAxis(p, lo, hi, half, 0.0);
      && (hi > half ==> q == p - (hi - half))
      && (lo < -half ==> q == p + (-half - lo))
      && (hi <= half && lo >= -half ==> q == p)
      && -half <= lo + (q - p) && hi + (q - p) <= half
  {
    var half := panelSize / 2.0 - SliderMargin;
    FitAxisShift(p, lo, hi, half, 0.0);
    FitAxisFits(p, lo, hi, half, 0.0);
  }

  /**
   * The body of `FixSliderBounds` for one slider. The first ancestor that the
   * walk accepts is used; when it has no RectTransform the slider stays put,
   * even if an ancestor further up has one.
   */
  method FixSlider(slider: RectInfo, chain: seq<SceneObject>, localMin: Vec2, localMax: Vec2) returns (r: RectInfo)
    ensures match NearestAncestor(chain, PanelOrImage)
      case None => r == slider
      case Some(k) =>
        if chain[k].rect.None? then r == slider
        else r == slider.(pos := Fitted(slider.pos, localMin, localMax, chain[k].rect.value.size, SliderMargin, 0.0))
  {
    var parentPanel := FindParentPanel(chain);
    r := slider;
    if parentPanel.Some? && chain[parentPanel.value].rect.Some? {
      r := EnsureSliderFitsInPanel(slider, chain[parentPanel.value].rect.value, localMin, localMax);
    }
  }
}

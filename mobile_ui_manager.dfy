/**
 * `MobileUIManager`: on start-up it moves control buttons below the timer
 * they overlap, keeps sliders within their panel horizontally and anchors
 * a safe-area panel to the screen's safe area.
 */
module MobileUIManager {
  import opened Wrappers
  import opened Strings
  import opened Geometry

  /** The words that mark a control button, in the order the source tests them. */
  const ControlWords: seq<string> := ["iniciar", "reiniciar", "play", "pause", "reset", "start", "stop"]

  /** `IsControlButton`, on the button's name. */
  function IsControlButton(name: string): (r: bool)
    ensures r <==> MentionsAny(name, ControlWords)
  {
    var n := ToLower(name);
    var r := Contains(n, "iniciar") || Contains(n, "reiniciar") || Contains(n, "play") || Contains(n, "pause")
             || Contains(n, "reset") || Contains(n, "start") || Contains(n, "stop");
    assert r ==> exists k | 0 <= k < |ControlWords| :: Contains(n, ControlWords[k]) by {
      if Contains(n, "iniciar") { assert Contains(n, ControlWords[0]); }
      else if Contains(n, "reiniciar") { assert Contains(n, ControlWords[1]); }
      else if Contains(n, "play") { assert Contains(n, ControlWords[2]); }
      else if Contains(n, "pause") { assert Contains(n, ControlWords[3]); }
      else if Contains(n, "reset") { assert Contains(n, ControlWords[4]); }
      else if Contains(n, "start") { assert Contains(n, ControlWords[5]); }
      else if Contains(n, "stop") { assert Contains(n, ControlWords[6]); }
    }
    r
  }

  /** "reiniciar" adds nothing to the test: every name containing it contains "iniciar". */
  lemma ReiniciarIsRedundant(name: string)
    ensures IsControlButton(name) <==> MentionsAny(name, ["iniciar", "play", "pause", "reset", "start", "stop"])
  {
    var n := ToLower(name);
    var shorter: seq<string> := ["iniciar", "play", "pause", "reset", "start", "stop"];
    if IsControlButton(name) {
      var k :| 0 <= k < |ControlWords| && Contains(n, ControlWords[k]);
      if k == 1 {
        ReiniciarContainsIniciar(n);
        assert Contains(n, shorter[0]);
      } else {
        var j := if k == 0 then 0 else k - 1;
        assert shorter[j] == ControlWords[k];
      }
    }
    if MentionsAny(name, shorter) {
      var j :| 0 <= j < |shorter| && Contains(n, shorter[j]);
      var k := if j == 0 then 0 else j + 1;
      assert ControlWords[k] == shorter[j];
    }
  }

  /** The gap `CalculateSafePosition` leaves below the obstacle. */
  const SafeMargin: real := 30.0

  function CalculateSafePosition(element: RectInfo, obstacle: RectInfo): Vec2
  {
    BelowPosition(element, obstacle, SafeMargin)
  }

  /** Keep x; put the element's top edge 30 below the obstacle's bottom edge, clear of it. */
  lemma SafePositionRule(element: RectInfo, obstacle: RectInfo)
    ensures CalculateSafePosition(element, obstacle).x == element.pos.x
    ensures CalculateSafePosition(element, obstacle).y
            == obstacle.pos.y - obstacle.size.y / 2.0 - element.size.y / 2.0 - SafeMargin
    ensures !Overlaps(AnchoredBox(element.(pos := CalculateSafePosition(element, obstacle))), AnchoredBox(obstacle))
  {
    BelowPositionClears(element, obstacle, SafeMargin);
  }

  /** The objects `FixButtonPosition` looks up, in order. */
  function TimerLookups(scene: map<string, SceneObject>): seq<Option<SceneObject>>
  {
    [Find(scene, "TimerPanel"), Find(scene, "Timer Panel"), Find(scene, "Timer"), Find(scene, "TimerText")]
  }

  /** `FixButtonPosition`: the button's RectTransform after the fix. */
  method FixButtonPosition(button: RectInfo, scene: map<string, SceneObject>) returns (r: RectInfo)
    ensures r == MovedBelow(button, TimerLookups(scene), SafeMargin)
  {
    r := MoveBelowFirstHit(button, TimerLookups(scene), SafeMargin);
  }

  /**
   * The button is moved at most once: below the first looked-up object it
   * overlaps, and only when there is one.
   */
  lemma FixButtonPositionRule(button: RectInfo, scene: map<string, SceneObject>)
    ensures var cs := TimerLookups(scene);
      match FirstHit(button.world, cs)
      case None => MovedBelow(button, cs, SafeMargin) == button
      case Some(k) =>
        && (forall j :: 0 <= j < k ==> !Hit(button.world, cs[j]))
        && MovedBelow(button, cs, SafeMargin).pos == CalculateSafePosition(button, cs[k].value.rect.value)
  {
  }

  /** The margin `ConstrainSliderToParent` keeps from the parent's sides. */
  const SliderMargin: real := 20.0

  /** `ConstrainSliderToParent`: the slider's RectTransform after the constraint. */
  function SliderConstrained(slider: RectInfo, chain: seq<SceneObject>): RectInfo
  {
    match NearestAncestor(chain, PanelOrImageWithRect)
    case None => slider
    case Some(k) =>
      var parent := chain[k].rect.value;
      slider.(pos := Vec2(ConstrainSpan(slider.pos.x, slider.size.x, parent.size.x / 2.0 - SliderMargin, 0.0), slider.pos.y))
  }

  /** The parent walk, then the horizontal constraint; `chain` lists parent, grandparent, ... */
  method ConstrainSliderToParent(slider: RectInfo, chain: seq<SceneObject>) returns (r: RectInfo)
    ensures r == SliderConstrained(slider, chain)
  {
    var found := FindAncestor(chain, PanelOrImageWithRect);
    r := slider;
    if found.Some? {
      var parentRect := chain[found.value].rect.value;
      var halfParentWidth := parentRect.size.x / 2.0 - SliderMargin;
      var halfSliderWidth := slider.size.x / 2.0;
      var x := slider.pos.x;
      if x + halfSliderWidth > halfParentWidth {
        x := halfParentWidth - halfSliderWidth;
      } else if x - halfSliderWidth < -halfParentWidth {
        x := -halfParentWidth + halfSliderWidth;
      }
      r := slider.(pos := slider.pos.(x := x));
    }
  }

  /**
   * Only x can change. With no accepted parent nothing changes. With one, a
   * slider that fits ends up within the parent's sides less the margin, and
   * a second pass changes nothing.
   */
  lemma ConstrainSliderRule(slider: RectInfo, chain: seq<SceneObject>)
    ensures SliderConstrained(slider, chain).pos.y == slider.pos.y
    ensures SliderConstrained(slider, chain).size == slider.size
    ensures NearestAncestor(chain, PanelOrImageWithRect).None? ==> SliderConstrained(slider, chain) == slider
    ensures match NearestAncestor(chain, PanelOrImageWithRect)
      case None => true
      case Some(k) =>
        var bound := chain[k].rect.value.size.x / 2.0 - SliderMargin;
        var r := SliderConstrained(slider, chain);
        0.0 <= slider.size.x <= 2.0 * bound ==>
          && -bound <= r.pos.x - slider.size.x / 2.0 && r.pos.x + slider.size.x / 2.0 <= bound
          && SliderConstrained(r, chain) == r
  {
    match NearestAncestor(chain, PanelOrImageWithRect)
    case None =>
    case Some(k) =>
      var bound := chain[k].rect.value.size.x / 2.0 - SliderMargin;
      if 0.0 <= slider.size.x <= 2.0 * bound {
        ConstrainSpanFits(slider.pos.x, slider.size.x, bound, 0.0);
      }
  }

  /** The anchor arithmetic of `SetupSafeArea`, for the given safe area and screen size. */
  function SetupSafeArea(safePos: Vec2, safeSize: Vec2, screenWidth: int, screenHeight: int): (r: Option<Anchors>)
    ensures r.None? <==> screenWidth == 0 || screenHeight == 0
    ensures r.Some? ==> && r.value.min.x * screenWidth as real == safePos.x
                        && r.value.min.y * screenHeight as real == safePos.y
                        && r.value.max.x * screenWidth as real == safePos.x + safeSize.x
                        && r.value.max.y * screenHeight as real == safePos.y + safeSize.y
  {
    SafeAreaAnchors(safePos, safeSize, Vec2(screenWidth as real, screenHeight as real))
  }
}

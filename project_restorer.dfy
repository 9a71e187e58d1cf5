/**
 * `ProjectRestorer`: a one-shot repair run over the scene. Each step runs
 * when its flag is set, in a fixed order: character orientations, UI
 * fonts, enabling buttons, TungTung's pose, mobile layout. The scene's
 * buttons, texts and sliders are objects updated in place; the lists the
 * scene search returns are given.
 */
module ProjectRestorer {
  import opened Wrappers
  import opened Geometry
  import AutoMobileUIFix
  import ButtonStyling

  class Button {
    const name: string
    /** Whether the button has a RectTransform. */
    const hasRect: bool
    var interactable: bool
    var anchoredPosition: Vec2

    constructor (name: string, hasRect: bool, interactable: bool, anchoredPosition: Vec2)
      ensures this.name == name && this.hasRect == hasRect
      ensures this.interactable == interactable && this.anchoredPosition == anchoredPosition
    {
      this.name := name;
      this.hasRect := hasRect;
      this.interactable := interactable;
      this.anchoredPosition := anchoredPosition;
    }
  }

  class Text {
    /** Whether the text's parent has a Button. */
    const underButton: bool
    var fontSize: real
    var color: ButtonStyling.Color
    var bold: bool

    constructor (underButton: bool, fontSize: real, color: ButtonStyling.Color, bold: bool)
      ensures this.underButton == underButton && this.fontSize == fontSize
      ensures this.color == color && this.bold == bold
    {
      this.underButton := underButton;
      this.fontSize := fontSize;
      this.color := color;
      this.bold := bold;
    }
  }

  class Slider {
    /** Whether the slider has a RectTransform, and its `sizeDelta`. */
    const hasRect: bool
    const size: Vec2
    /** Parent, grandparent, ... */
    const ancestors: seq<SceneObject>
    var anchoredPosition: Vec2

    constructor (hasRect: bool, size: Vec2, ancestors: seq<SceneObject>, anchoredPosition: Vec2)
      ensures this.hasRect == hasRect && this.size == size && this.ancestors == ancestors
      ensures this.anchoredPosition == anchoredPosition
    {
      this.hasRect := hasRect;
      this.size := size;
      this.ancestors := ancestors;
      this.anchoredPosition := anchoredPosition;
    }
  }

  const White: ButtonStyling.Color := ButtonStyling.Color(1.0, 1.0, 1.0, 1.0)
  const MinButtonFontSize: real := 14.0
  /** Buttons above this y are taken to be in the timer's area ... */
  const TimerAreaBottom: real := -300.0
  /** ... and are moved down to this y. */
  const BelowTimer: real := -350.0
  /** The distance `FixSliderBounds` keeps from the panel's side it corrects. */
  const SliderInset: real := 10.0

  /** `Mathf.Max(fontSize, 14)`. */
  function FontFloor(fontSize: real): (r: real)
    ensures r >= MinButtonFontSize && r >= fontSize
    ensures r == fontSize || r == MinButtonFontSize
  {
    if fontSize > MinButtonFontSize then fontSize else MinButtonFontSize
  }

  /** The position `FixButtonOverlap` gives a button. */
  function Lowered(name: string, hasRect: bool, pos: Vec2): Vec2
  {
    if AutoMobileUIFix.IsControlButton(name) && hasRect && pos.y > TimerAreaBottom then Vec2(pos.x, BelowTimer)
    else pos
  }

  /**
   * Control buttons above -300 go to y = -350 keeping x; no control button
   * is left above -300; other buttons stay; a second pass changes nothing.
   */
  lemma LoweredRule(name: string, hasRect: bool, pos: Vec2)
    ensures AutoMobileUIFix.IsControlButton(name) && hasRect && pos.y > TimerAreaBottom
            ==> Lowered(name, hasRect, pos) == Vec2(pos.x, BelowTimer)
    ensures AutoMobileUIFix.IsControlButton(name) && hasRect ==> Lowered(name, hasRect, pos).y <= TimerAreaBottom
    ensures !AutoMobileUIFix.IsControlButton(name) || !hasRect ==> Lowered(name, hasRect, pos) == pos
    ensures Lowered(name, hasRect, Lowered(name, hasRect, pos)) == Lowered(name, hasRect, pos)
  {
  }

  /** The position `FixSliderBounds` gives a slider. */
  function SliderFixed(hasRect: bool, size: Vec2, ancestors: seq<SceneObject>, pos: Vec2): Vec2
  {
    if !hasRect then pos
    else match NearestAncestor(ancestors, PanelName)
      case None => pos
      case Some(k) =>
        if ancestors[k].rect.None? then pos
        else pos.(x := ConstrainSpan(pos.x, size.x, ancestors[k].rect.value.size.x / 2.0, SliderInset))
  }

  /**
   * Only x changes. A right overrun puts the right edge 10 inside the
   * panel's right side; otherwise a left overrun puts the left edge 10
   * inside its left side. The panel is the nearest ancestor named
   * "...panel...", Image or not.
   */
  lemma SliderFixedRule(hasRect: bool, size: Vec2, ancestors: seq<SceneObject>, pos: Vec2)
    ensures SliderFixed(hasRect, size, ancestors, pos).y == pos.y
    ensures hasRect ==> match NearestAncestor(ancestors, PanelName)
      case None => SliderFixed(hasRect, size, ancestors, pos) == pos
      case Some(k) =>
        && NamedPanel(ancestors[k])
        && (forall j :: 0 <= j < k ==> !NamedPanel(ancestors[j]))
        && (ancestors[k].rect.Some? ==>
              var right := ancestors[k].rect.value.size.x / 2.0;
              var x := SliderFixed(hasRect, size, ancestors, pos).x;
              && (pos.x + size.x / 2.0 > right ==> x + size.x / 2.0 == right - SliderInset)
              && (pos.x + size.x / 2.0 <= right && pos.x - size.x / 2.0 < -right ==> x - size.x / 2.0 == -right + SliderInset)
              && (0.0 <= size.x <= 2.0 * (right - SliderInset) ==> -right <= x - size.x / 2.0 && x + size.x / 2.0 <= right))
  {
    if hasRect {
      match NearestAncestor(ancestors, PanelName)
      case None =>
      case Some(k) =>
        if ancestors[k].rect.Some? {
          var right := ancestors[k].rect.value.size.x / 2.0;
          if 0.0 <= size.x <= 2.0 * (right - SliderInset) {
            ConstrainSpanFits(pos.x, size.x, right, SliderInset);
          }
        }
    }
  }

  /** The steps of a restoration run. */
  datatype Step = FixCharacterOrientations | FixUIFonts | EnableAllButtons | ResetTungTungPose | FixMobileUILayout

  datatype Flags = Flags(orientations: bool, fonts: bool, buttons: bool, pose: bool, mobileUI: bool)

  function Rank(s: Step): nat
  {
    match s
    case FixCharacterOrientations => 0
    case FixUIFonts => 1
    case EnableAllButtons => 2
    case ResetTungTungPose => 3
    case FixMobileUILayout => 4
  }

  predicate Enabled(f: Flags, s: Step)
  {
    match s
    case FixCharacterOrientations => f.orientations
    case FixUIFonts => f.fonts
    case EnableAllButtons => f.buttons
    case ResetTungTungPose => f.pose
    case FixMobileUILayout => f.mobileUI
  }

  predicate StrictlyRanked(steps: seq<Step>)
  {
    forall i, j :: 0 <= i < j < |steps| ==> Rank(steps[i]) < Rank(steps[j])
  }

  function If(b: bool, s: Step): seq<Step>
  {
    if b then [s] else []
  }

  /** The steps `StartRestoration` runs, one `if` per flag. */
  function Plan(f: Flags): seq<Step>
  {
    If(f.orientations, FixCharacterOrientations) + If(f.fonts, FixUIFonts) + If(f.buttons, EnableAllButtons)
    + If(f.pose, ResetTungTungPose) + If(f.mobileUI, FixMobileUILayout)
  }

  /** `steps`, then `s` when `b` holds. */
  function Then(steps: seq<Step>, b: bool, s: Step): seq<Step>
  {
    if b then steps + [s] else steps
  }

  /** The trace after `StartRestoration`, one `if` at a time. */
  function Run(trace: seq<Step>, f: Flags): seq<Step>
  {
    Then(Then(Then(Then(Then(trace, f.orientations, FixCharacterOrientations), f.fonts, FixUIFonts),
                   f.buttons, EnableAllButtons), f.pose, ResetTungTungPose), f.mobileUI, FixMobileUILayout)
  }

  /** A run appends the plan to the trace. */
  lemma RunAppendsPlan(trace: seq<Step>, f: Flags)
    ensures Run(trace, f) == trace + Plan(f)
  {
    var p1 := If(f.orientations, FixCharacterOrientations);
    var p2 := p1 + If(f.fonts, FixUIFonts);
    var p3 := p2 + If(f.buttons, EnableAllButtons);
    var p4 := p3 + If(f.pose, ResetTungTungPose);
    ThenIsIf(trace, f.orientations, FixCharacterOrientations);
    ThenIsIf(trace + p1, f.fonts, FixUIFonts);
    Assoc(trace, p1, If(f.fonts, FixUIFonts));
    ThenIsIf(trace + p2, f.buttons, EnableAllButtons);
    Assoc(trace, p2, If(f.buttons, EnableAllButtons));
    ThenIsIf(trace + p3, f.pose, ResetTungTungPose);
    Assoc(trace, p3, If(f.pose, ResetTungTungPose));
    ThenIsIf(trace + p4, f.mobileUI, FixMobileUILayout);
    Assoc(trace, p4, If(f.mobileUI, FixMobileUILayout));
  }

  lemma Assoc(t: seq<Step>, x: seq<Step>, y: seq<Step>)
    ensures t + (x + y) == t + x + y
  {
  }

  lemma ThenIsIf(steps: seq<Step>, b: bool, s: Step)
    ensures Then(steps, b, s) == steps + If(b, s)
  {
    if !b {
      assert steps + [] == steps;
    }
  }

  /** Strictly ranked, and every step ranked below `n`. */
  predicate RankedBelow(steps: seq<Step>, n: nat)
  {
    StrictlyRanked(steps) && forall i :: 0 <= i < |steps| ==> Rank(steps[i]) < n
  }

  /** Appending a step that outranks everything so far keeps the order strict. */
  lemma AppendRanked(steps: seq<Step>, b: bool, s: Step)
    requires RankedBelow(steps, Rank(s))
    ensures RankedBelow(steps + If(b, s), Rank(s) + 1)
  {
  }

  lemma InIf(steps: seq<Step>, b: bool, t: Step, s: Step)
    ensures s in steps + If(b, t) <==> s in steps || (b && s == t)
  {
  }

  /** Each step runs exactly when its flag is set. */
  lemma PlanMembers(f: Flags)
    ensures forall s :: s in Plan(f) <==> Enabled(f, s)
  {
    forall s ensures s in Plan(f) <==> Enabled(f, s) {
      var p0 := If(f.orientations, FixCharacterOrientations);
      var p1 := p0 + If(f.fonts, FixUIFonts);
      var p2 := p1 + If(f.buttons, EnableAllButtons);
      var p3 := p2 + If(f.pose, ResetTungTungPose);
      InIf([], f.orientations, FixCharacterOrientations, s);
      assert [] + p0 == p0;
      InIf(p0, f.fonts, FixUIFonts, s);
      InIf(p1, f.buttons, EnableAllButtons, s);
      InIf(p2, f.pose, ResetTungTungPose, s);
      InIf(p3, f.mobileUI, FixMobileUILayout, s);
    }
  }

  /** The steps run in the fixed order, so none runs twice. */
  lemma PlanOrder(f: Flags)
    ensures StrictlyRanked(Plan(f))
  {
    var p0 := If(f.orientations, FixCharacterOrientations);
    var p1 := p0 + If(f.fonts, FixUIFonts);
    var p2 := p1 + If(f.buttons, EnableAllButtons);
    var p3 := p2 + If(f.pose, ResetTungTungPose);
    var p4 := p3 + If(f.mobileUI, FixMobileUILayout);
    assert [] + p0 == p0;
    AppendRanked([], f.orientations, FixCharacterOrientations);
    AppendRanked(p0, f.fonts, FixUIFonts);
    AppendRanked(p1, f.buttons, EnableAllButtons);
    AppendRanked(p2, f.pose, ResetTungTungPose);
    AppendRanked(p3, f.mobileUI, FixMobileUILayout);
    assert RankedBelow(p4, 5);
    assert p4 == Plan(f);
  }

  class ProjectRestorer {
    const flags: Flags
    /** The inspector list of buttons to enable; entries may be unassigned. */
    const buttonsToEnable: seq<Button?>
    /** The active buttons, texts and sliders the scene search finds. */
    const allButtons: seq<Button>
    const allTexts: seq<Text>
    const sliders: seq<Slider>
    /** The steps run so far, oldest first: a record for the contracts, not a field of the script. */
    ghost var trace: seq<Step>

    constructor (flags: Flags, buttonsToEnable: seq<Button?>, allButtons: seq<Button>, allTexts: seq<Text>, sliders: seq<Slider>)
      ensures this.flags == flags && this.buttonsToEnable == buttonsToEnable
      ensures this.allButtons == allButtons && this.allTexts == allTexts && this.sliders == sliders
      ensures trace == []
    {
      this.flags := flags;
      this.buttonsToEnable := buttonsToEnable;
      this.allButtons := allButtons;
      this.allTexts := allTexts;
      this.sliders := sliders;
      trace := [];
    }

    ghost function Listed(): set<Button>
    {
      set b: Button | b in buttonsToEnable
    }

    ghost function Found(): set<Button>
    {
      set b | b in allButtons
    }

    ghost function Texts(): set<Text>
    {
      set t | t in allTexts
    }

    ghost function Sliders(): set<Slider>
    {
      set s | s in sliders
    }

    /** The scene search never lists a slider twice. */
    ghost predicate DistinctSliders()
    {
      forall i, j :: 0 <= i < j < |sliders| ==> sliders[i] != sliders[j]
    }

    /** Rotations are not part of this model; the step is recorded. */
    method FixCharacterOrientations()
      modifies this`trace
      ensures trace == old(trace) + [Step.FixCharacterOrientations]
    {
      trace := trace + [Step.FixCharacterOrientations];
    }

    /** The button-text part of `FixUIFonts`: white, bold and at least size 14. */
    method FixUIFonts()
      modifies this`trace, Texts()
      ensures trace == old(trace) + [Step.FixUIFonts]
      ensures forall t :: t in Texts() ==> FontsFixed(t, old(t.fontSize), old(t.color), old(t.bold))
    {
      for i := 0 to |allTexts|
        invariant trace == old(trace)
        invariant forall t :: t in Texts() ==>
          (t.fontSize == old(t.fontSize) && t.color == old(t.color) && t.bold == old(t.bold))
          || FontsFixed(t, old(t.fontSize), old(t.color), old(t.bold))
        invariant forall j :: 0 <= j < i ==> FontsFixed(allTexts[j], old(allTexts[j].fontSize), old(allTexts[j].color), old(allTexts[j].bold))
      {
        FixButtonText(allTexts[i]);
      }
      trace := trace + [Step.FixUIFonts];
    }

    /** Both loops of `EnableAllButtons`; only `interactable` changes. */
    method EnableAllButtons()
      modifies this`trace, Listed(), Found()
      ensures trace == old(trace) + [Step.EnableAllButtons]
      ensures forall b :: b in Listed() || b in Found() ==> b.interactable
      ensures forall b :: b in Listed() || b in Found() ==> b.anchoredPosition == old(b.anchoredPosition)
    {
      for i := 0 to |buttonsToEnable|
        invariant trace == old(trace)
        invariant forall j :: 0 <= j < i && buttonsToEnable[j] != null ==> buttonsToEnable[j].interactable
        invariant forall b :: b in Listed() || b in Found() ==> b.anchoredPosition == old(b.anchoredPosition)
      {
        var button := buttonsToEnable[i];
        if button != null {
          button.interactable := true;
        }
      }
      for i := 0 to |allButtons|
        invariant trace == old(trace)
        invariant forall b :: b in Listed() ==> b.interactable
        invariant forall j :: 0 <= j < i ==> allButtons[j].interactable
        invariant forall b :: b in Listed() || b in Found() ==> b.anchoredPosition == old(b.anchoredPosition)
      {
        allButtons[i].interactable := true;
      }
      trace := trace + [Step.EnableAllButtons];
    }

    /** Adding the pose animator is not part of this model; the step is recorded. */
    method ResetTungTungPose()
      modifies this`trace
      ensures trace == old(trace) + [Step.ResetTungTungPose]
    {
      trace := trace + [Step.ResetTungTungPose];
    }

    /** `FixButtonOverlap`: only `anchoredPosition` changes. */
    method FixButtonOverlap()
      modifies Found()
      ensures forall b :: b in Found() ==> b.anchoredPosition == Lowered(b.name, b.hasRect, old(b.anchoredPosition))
      ensures forall b :: b in Found() ==> b.interactable == old(b.interactable)
    {
      for i := 0 to |allButtons|
        invariant forall b :: b in Found() ==>
          b.anchoredPosition == old(b.anchoredPosition) || b.anchoredPosition == Lowered(b.name, b.hasRect, old(b.anchoredPosition))
        invariant forall j :: 0 <= j < i ==>
          allButtons[j].anchoredPosition == Lowered(allButtons[j].name, allButtons[j].hasRect, old(allButtons[j].anchoredPosition))
        invariant forall b :: b in Found() ==> b.interactable == old(b.interactable)
      {
        LoweredRule(allButtons[i].name, allButtons[i].hasRect, old(allButtons[i].anchoredPosition));
        LowerButton(allButtons[i]);
      }
    }

    /** `FixSliderBounds`: each slider's position after the parent walk and the correction. */
    method FixSliderBounds()
      requires DistinctSliders()
      modifies Sliders()
      ensures forall s :: s in Sliders() ==> s.anchoredPosition == SliderFixed(s.hasRect, s.size, s.ancestors, old(s.anchoredPosition))
    {
      for i := 0 to |sliders|
        invariant forall j :: 0 <= j < i ==>
          sliders[j].anchoredPosition == SliderFixed(sliders[j].hasRect, sliders[j].size, sliders[j].ancestors, old(sliders[j].anchoredPosition))
        invariant forall j :: i <= j < |sliders| ==> sliders[j].anchoredPosition == old(sliders[j].anchoredPosition)
      {
        FixOneSlider(sliders[i]);
      }
    }

    /** `FixMobileUILayout`: the canvas-scaler settings are not part of this model. */
    method FixMobileUILayout()
      requires DistinctSliders()
      modifies this`trace, Found(), Sliders()
      ensures trace == old(trace) + [Step.FixMobileUILayout]
      ensures forall b :: b in Found() ==> b.anchoredPosition == Lowered(b.name, b.hasRect, old(b.anchoredPosition))
      ensures forall b :: b in Found() ==> b.interactable == old(b.interactable)
      ensures forall s :: s in Sliders() ==> s.anchoredPosition == SliderFixed(s.hasRect, s.size, s.ancestors, old(s.anchoredPosition))
    {
      FixButtonOverlap();
      FixSliderBounds();
      trace := trace + [Step.FixMobileUILayout];
    }

    method StartRestoration()
      requires DistinctSliders()
      modifies this`trace, Texts(), Listed(), Found(), Sliders()
      ensures trace == Run(old(trace), flags) == old(trace) + Plan(flags)
      ensures flags.buttons ==> forall b :: b in Listed() || b in Found() ==> b.interactable
      ensures !flags.buttons ==> forall b :: b in Listed() || b in Found() ==> b.interactable == old(b.interactable)
      ensures forall b :: b in Found() ==>
        b.anchoredPosition == if flags.mobileUI then Lowered(b.name, b.hasRect, old(b.anchoredPosition)) else old(b.anchoredPosition)
      ensures forall b :: b in Listed() && b !in Found() ==> b.anchoredPosition == old(b.anchoredPosition)
      ensures forall s :: s in Sliders() ==>
        s.anchoredPosition == if flags.mobileUI then SliderFixed(s.hasRect, s.size, s.ancestors, old(s.anchoredPosition)) else old(s.anchoredPosition)
      ensures forall t :: t in Texts() ==>
        if flags.fonts then FontsFixed(t, old(t.fontSize), old(t.color), old(t.bold))
        else t.fontSize == old(t.fontSize) && t.color == old(t.color) && t.bold == old(t.bold)
    {
      if flags.orientations {
        FixCharacterOrientations();
      }
      if flags.fonts {
        FixUIFonts();
      }
      if flags.buttons {
        EnableAllButtons();
      }
      if flags.pose {
        ResetTungTungPose();
      }
      if flags.mobileUI {
        FixMobileUILayout();
      }
      RunAppendsPlan(old(trace), flags);
    }
  }

  /** A text after the button-text rule, given its old font size, colour and boldness. */
  ghost predicate FontsFixed(t: Text, fontSize: real, color: ButtonStyling.Color, bold: bool)
    reads t
  {
    if t.underButton then t.fontSize == FontFloor(fontSize) && t.color == White && t.bold
    else t.fontSize == fontSize && t.color == color && t.bold == bold
  }

  /** The loop body of `FixUIFonts` for one text. */
  method FixButtonText(text: Text)
    modifies text
    ensures FontsFixed(text, old(text.fontSize), old(text.color), old(text.bold))
  {
    if text.underButton {
      text.color := White;
      text.fontSize := FontFloor(text.fontSize);
      text.bold := true;
    }
  }

  /** The loop body of `FixButtonOverlap` for one button. */
  method LowerButton(button: Button)
    modifies button`anchoredPosition
    ensures button.anchoredPosition == Lowered(button.name, button.hasRect, old(button.anchoredPosition))
  {
    if AutoMobileUIFix.IsControlButton(button.name) && button.hasRect {
      var currentPos := button.anchoredPosition;
      if currentPos.y > TimerAreaBottom {
        button.anchoredPosition := Vec2(currentPos.x, BelowTimer);
      }
    }
  }

  /** The loop body of `FixSliderBounds` for one slider. */
  method FixOneSlider(slider: Slider)
    modifies slider
    ensures slider.anchoredPosition == SliderFixed(slider.hasRect, slider.size, slider.ancestors, old(slider.anchoredPosition))
  {
    if slider.hasRect {
      var parent := FindAncestor(slider.ancestors, PanelName);
      if parent.Some? && slider.ancestors[parent.value].rect.Some? {
        var panelSize := slider.ancestors[parent.value].rect.value.size;
        var currentPos := slider.anchoredPosition;
        var currentSize := slider.size;
        var sliderLeft := currentPos.x - currentSize.x / 2.0;
        var sliderRight := currentPos.x + currentSize.x / 2.0;
        var panelLeft := -(panelSize.x / 2.0);
        var panelRight := panelSize.x / 2.0;
        if sliderRight > panelRight {
          slider.anchoredPosition := currentPos.(x := panelRight - currentSize.x / 2.0 - SliderInset);
        } else if sliderLeft < panelLeft {
          slider.anchoredPosition := currentPos.(x := panelLeft + currentSize.x / 2.0 + SliderInset);
        }
      }
    }
  }
}

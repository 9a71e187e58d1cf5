/**
 * `DropdownUIFixer`, sizing arithmetic: the dropdown's width is the widest
 * estimated option text plus 60 for the arrow and padding, clamped to the
 * configured bounds; the option list (template) gets the same width and a
 * height of 30 per option, at most 200.
 */
module DropdownSizing {
  import opened Wrappers
  import opened Geometry

  /** The caption text, when it is a TextMeshPro text: whether it has a font, and its size. */
  datatype Label = Label(hasFont: bool, fontSize: real)

  datatype Config = Config(autoAdjustWidth: bool, minWidth: real, maxWidth: real, adjustTemplateSize: bool)

  const Padding: real := 60.0
  const ItemHeight: real := 30.0
  const MaxTemplateHeight: real := 200.0
  /** The size used when there is no caption text; such a dropdown has no font either. */
  const DefaultFontSize: real := 14.0

  /** The estimate: 0.6 of the font size per character. */
  function EstimateTextWidth(text: string, fontSize: real): (w: real)
    ensures text == [] ==> w == 0.0
    ensures fontSize > 0.0 && text != [] ==> w > 0.0
  {
    |text| as real * (fontSize * 0.6)
  }

  /** The estimate is per character: a text's width is the sum of its parts', 0.6 of the font size each. */
  lemma EstimateIsPerCharacter(a: string, b: string, c: char, fontSize: real)
    ensures EstimateTextWidth(a + b, fontSize) == EstimateTextWidth(a, fontSize) + EstimateTextWidth(b, fontSize)
    ensures EstimateTextWidth([c], fontSize) == 0.6 * fontSize
  {
  }

  /** `Mathf.Max`. */
  function Max(a: real, b: real): (r: real)
    ensures r >= a && r >= b && (r == a || r == b)
  {
    if a > b then a else b
  }

  /** `Mathf.Min`. */
  function Min(a: real, b: real): (r: real)
    ensures r <= a && r <= b && (r == a || r == b)
  {
    if a < b then a else b
  }

  /** `Mathf.Clamp`. */
  function Clamp(v: real, lo: real, hi: real): (r: real)
    ensures lo <= hi ==> lo <= r <= hi
    ensures lo <= v <= hi ==> r == v
    ensures v < lo ==> r == lo
    ensures lo <= v && v > hi ==> r == hi
  {
    if v < lo then lo else if v > hi then hi else v
  }

  /**
   * The widest estimate over the non-empty options, starting from 0: at
   * least every such estimate, and either 0 or one of them.
   */
  function MaxTextWidth(options: seq<string>, fontSize: real): (r: real)
    ensures r >= 0.0
    ensures forall i :: 0 <= i < |options| && options[i] != "" ==> EstimateTextWidth(options[i], fontSize) <= r
    ensures r == 0.0 || exists i :: 0 <= i < |options| && options[i] != "" && r == EstimateTextWidth(options[i], fontSize)
    decreases |options|
  {
    if options == [] then 0.0
    else
      var rest := MaxTextWidth(options[..|options| - 1], fontSize);
      var last := options[|options| - 1];
      if last != "" then Max(rest, EstimateTextWidth(last, fontSize)) else rest
  }

  /** `CalculateOptimalWidth`, given whether there is a dropdown at all. */
  function OptimalWidth(c: Config, hasDropdown: bool, options: Option<seq<string>>, caption: Option<Label>): (r: real)
    ensures !hasDropdown || options.None? || caption.None? || !caption.value.hasFont ==> r == c.minWidth
    ensures hasDropdown && options.Some? && caption.Some? && caption.value.hasFont
            ==> r == MaxTextWidth(options.value, caption.value.fontSize) + Padding
  {
    if !hasDropdown || options.None? then c.minWidth
    else
      var fontSize := if caption.Some? then caption.value.fontSize else DefaultFontSize;
      if caption.None? || !caption.value.hasFont then c.minWidth
      else MaxTextWidth(options.value, fontSize) + Padding
  }

  /** `FixDropdownDimensions` on the dropdown's `sizeDelta` (None: no RectTransform). */
  function DimensionsFixed(c: Config, hasDropdown: bool, rect: Option<Vec2>, optimal: real): Option<Vec2>
  {
    if !c.autoAdjustWidth || !hasDropdown || rect.None? then rect
    else Some(rect.value.(x := Clamp(optimal, c.minWidth, c.maxWidth)))
  }

  /** Thirty per option, at most 200. */
  function TemplateHeight(optionCount: nat): (h: real)
    ensures 0.0 <= h <= MaxTemplateHeight
    ensures optionCount as real * ItemHeight <= MaxTemplateHeight ==> h == optionCount as real * ItemHeight
    ensures optionCount as real * ItemHeight > MaxTemplateHeight ==> h == MaxTemplateHeight
  {
    Min(optionCount as real * ItemHeight, MaxTemplateHeight)
  }

  function OptionCount(options: Option<seq<string>>): nat
  {
    if options.Some? then |options.value| else 0
  }

  /** `AdjustTemplateSize` on the template's `sizeDelta`. */
  function TemplateAdjusted(c: Config, template: Vec2, optimal: real, options: Option<seq<string>>): Vec2
  {
    var x := if c.autoAdjustWidth then Clamp(optimal, c.minWidth, c.maxWidth) else template.x;
    Vec2(x, TemplateHeight(OptionCount(options)))
  }

  // ---------------------------------------------------------------------
  // Properties
  // ---------------------------------------------------------------------

  /** Empty option texts contribute nothing: with only empty options the optimal width is 60. */
  lemma OnlyEmptyOptionsGivePadding(c: Config, options: seq<string>, caption: Label)
    requires caption.hasFont
    requires forall i :: 0 <= i < |options| ==> options[i] == ""
    ensures OptimalWidth(c, true, Some(options), Some(caption)) == Padding
  {
  }

  /** The optimal width is attained: it is 60 past some option's estimate, or exactly 60. */
  lemma OptimalWidthIsWidestOption(c: Config, options: seq<string>, caption: Label)
    requires caption.hasFont && caption.fontSize > 0.0
    requires exists i :: 0 <= i < |options| && options[i] != ""
    ensures exists i :: 0 <= i < |options| && options[i] != ""
              && OptimalWidth(c, true, Some(options), Some(caption)) == EstimateTextWidth(options[i], caption.fontSize) + Padding
  {
    var i :| 0 <= i < |options| && options[i] != "";
    var r := MaxTextWidth(options, caption.fontSize);
    assert EstimateTextWidth(options[i], caption.fontSize) > 0.0;
    assert r > 0.0;
  }

  /** Adding an option never makes the dropdown narrower. */
  lemma MoreOptionsNoNarrower(options: seq<string>, extra: string, fontSize: real)
    ensures MaxTextWidth(options, fontSize) <= MaxTextWidth(options + [extra], fontSize)
  {
    assert (options + [extra])[..|options|] == options;
  }

  /**
   * The applied width lies within the bounds, only `sizeDelta.x` changes,
   * and nothing changes when width adjustment is off.
   */
  lemma DimensionsRules(c: Config, rect: Option<Vec2>, optimal: real)
    ensures DimensionsFixed(c, true, rect, optimal).Some? <==> rect.Some?
    ensures rect.Some? ==> DimensionsFixed(c, true, rect, optimal).value.y == rect.value.y
    ensures c.autoAdjustWidth && rect.Some? && c.minWidth <= c.maxWidth ==>
              c.minWidth <= DimensionsFixed(c, true, rect, optimal).value.x <= c.maxWidth
    ensures !c.autoAdjustWidth ==> DimensionsFixed(c, true, rect, optimal) == rect
  {
  }

  /**
   * The template keeps its width when width adjustment is off, otherwise
   * takes the dropdown's new width; its height is 0 with no options and
   * never above 200.
   */
  lemma TemplateRules(c: Config, template: Vec2, rect: Vec2, optimal: real, options: Option<seq<string>>)
    ensures !c.autoAdjustWidth ==> TemplateAdjusted(c, template, optimal, options).x == template.x
    ensures c.autoAdjustWidth ==> TemplateAdjusted(c, template, optimal, options).x
                                  == DimensionsFixed(c, true, Some(rect), optimal).value.x
    ensures OptionCount(options) == 0 ==> TemplateAdjusted(c, template, optimal, options).y == 0.0
    ensures TemplateAdjusted(c, template, optimal, options).y <= MaxTemplateHeight
  {
  }

  /** The component, over the size deltas it overwrites. */
  class DropdownUIFixer {
    const config: Config
    /** Whether a dropdown is assigned or found on the same object. */
    const hasDropdown: bool
    const options: Option<seq<string>>
    const caption: Option<Label>
    /** The dropdown's `sizeDelta`; None when it has no RectTransform. */
    var rectSize: Option<Vec2>
    /** The template's `sizeDelta`; None when the dropdown has no template. */
    var templateSize: Option<Vec2>

    constructor (config: Config, hasDropdown: bool, options: Option<seq<string>>, caption: Option<Label>,
                 rectSize: Option<Vec2>, templateSize: Option<Vec2>)
      ensures this.config == config && this.hasDropdown == hasDropdown
      ensures this.options == options && this.caption == caption
      ensures this.rectSize == rectSize && this.templateSize == templateSize
    {
      this.config := config;
      this.hasDropdown := hasDropdown;
      this.options := options;
      this.caption := caption;
      this.rectSize := rectSize;
      this.templateSize := templateSize;
    }

    /** The `foreach` over the options, keeping the widest estimate so far. */
    method CalculateOptimalWidth() returns (w: real)
      ensures w == OptimalWidth(config, hasDropdown, options, caption)
    {
      if !hasDropdown || options.None? {
        return config.minWidth;
      }
      var maxTextWidth := 0.0;
      var fontSize := if caption.Some? then caption.value.fontSize else DefaultFontSize;
      if caption.None? || !caption.value.hasFont {
        return config.minWidth;
      }
      var opts := options.value;
      for i := 0 to |opts|
        invariant maxTextWidth == MaxTextWidth(opts[..i], fontSize)
      {
        assert opts[..i + 1][..i] == opts[..i];
        if opts[i] != "" {
          var textWidth := EstimateTextWidth(opts[i], fontSize);
          maxTextWidth := Max(maxTextWidth, textWidth);
        }
      }
      assert opts[..|opts|] == opts;
      return maxTextWidth + Padding;
    }

    method FixDropdownDimensions()
      modifies this`rectSize
      ensures rectSize == DimensionsFixed(config, hasDropdown, old(rectSize),
                                          OptimalWidth(config, hasDropdown, options, caption))
    {
      if !config.autoAdjustWidth || !hasDropdown {
        return;
      }
      if rectSize.Some? {
        var optimalWidth := CalculateOptimalWidth();
        var newWidth := Clamp(optimalWidth, config.minWidth, config.maxWidth);
        rectSize := Some(rectSize.value.(x := newWidth));
      }
    }

    /**
     * Called from `FixTemplateText` only for a dropdown that has a template,
     * and only when `config.adjustTemplateSize` is set.
     */
    method AdjustTemplateSize()
      requires templateSize.Some?
      modifies this`templateSize
      ensures templateSize == Some(TemplateAdjusted(config, old(templateSize).value,
                                                    OptimalWidth(config, hasDropdown, options, caption), options))
    {
      var size := templateSize.value;
      if config.autoAdjustWidth {
        var optimalWidth := CalculateOptimalWidth();
        size := size.(x := Clamp(optimalWidth, config.minWidth, config.maxWidth));
      }
      var optionCount := if options.Some? then |options.value| else 0;
      size := size.(y := Min(optionCount as real * ItemHeight, MaxTemplateHeight));
      templateSize := Some(size);
    }
  }
}

# Pomodoro session, button styling and mobile layout fixes — a Dafny model

This project models the logic of a small Unity productivity app: a study/break countdown with motivational phrases and a two-step ("¿Confirmar?") reset (`SessionManager`), a controller that restyles the play and reset buttons when the session's state changes (`CustomButtonController`), a two-character switcher (`CharacterManager`), a dropdown sizer (`DropdownUIFixer`), three mobile layout fixers (`MobileUIManager`, `AutoMobileUIFix`, `MobileUIFixer`) and a one-shot scene repair run (`ProjectRestorer`).

The modules follow the scripts:

- `Session` (session_manager.dfy) holds the timer state machine. It is written as pure transition functions (`AfterTick`, `AfterToggle`, `AfterReset`, ...) over a `Timer` value, together with what the widgets show (`Display`). The `SessionManager` class has the source's fields, and each method is proved to move its `Model()` exactly as the matching function says.
- `ButtonStyling` (custom_button_controller.dfy) models reflection on the session manager's fields as a name-to-typed-value table. The controller class is proved against `AfterUpdate`, `RestylePlay`, `RestyleReset` and `ToggleTest`.
- `Characters` (character_manager.dfy): two `GameObject`s with an `active` flag. The methods' contracts also cover the case where both inspector references point at the same object.
- `DropdownSizing` (dropdown_ui_fixer.dfy) covers the width estimate, the clamp and the template height. The `foreach` over the options is a loop proved against `MaxTextWidth`.
- `MobileUIManager`, `AutoMobileUIFix` and `MobileUIFixer` contain:
  - the button-name filters;
  - the "move below the first overlapping timer object" rule;
  - the walk to the nearest panel ancestor;
  - the slider corrections and the safe-area anchors.

  The shared arithmetic (box overlap, moving below an obstacle, the ancestor walk, constraining a span, fitting a slider's corners) lives in `Geometry` (geometry.dfy). Each script applies it with its own constants, which are 30, 20 and 100/120 for the button gaps, and margin 20 or padding 10 for sliders. `Strings` (strings.dfy) holds ASCII lower-casing, substring search and the `{0:00}` number format.
- `ProjectRestorer` (project_restorer.dfy) uses classes for the scene's buttons, texts and sliders, which its loops update in place. `StartRestoration` is proved to run exactly the enabled steps, in order, and to leave each object as the per-object rules say.

Scene objects looked up by name are a `map<string, SceneObject>`. A transform's parent chain is a sequence, nearest parent first. Floats are `real`. `Time.deltaTime`, `Time.time` and the screen's size and safe area are parameters.

The model follows the code as written:

- the countdown is not clamped at zero: a tick can end below it, and the next tick completes the phase;
- phrases advance in order on a tap, wrapping after the sixth;
- a finished study phase starts the break at once; a finished break stops, with a fresh study phase waiting.

## Model

| member | source | states |
|---|---|---|
| Session.SessionManager.constructor | Assets/Scripts/SessionManager.cs:39-57 | `Start`: full study duration left, stopped, phrase 0; the timer text, progress, messages and buttons are shown for that state |
| Session.SessionManager.Tick | Assets/Scripts/SessionManager.cs:59-76 | one `Update` moves the fields exactly as `AfterTick` and the widgets as `DisplayAfterTick`, and keeps the phrase index in range and the duration matched to the phase |
| Session.TickWhileRunningCountsDown | Assets/Scripts/SessionManager.cs:61-66 | while running with time left, a tick subtracts exactly `dt` and changes nothing else apart from the 3-second latch |
| Session.CountdownOvershootsZero | Assets/Scripts/SessionManager.cs:61-70 | a tick can leave the countdown below zero, and the following tick completes the phase |
| Session.TickEndsStudy | Assets/Scripts/SessionManager.cs:208-222 | running with no time left in a study phase starts the break at once, running, with the break duration and no pending confirmation |
| Session.TickEndsBreak | Assets/Scripts/SessionManager.cs:223-235 | running with no time left in a break stops, returning to a fresh study phase |
| Session.TickWhileStoppedKeepsTime | Assets/Scripts/SessionManager.cs:59-76 | while stopped, a tick changes at most the pending-confirmation flag |
| Session.CompletionClearsLatch | Assets/Scripts/SessionManager.cs:208-211 | completing a phase always clears a pending reset confirmation |
| Session.StudyThenBreakIsFresh | Assets/Scripts/SessionManager.cs:208-236 | a study completion followed by a break completion ends stopped in a fresh study phase |
| Session.LatchWindow | Assets/Scripts/SessionManager.cs:72-75 | after a countdown tick the latch is still armed exactly when `now <= resetTime + 3` |
| Session.LatchArmedAtThreeSeconds | Assets/Scripts/SessionManager.cs:72 | at exactly three seconds the comparison is strict, so the confirmation survives |
| Session.SessionManager.ResetSession | Assets/Scripts/SessionManager.cs:149-162 | fields move as `AfterReset`, widgets as `DisplayAfterReset`, and the invariant is kept |
| Session.ResetWhenPendingConfirms | Assets/Scripts/SessionManager.cs:151-154 | with a confirmation pending, a reset restores the full study phase whether the session is running or paused |
| Session.ResetArmsLatch | Assets/Scripts/SessionManager.cs:157-160 | a first reset part-way through a phase arms the latch at `now` and changes nothing else |
| Session.ResetAtFullDurationIsNoOp | Assets/Scripts/SessionManager.cs:155-161 | with the whole duration left and nothing pending, a reset changes nothing |
| Session.ResetFromStartIsNoOp | Assets/Scripts/SessionManager.cs:149-162 | a reset straight after start-up changes nothing |
| Session.LateSecondResetRearms | Assets/Scripts/SessionManager.cs:72-75 | a second reset request after the window has run out re-arms the latch instead of confirming |
| Session.DoubleResetReturnsToStart | Assets/Scripts/SessionManager.cs:149-206 | two reset requests in a row, mid-session, return to the start-up timer state |
| Session.SessionManager.TogglePlayPause | Assets/Scripts/SessionManager.cs:116-131 | fields move as `AfterToggle`, widgets as `DisplayAfterToggle`, and the invariant is kept |
| Session.ToggleFromFreshStarts | Assets/Scripts/SessionManager.cs:118-121 | from a fresh state, play/pause starts running with phrase 0 |
| Session.ToggleOtherwiseFlips | Assets/Scripts/SessionManager.cs:122-130 | otherwise play/pause only flips `isRunning`, in a break too, and always clears the latch |
| Session.PauseFreezesClock | Assets/Scripts/SessionManager.cs:143-147 | pausing a running session, one paused tick and resuming leave the time as it was, with the clock running again |
| Session.SessionManager.StartSession | Assets/Scripts/SessionManager.cs:133-141 | sets running and phrase 0, and shows that phrase with the tap hint |
| Session.SessionManager.PauseResumeSession | Assets/Scripts/SessionManager.cs:143-147 | flips `isRunning` and refreshes the buttons |
| Session.SessionManager.StartResetConfirmation | Assets/Scripts/SessionManager.cs:164-173 | arms the latch at `now` and shows "¿Confirmar?" and the confirm instruction |
| Session.SessionManager.CancelResetConfirmation | Assets/Scripts/SessionManager.cs:175-190 | clears the latch; the caption returns to "Reiniciar" and the instruction depends on whether the session is running |
| Session.SessionManager.ConfirmReset | Assets/Scripts/SessionManager.cs:192-206 | fields move as `AfterConfirm` (full study phase, stopped, phrase 0) and widgets as `DisplayAfterConfirm` |
| Session.ConfirmLeavesTimerText | Assets/Scripts/SessionManager.cs:192-206 | a confirming reset shows "Iniciar" but does not refresh the timer text, which keeps showing the old time |
| Session.SessionManager.SessionComplete | Assets/Scripts/SessionManager.cs:208-236 | fields move as `AfterComplete` and widgets as `DisplayAfterComplete` |
| Session.OperationsKeepValid | Assets/Scripts/SessionManager.cs:59-249 | every operation keeps the phrase index within the six phrases and the recorded duration equal to the current phase's |
| Session.TimeBoundedByDuration | Assets/Scripts/SessionManager.cs:59-76 | with non-negative frame times, the countdown never rises above the phase's duration |
| Session.SessionManager.OnTextClicked | Assets/Scripts/SessionManager.cs:108-114 | fields move as `AfterTextClicked` and the shown phrase follows |
| Session.TextClickedRotatesPhrase | Assets/Scripts/SessionManager.cs:108-114 | a tap advances the phrase, modulo six, only while a study phase is running, and the shown phrase is the new one |
| Session.TapsAdvanceModulo | Assets/Scripts/SessionManager.cs:245-249 | `n` taps during a running study phase move the index `n` places round the six phrases |
| Session.SessionManager.NextPhrase | Assets/Scripts/SessionManager.cs:245-249 | advances the index modulo six and shows that phrase |
| Session.SessionManager.UpdateButtonStates | Assets/Scripts/SessionManager.cs:88-106 | writes the play caption and the reset button's interactable flag for the current fields |
| Session.PlayCaptionRules | Assets/Scripts/SessionManager.cs:94-105 | the caption is "Iniciar" when fresh, "Pausar" when running, and "Continuar" when paused part-way |
| Session.ResetButtonRule | Assets/Scripts/SessionManager.cs:91 | the reset button is interactable exactly when time has been used in this phase |
| Session.CountdownKeepsButtons | Assets/Scripts/SessionManager.cs:61-66 | a counting-down tick refreshes the timer text and progress, but not the buttons |
| Session.SessionManager.UpdateTimerDisplay | Assets/Scripts/SessionManager.cs:238-243 | the timer text is `TimerText` of the current time |
| Session.OvershootShowsNegativeText | Assets/Scripts/SessionManager.cs:238-243 | on the frame that overshoots zero by half a second the text reads "-01:-01", both parts flooring to -1 |
| Session.TimerTextMeaning | Assets/Scripts/SessionManager.cs:238-243 | for a non-negative time the text is the minutes and the seconds in the format "00" around a colon; the seconds lie in [0, 60), minutes times 60 plus seconds is the whole seconds left, and each part reads back as its number |
| Strings.TwoDigitsReadsBack | Assets/Scripts/SessionManager.cs:242 | the `{0:00}` rendering of a natural number parses back to that number |
| Strings.ParseNatToString | Assets/Scripts/SessionManager.cs:242 | decimal rendering and parsing are inverse |
| Strings.FormatTwoDigits | Assets/Scripts/SessionManager.cs:242 | `{0:00}`: at least two digits; the first character is '-' exactly for negatives; the digits after any sign parse back to the absolute value |
| Session.SessionManager.UpdateProgressBar | Assets/Scripts/SessionManager.cs:78-86 | with a progress bar, its value becomes Clamp01(1 - time/total), where the total is the break duration in a break |
| Session.ProgressRules | Assets/Scripts/SessionManager.cs:78-86 | progress is 0 at the start of a phase and always within [0, 1] |
| ButtonStyling.CustomButtonController.constructor | Assets/Scripts/CustomButtonController.cs:25-38 | `Start`: records the session manager found, which buttons exist and their current colour and caption (missing when absent); the last-seen flags start false |
| ButtonStyling.CustomButtonController.GetSessionManagerBool | Assets/Scripts/CustomButtonController.cs:111-120 | the reflected field's value when it exists and is a bool; otherwise, or with no session manager, false |
| ButtonStyling.GetBool | Assets/Scripts/CustomButtonController.cs:111-120 | true exactly when the field exists and holds the bool true |
| ButtonStyling.CustomButtonController.GetSessionManagerFloat | Assets/Scripts/CustomButtonController.cs:121-130 | the reflected field's value when it is a float, and 0 otherwise |
| ButtonStyling.GetFloat | Assets/Scripts/CustomButtonController.cs:121-130 | the float when the field exists with float type, and exactly 0 in every other case |
| ButtonStyling.ReflectionReadsSession | Assets/Scripts/CustomButtonController.cs:111-130 | reflecting the session's fields reads back `isRunning`, `resetConfirmationPending`, `currentTime` and `originalSessionDuration` unchanged |
| ButtonStyling.ReflectionDefaults | Assets/Scripts/CustomButtonController.cs:111-130 | a wrong type (the int phrase index read as a float, a float read as a bool), a missing field or no session manager give false and 0 |
| ButtonStyling.CustomButtonController.Update | Assets/Scripts/CustomButtonController.cs:39-54 | the controller's state moves exactly as `AfterUpdate` of what reflection sees |
| ButtonStyling.UpdateDetectsChanges | Assets/Scripts/CustomButtonController.cs:39-54 | the last-seen flags follow the session; with no change, nothing happens; a second update with the same state does nothing |
| ButtonStyling.SwitchesGateChanges | Assets/Scripts/CustomButtonController.cs:46-50 | with automatic text off the caption is never written; with automatic colour off no colour is |
| ButtonStyling.CustomButtonController.UpdatePlayPauseButton | Assets/Scripts/CustomButtonController.cs:55-94 | the play button becomes `RestylePlay` of the observed fields |
| ButtonStyling.PlayStateOf | Assets/Scripts/CustomButtonController.cs:66-77 | fresh exactly when stopped with the whole duration left, running exactly when running, and paused otherwise |
| ButtonStyling.CaptionAgreesWithSession | Assets/Scripts/CustomButtonController.cs:64-78 | the caption derived through reflection equals the caption the session manager itself writes |
| ButtonStyling.RestyleShowsSessionCaption | Assets/Scripts/CustomButtonController.cs:44-78 | after a change, with automatic text on, the play button shows the session's own caption |
| ButtonStyling.ColorMatchesCaption | Assets/Scripts/CustomButtonController.cs:79-93 | with distinct palette colours, two states get the same colour exactly when they get the same caption, and the start colour marks "Iniciar" |
| ButtonStyling.CustomButtonController.UpdateResetButton | Assets/Scripts/CustomButtonController.cs:95-110 | the reset button becomes `RestyleReset` of the observed fields |
| ButtonStyling.ResetStyleRules | Assets/Scripts/CustomButtonController.cs:95-110 | the reset caption is never touched, and its colour is the confirm colour exactly when a confirmation is pending |
| ButtonStyling.CustomButtonController.ImmediateToggleTest | Assets/Scripts/CustomButtonController.cs:177-192 | the play button becomes `ToggleTest` of its old look |
| ButtonStyling.ToggleTestAlternates | Assets/Scripts/CustomButtonController.cs:177-192 | the start colour becomes the pause colour with "Pausar", any other colour becomes the start colour with "Iniciar", and two toggles from the start colour restore it |
| Characters.Select | Assets/Scripts/CharacterManager.cs:14-26 | index 0 shows only Capibara, index 1 only TungTung, any other index changes nothing; exactly-one-visible is preserved |
| Characters.ReplayKeepsExactlyOne | Assets/Scripts/CharacterManager.cs:14-26 | any sequence of selections keeps exactly one character visible |
| Characters.ReplayAppend | Assets/Scripts/CharacterManager.cs:14-26 | replaying one more selection is that selection applied to the replayed state |
| Characters.LastChoiceWins | Assets/Scripts/CharacterManager.cs:14-26 | after any sequence of selections, the last valid index decides who is visible, and with none nothing changes |
| Characters.CharacterManager.Start | Assets/Scripts/CharacterManager.cs:8-12 | TungTung is hidden; Capibara is shown unless both references are the same object |
| Characters.CharacterManager.OnCharacterChanged | Assets/Scripts/CharacterManager.cs:14-26 | for distinct objects the visibility moves as `Select`; with one object behind both references the last write wins; invalid indices change nothing |
| Characters.CharacterManager.ShowCapibara | Assets/Scripts/CharacterManager.cs:28-33 | TungTung hidden; Capibara shown unless both references are the same object |
| Characters.CharacterManager.ShowTungTung | Assets/Scripts/CharacterManager.cs:35-40 | TungTung shown, and Capibara hidden unless both references are the same object |
| DropdownSizing.EstimateTextWidth | Assets/Scripts/DropdownUIFixer.cs:177-182 | an empty text has width 0 and, with a positive font size, any other text a positive width; `DropdownSizing.EstimateIsPerCharacter` states the rule |
| DropdownSizing.EstimateIsPerCharacter | Assets/Scripts/DropdownUIFixer.cs:177-182 | the estimate adds up over concatenation, and one character is 0.6 of the font size |
| DropdownSizing.MaxTextWidth | Assets/Scripts/DropdownUIFixer.cs:163-171 | the widest estimate over non-empty options: at least each one, and either 0 or equal to one of them |
| DropdownSizing.OptimalWidth | Assets/Scripts/DropdownUIFixer.cs:148-175 | the minimum width with no dropdown, options or TextMeshPro font; otherwise the widest estimate plus 60 |
| DropdownSizing.DropdownUIFixer.CalculateOptimalWidth | Assets/Scripts/DropdownUIFixer.cs:148-175 | the loop computes `OptimalWidth` |
| DropdownSizing.OnlyEmptyOptionsGivePadding | Assets/Scripts/DropdownUIFixer.cs:163-174 | empty option texts are skipped: with only those, the width is the bare 60 |
| DropdownSizing.OptimalWidthIsWidestOption | Assets/Scripts/DropdownUIFixer.cs:148-175 | with a positive font size and a non-empty option, the width is some option's estimate plus 60 |
| DropdownSizing.MoreOptionsNoNarrower | Assets/Scripts/DropdownUIFixer.cs:163-171 | adding an option never makes the estimate narrower |
| DropdownSizing.Clamp | Assets/Scripts/DropdownUIFixer.cs:137 | `Mathf.Clamp`: within the bounds when they are ordered, the identity inside them, the nearer bound outside |
| DropdownSizing.DropdownUIFixer.FixDropdownDimensions | Assets/Scripts/DropdownUIFixer.cs:125-146 | the dropdown's size becomes `DimensionsFixed` of its old size and the optimal width |
| DropdownSizing.DimensionsRules | Assets/Scripts/DropdownUIFixer.cs:125-146 | only the width changes, it stays within the configured bounds, and nothing changes with auto-adjust off |
| DropdownSizing.TemplateHeight | Assets/Scripts/DropdownUIFixer.cs:196-200 | 30 per option, and never above 200 |
| DropdownSizing.DropdownUIFixer.AdjustTemplateSize | Assets/Scripts/DropdownUIFixer.cs:184-205 | the template's size becomes `TemplateAdjusted` of its old size; the caller runs it only when `adjustTemplateSize` is set |
| DropdownSizing.TemplateRules | Assets/Scripts/DropdownUIFixer.cs:184-205 | the template keeps its width with auto-adjust off and otherwise takes the dropdown's width; its height is 0 with no options and at most 200 |
| Strings.ToLower | Assets/Scripts/MobileUIManager.cs:167 | same length, with each character lower-cased (ASCII) |
| Strings.ToLowerIdempotent | Assets/Scripts/MobileUIManager.cs:167 | lower-casing twice is lower-casing once |
| MobileUIManager.IsControlButton | Assets/Scripts/MobileUIManager.cs:165-172 | true exactly when the lower-cased name contains one of the seven control words |
| MobileUIManager.ReiniciarIsRedundant | Assets/Scripts/MobileUIManager.cs:168-171 | the "reiniciar" test adds nothing, since any name containing it contains "iniciar" |
| Geometry.Overlaps | Assets/Scripts/MobileUIManager.cs:205-216 | the corner test of `CheckUIOverlap` and `IsOverlapping`; its contract is `Geometry.OverlapsIffCommonPoint`, `OverlapsReflexive`, `OverlapsSymmetric` and `TouchingEdgesOverlap` |
| Geometry.OverlapsIffCommonPoint | Assets/Scripts/MobileUIManager.cs:205-216 | for well-formed boxes the corner test holds exactly when the closed boxes share a point |
| Geometry.OverlapsReflexive | Assets/Scripts/MobileUIManager.cs:205-216 | every well-formed box overlaps itself |
| Geometry.OverlapsSymmetric | Assets/Scripts/AutoMobileUIFix.cs:146-158 | the overlap test does not depend on argument order |
| Geometry.TouchingEdgesOverlap | Assets/Scripts/AutoMobileUIFix.cs:146-158 | boxes that only touch along an edge count as overlapping, because the comparisons are non-strict |
| MobileUIManager.CalculateSafePosition | Assets/Scripts/MobileUIManager.cs:218-229 | its contract is `MobileUIManager.SafePositionRule`: x is kept, the top edge goes 30 below the obstacle's bottom edge, and the boxes no longer overlap in anchored coordinates |
| MobileUIManager.SafePositionRule | Assets/Scripts/MobileUIManager.cs:218-229 | x is kept; the new top edge sits 30 below the obstacle's bottom edge, and in anchored coordinates the moved box no longer overlaps it |
| MobileUIManager.FixButtonPosition | Assets/Scripts/MobileUIManager.cs:174-203 | the button becomes `MovedBelow` the first overlapping looked-up object |
| MobileUIManager.FixButtonPositionRule | Assets/Scripts/MobileUIManager.cs:174-203 | with no overlapping lookup the button stays; otherwise it goes below the first one it overlaps, none before it overlapping |
| Geometry.FirstHit | Assets/Scripts/MobileUIManager.cs:184-202 | the first index whose object exists, has a RectTransform and overlaps; none exactly when no object does |
| Geometry.MoveBelowFirstHit | Assets/Scripts/MobileUIManager.cs:184-202 | the loop stops at the first hit; x, size and corners are kept; the button moves only when some object overlaps it |
| MobileUIManager.ConstrainSliderToParent | Assets/Scripts/MobileUIManager.cs:245-290 | the slider becomes `SliderConstrained`: the nearest ancestor named "panel" or having an Image, with a RectTransform, bounds it horizontally, keeping a margin of 20 |
| MobileUIManager.ConstrainSliderRule | Assets/Scripts/MobileUIManager.cs:245-290 | only x changes; with no such parent nothing changes; a slider that fits ends within the bound and a second pass changes nothing |
| Geometry.ConstrainSpan | Assets/Scripts/MobileUIManager.cs:270-281 | a right overrun puts the right edge at the bound less the inset, otherwise a left overrun puts the left edge at the negated bound plus the inset, otherwise x stays |
| Geometry.ConstrainSpanFits | Assets/Scripts/MobileUIManager.cs:270-281 | a span that fits ends inside the bounds, and the correction is idempotent |
| Geometry.NearestAncestor | Assets/Scripts/MobileUIManager.cs:251-260 | the first ancestor the rule accepts, none before it being accepted; none exactly when no ancestor is |
| Geometry.FindAncestor | Assets/Scripts/AutoMobileUIFix.cs:198-213 | the parent walk computes `NearestAncestor` |
| MobileUIManager.SetupSafeArea | Assets/Scripts/MobileUIManager.cs:106-139 | for a non-zero screen, each of the four anchor coordinates times the matching screen dimension gives back the safe area's corner coordinate; a zero dimension gives `None` |
| Geometry.SafeAreaAnchors | Assets/Scripts/MobileUIManager.cs:121-127 | for a non-zero screen the anchors are the safe area's corners divided by the screen size; a zero dimension gives `None` |
| Geometry.SafeAreaAnchorsInUnitSquare | Assets/Scripts/MobileUIManager.cs:121-127 | a safe area inside the screen gives ordered anchors within [0, 1] |
| AutoMobileUIFix.IsControlButton | Assets/Scripts/AutoMobileUIFix.cs:99-104 | true exactly when the lower-cased name contains one of the five timer-control words |
| AutoMobileUIFix.FilterNarrowerThanManager | Assets/Scripts/AutoMobileUIFix.cs:99-104 | every button this filter picks, the `MobileUIManager` filter picks too |
| AutoMobileUIFix.StopIsOnlyPickedByManager | Assets/Scripts/AutoMobileUIFix.cs:99-104 | a button named "Stop" is picked by `MobileUIManager` only |
| AutoMobileUIFix.CalculateNonOverlappingPosition | Assets/Scripts/AutoMobileUIFix.cs:160-171 | its contract is `AutoMobileUIFix.NonOverlappingPositionRule`: x is kept and the top edge goes 20 below the timer's bottom edge, clear of it in anchored coordinates |
| AutoMobileUIFix.NonOverlappingPositionRule | Assets/Scripts/AutoMobileUIFix.cs:160-171 | x is kept; the top edge sits 20 below the timer's bottom edge, clear of it in anchored coordinates |
| AutoMobileUIFix.CheckAndFixButtonOverlap | Assets/Scripts/AutoMobileUIFix.cs:118-144 | the button becomes `MovedBelow` the first overlapping object among TimerPanel, Timer Panel, Panel, TimerText and Timer |
| AutoMobileUIFix.CheckAndFixButtonOverlapRule | Assets/Scripts/AutoMobileUIFix.cs:118-144 | with no overlapping lookup the button stays; otherwise it goes 20 below the first one it overlaps |
| AutoMobileUIFix.PanelBeforeTimerText | Assets/Scripts/AutoMobileUIFix.cs:121-143 | when both "Panel" and "TimerText" overlap and neither timer panel exists, "Panel" decides the new position |
| AutoMobileUIFix.FindParentPanel | Assets/Scripts/AutoMobileUIFix.cs:198-213 | the nearest ancestor named "...panel..." or having an Image |
| Geometry.FitSliderInPanel | Assets/Scripts/AutoMobileUIFix.cs:215-261 | the four sequential checks compute `Fitted`, and an adjustment is reported exactly when a corner is outside |
| AutoMobileUIFix.EnsureSliderFitsInPanel | Assets/Scripts/AutoMobileUIFix.cs:215-261 | the position after the checks against half the panel less 20; unchanged when no corner is out |
| AutoMobileUIFix.SliderFitRule | Assets/Scripts/AutoMobileUIFix.cs:229-241 | each overrun is corrected by exactly its size; a slider that fits in the margin-reduced panel ends inside it |
| Geometry.FitAxisShift | Assets/Scripts/AutoMobileUIFix.cs:229-254 | the high-side check moves by the overrun plus padding, the low-side check likewise, and otherwise there is no move |
| Geometry.FitAxisFits | Assets/Scripts/AutoMobileUIFix.cs:229-254 | a slider at least `padding` narrower than the allowed span ends inside it |
| Geometry.FittedWithoutViolation | Assets/Scripts/AutoMobileUIFix.cs:256-260 | with no corner outside, the position is unchanged |
| AutoMobileUIFix.FixSlider | Assets/Scripts/AutoMobileUIFix.cs:173-196 | no accepted parent, or a parent without a RectTransform, leaves the slider as it is; otherwise it is fitted to that parent |
| MobileUIFixer.IsControlButton | Assets/Scripts/MobileUIFixer.cs:139-143 | true exactly when the lower-cased name contains one of its five words |
| MobileUIFixer.SameFilterAsAutoFix | Assets/Scripts/MobileUIFixer.cs:139-143 | it picks exactly the buttons the `AutoMobileUIFix` filter picks |
| MobileUIFixer.TimerPanel | Assets/Scripts/MobileUIFixer.cs:160-162 | the `??` chain: TimerPanel if it exists, else Timer Panel, else Panel |
| MobileUIFixer.AdjustButtonPosition | Assets/Scripts/MobileUIFixer.cs:154-180 | the button's position becomes `AdjustedPosition` |
| MobileUIFixer.AdjustButtonRule | Assets/Scripts/MobileUIFixer.cs:154-180 | a button less than 100 below the timer's bottom goes to 120 below it, keeping x; it ends at least 100 below; a second pass changes nothing |
| MobileUIFixer.FirstFoundPanelDecides | Assets/Scripts/MobileUIFixer.cs:160-168 | a "Timer Panel" without a RectTransform hides a "Panel" that has one, so nothing moves |
| MobileUIFixer.FindParentPanel | Assets/Scripts/MobileUIFixer.cs:210-225 | the nearest ancestor named "...panel..." or having an Image |
| MobileUIFixer.EnsureSliderFitsInPanel | Assets/Scripts/MobileUIFixer.cs:227-277 | the position after the checks against half the panel, moving 10 past each overrun; unchanged when no corner is out |
| MobileUIFixer.SliderFitRule | Assets/Scripts/MobileUIFixer.cs:246-257 | each overrun is corrected by its size plus 10; a slider at least 10 narrower than the panel ends inside it |
| MobileUIFixer.FixSlider | Assets/Scripts/MobileUIFixer.cs:182-208 | no accepted parent, or one without a RectTransform, leaves the slider; otherwise it is fitted to that parent |
| MobileUIFixer.MobileUIFixer.constructor | Assets/Scripts/MobileUIFixer.cs:295-298 | `Awake` records the screen size |
| MobileUIFixer.MobileUIFixer.ApplySafeArea | Assets/Scripts/MobileUIFixer.cs:91-125 | appends `SafeAreaAnchors` for the current safe area and screen |
| MobileUIFixer.MobileUIFixer.Update | Assets/Scripts/MobileUIFixer.cs:280-291 | the state moves as `AfterUpdate` |
| MobileUIFixer.UpdateRule | Assets/Scripts/MobileUIFixer.cs:280-291 | the new size is recorded; the safe area is re-applied exactly when the size changed and applying is enabled; earlier writes are kept; a repeat with the same size does nothing |
| ProjectRestorer.ProjectRestorer.StartRestoration | Assets/Scripts/ProjectRestorer.cs:25-47 | the ghost trace of steps run gains exactly `Plan(flags)`. Buttons end interactable when enabling is on and keep their flag otherwise. Found buttons, sliders and texts end as the per-object rules say when their step is on, and unchanged otherwise. Listed buttons the scene search did not find keep their position |
| ProjectRestorer.RunAppendsPlan | Assets/Scripts/ProjectRestorer.cs:25-47 | running the five `if`s one at a time appends `Plan` to the trace |
| ProjectRestorer.PlanMembers | Assets/Scripts/ProjectRestorer.cs:25-47 | a step runs exactly when its flag is set |
| ProjectRestorer.PlanOrder | Assets/Scripts/ProjectRestorer.cs:25-47 | the steps run in the fixed order orientations, fonts, buttons, pose, mobile layout; none runs twice |
| ProjectRestorer.ProjectRestorer.FixUIFonts | Assets/Scripts/ProjectRestorer.cs:91-104 | every text under a button becomes white and bold, with size at least 14; the other texts keep their size, colour and bold flag |
| ProjectRestorer.FixButtonText | Assets/Scripts/ProjectRestorer.cs:98-103 | one text after the button-text rule |
| ProjectRestorer.FontFloor | Assets/Scripts/ProjectRestorer.cs:101 | `Mathf.Max(size, 14)`: at least 14 and at least the old size, and equal to one of them |
| ProjectRestorer.ProjectRestorer.EnableAllButtons | Assets/Scripts/ProjectRestorer.cs:106-123 | every assigned listed button and every found button ends interactable; no position changes; unassigned entries are skipped |
| ProjectRestorer.ProjectRestorer.FixButtonOverlap | Assets/Scripts/ProjectRestorer.cs:180-208 | every found button's position becomes `Lowered`; interactable flags are kept |
| ProjectRestorer.LowerButton | Assets/Scripts/ProjectRestorer.cs:187-205 | one button's position after the rule |
| ProjectRestorer.LoweredRule | Assets/Scripts/ProjectRestorer.cs:187-205 | control buttons above -300 go to y = -350, keeping x; no control button is left above -300; other buttons stay; a second pass changes nothing |
| ProjectRestorer.ProjectRestorer.FixSliderBounds | Assets/Scripts/ProjectRestorer.cs:210-259 | every slider's position becomes `SliderFixed` |
| ProjectRestorer.FixOneSlider | Assets/Scripts/ProjectRestorer.cs:216-257 | one slider's position after the parent walk and the correction |
| ProjectRestorer.SliderFixedRule | Assets/Scripts/ProjectRestorer.cs:216-257 | only x changes; the panel is the nearest ancestor whose name contains "panel"; a right overrun ends 10 inside the right side, otherwise a left overrun ends 10 inside the left side; a slider that fits ends inside the panel |
| ProjectRestorer.ProjectRestorer.FixMobileUILayout | Assets/Scripts/ProjectRestorer.cs:158-178 | the button rule, then the slider rule, then the step is recorded |
| ProjectRestorer.ProjectRestorer.FixCharacterOrientations | Assets/Scripts/ProjectRestorer.cs:48-58 | records the step; the rotations themselves are not modelled |
| ProjectRestorer.ProjectRestorer.ResetTungTungPose | Assets/Scripts/ProjectRestorer.cs:124-137 | records the step; adding the animator component is not modelled |

## Left out

- Unity plumbing is not modelled: `FindObjectOfType`, `GetComponent`, `GetComponentInChildren`, `Debug.Log`, listeners, `[ContextMenu]` and `[Header]`. Scene searches become given sequences or a name-to-object map.
- RectTransform writes in the three mobile fixers are modelled as returned values, not as updates in place. World corners and the panel-local corners (`GetWorldCorners`, `InverseTransformPoint`) are inputs, not computed.
- `float` is modelled as `real`, so rounding is not. `Mathf.Approximately` and `Color ==` are exact equality.
- UpdateProgressBar: a zero duration (a division by zero in floats) is not modelled; `Clamp01` of the quotient is taken as given.
- Session.TimerTextMeaning: covers non-negative times only. For one frame after an overshoot the text is negative (for example "-01:-01", see `OvershootShowsNegativeText`).
- The NullReferenceExceptions the source raises when a referenced widget is missing are not modelled; the model either skips the write or assumes the widget exists. `ImmediateToggleTest` sets the colour and then fails on a missing text, which the model treats as "the text stays missing".
- `FixUIFonts` font loading and assignment (`Resources.Load`, `FindObjectsOfTypeAll`, the font name checks) are not modelled. The same goes for `DropdownUIFixer.FixLabelText` and `FixTemplateText`, because fonts and TextMeshPro layout are outside the model.
- Canvas-scaler writes are not modelled, since the reference resolution, screen-match mode and match value they write are engine settings. This covers `AutoMobileUIFix.FixCanvasScaler`, `MobileUIFixer.FixCanvasScaler`, `MobileUIManager.FixCanvasScaling` (called from `ApplyMobileFixes`, which then runs `SetupSafeArea` when safe areas are enabled and `FixUIElementPositions`, that is, the modelled button and slider fixes and the unmodelled `FixTextOverflows`), and the inline scaler writes at the start of `ProjectRestorer.FixMobileUILayout`. Rotations and `AddComponent<SimpleTungTungAnimator>` are also left out.
- Not modelled: coroutines and `Invoke` delays; `AutoMobileUIFix.Start` and `MobileUIFixer.FixMobileUI`, which call `FixCanvasScaler` and then the modelled fixes in order, each behind its own inspector flag (`MobileUIFixer.FixMobileUI` does nothing at all when the scene has no Canvas); `FixTextOverflows`; `OnValidate`; and the Set*, ForceUpdate*, DebugSceneState, ForceRefresh*, AutoFindDropdown and TestLongText helpers.
- Platform detection (`DetectPlatformAndApplyFixes`) is left out, because it depends on `Application.platform`.
- `MobileUIManager.Update` is not modelled as a per-frame step: while safe areas are enabled and a safe-area panel is set, it re-runs the modelled `SetupSafeArea` anchor arithmetic every frame, on every platform.
- ProjectRestorer.FixButtonText: the font style is reduced to a bold flag. The source assigns `FontStyles.Bold`, which also clears italic, underline and any other style; the model records only that the text becomes bold.
- Session.SessionManager: durations are inspector constants, so they are fixed `Settings`, and the phrases are the source's six strings.
- The loops over all buttons and sliders in `MobileUIManager.FixButtonOverlaps`, `FixSliderBounds`, `AutoMobileUIFix.FixButtonPositions`, `FixSliderBounds` and `MobileUIFixer.FixButtonPositions`, `FixSliderPositions` are modelled per element (`FixButtonPosition`, `CheckAndFixButtonOverlap`, `AdjustButtonPosition`, `FixSlider`), since elements are independent.
- ProjectRestorer.ProjectRestorer.FixSliderBounds: requires the found sliders to be distinct objects, as a scene search returns them. The restorer's texts and lists are given, not searched.
- Geometry.SafeAreaAnchors, MobileUIManager.SetupSafeArea, MobileUIFixer.MobileUIFixer.ApplySafeArea: with a zero screen width or height the source divides floats by zero and writes infinite or NaN anchors; the model gives `None` there (and `ApplySafeArea` records `None`), since IEEE special values are not modelled.
- Strings.ToLower: lower-cases ASCII letters only. C#'s `string.ToLower()` is culture-sensitive Unicode (under a Turkish culture "I" becomes dotless "ı", so "INICIAR" fails the filters); that is not modelled.
- DropdownSizing.EstimateTextWidth: the length is `|text|`, a count of characters. C#'s `Length` counts UTF-16 code units, so a character outside the Basic Multilingual Plane counts as 2 there; that is not modelled.

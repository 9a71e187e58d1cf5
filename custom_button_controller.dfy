/**
 * `CustomButtonController`: restyles the play/pause and reset buttons from the
 * session manager's flags. It reads those flags by field name (reflection):
 * a field that is missing, or has another type, reads as `false` / `0`. The
 * buttons are restyled only when the observed pair (running, confirmation
 * pending) differs from the pair seen last.
 */
module ButtonStyling {
  import opened Wrappers
  import Session

  datatype Color = Color(r: real, g: real, b: real, a: real)

  /** The five editable colours of the component. */
  datatype Palette = Palette(iniciar: Color, pausar: Color, continuar: Color, reiniciar: Color, confirmar: Color)

  /** The colours the component starts with. */
  const DefaultPalette: Palette := Palette(
    Color(0.2, 0.8, 0.3, 1.0),
    Color(0.3, 0.6, 0.9, 1.0),
    Color(0.8, 0.6, 0.2, 1.0),
    Color(0.8, 0.3, 0.3, 1.0),
    Color(0.9, 0.5, 0.1, 1.0))

  /** What reflection finds under a field name. */
  datatype FieldValue = BoolValue(b: bool) | FloatValue(f: real) | OtherValue

  type Fields = map<string, FieldValue>

  /** The session manager's fields, by name and type, as reflection sees them. */
  function Reflect(sm: Session.SessionManager): Fields
    reads sm
  {
    map[
      "sessionDuration" := FloatValue(sm.settings.sessionDuration),
      "breakDuration" := FloatValue(sm.settings.breakDuration),
      "currentTime" := FloatValue(sm.currentTime),
      "originalSessionDuration" := FloatValue(sm.originalSessionDuration),
      "isRunning" := BoolValue(sm.isRunning),
      "isBreakTime" := BoolValue(sm.isBreakTime),
      "sessionPhraseIndex" := OtherValue,
      "resetConfirmationPending" := BoolValue(sm.resetConfirmationPending),
      "resetConfirmationTime" := FloatValue(sm.resetConfirmationTime)
    ]
  }

  /** The same table built from a timer state. */
  function TimerFields(t: Session.Timer, s: Session.Settings): Fields
  {
    map[
      "sessionDuration" := FloatValue(s.sessionDuration),
      "breakDuration" := FloatValue(s.breakDuration),
      "currentTime" := FloatValue(t.currentTime),
      "originalSessionDuration" := FloatValue(t.originalSessionDuration),
      "isRunning" := BoolValue(t.isRunning),
      "isBreakTime" := BoolValue(t.isBreakTime),
      "sessionPhraseIndex" := OtherValue,
      "resetConfirmationPending" := BoolValue(t.resetPending),
      "resetConfirmationTime" := FloatValue(t.resetTime)
    ]
  }

  /** The session manager found at start-up, seen through reflection (None when there is none). */
  function Observe(sm: Session.SessionManager?): Option<Fields>
    reads sm
  {
    if sm == null then None else Some(Reflect(sm))
  }

  /** `GetSessionManagerBool`: the field's value when it exists and is a bool, `false` otherwise. */
  function GetBool(fields: Option<Fields>, name: string): (r: bool)
    ensures r <==> fields.Some? && name in fields.value && fields.value[name] == BoolValue(true)
  {
    if fields.Some? && name in fields.value && fields.value[name].BoolValue? then fields.value[name].b
    else false
  }

  /** `GetSessionManagerFloat`: the field's value when it exists and is a float, `0` otherwise. */
  function GetFloat(fields: Option<Fields>, name: string): (r: real)
    ensures fields.Some? && name in fields.value && fields.value[name].FloatValue? ==> r == fields.value[name].f
    ensures !(fields.Some? && name in fields.value && fields.value[name].FloatValue?) ==> r == 0.0
  {
    if fields.Some? && name in fields.value && fields.value[name].FloatValue? then fields.value[name].f
    else 0.0
  }

  /** The three states the play button shows. */
  datatype PlayState = Fresh | Running | Paused

  /** Not running with the whole duration left is fresh; running wins over the rest. */
  function PlayStateOf(isRunning: bool, currentTime: real, original: real): (st: PlayState)
    ensures st == Fresh <==> !isRunning && currentTime == original
    ensures st == Running <==> isRunning
    ensures st == Paused <==> !isRunning && currentTime != original
  {
    if !isRunning && currentTime == original then Fresh
    else if isRunning then Running
    else Paused
  }

  function Caption(st: PlayState): string
  {
    match st
    case Fresh => "Iniciar"
    case Running => "Pausar"
    case Paused => "Continuar"
  }

  function PlayColor(p: Palette, st: PlayState): Color
  {
    match st
    case Fresh => p.iniciar
    case Running => p.pausar
    case Paused => p.continuar
  }

  function ResetColor(p: Palette, pending: bool): Color
  {
    if pending then p.confirmar else p.reiniciar
  }

  /** The colours are told apart (so that a colour identifies a state). */
  predicate Distinct(p: Palette)
  {
    p.iniciar != p.pausar && p.iniciar != p.continuar && p.pausar != p.continuar
    && p.reiniciar != p.confirmar
  }

  /** A button's parts: its Image colour and its text, `None` when the part is missing. */
  datatype ButtonView = ButtonView(color: Option<Color>, text: Option<string>)

  const Missing: ButtonView := ButtonView(None, None)

  /** The component's settings, fixed after start-up. */
  datatype Config = Config(palette: Palette, autoColor: bool, autoText: bool, hasPlayButton: bool, hasResetButton: bool)

  /** The component's changing state. */
  datatype Styles = Styles(lastIsRunning: bool, lastResetConfirmation: bool, play: ButtonView, reset: ButtonView)

  /** `UpdatePlayPauseButton` on a view, given the reflected fields. */
  function RestylePlay(c: Config, v: ButtonView, fields: Option<Fields>): (r: ButtonView)
  {
    if !c.hasPlayButton then v
    else
      var st := PlayStateOf(GetBool(fields, "isRunning"), GetFloat(fields, "currentTime"),
                            GetFloat(fields, "originalSessionDuration"));
      ButtonView(
        if c.autoColor && v.color.Some? then Some(PlayColor(c.palette, st)) else v.color,
        if c.autoText && v.text.Some? then Some(Caption(st)) else v.text)
  }

  /** `UpdateResetButton`: only the colour is ever written. */
  function RestyleReset(c: Config, v: ButtonView, fields: Option<Fields>): (r: ButtonView)
  {
    if !c.hasResetButton then v
    else if c.autoColor && v.color.Some? then v.(color := Some(ResetColor(c.palette, GetBool(fields, "resetConfirmationPending"))))
    else v
  }

  /** `Update`: restyle on a change of the observed pair, then record the pair. */
  function AfterUpdate(c: Config, s: Styles, fields: Option<Fields>): Styles
  {
    if fields.None? then s
    else
      var running := GetBool(fields, "isRunning");
      var pending := GetBool(fields, "resetConfirmationPending");
      if running == s.lastIsRunning && pending == s.lastResetConfirmation then s
      else
        var restyled :=
          if c.autoColor || c.autoText
          then s.(play := RestylePlay(c, s.play, fields), reset := RestyleReset(c, s.reset, fields))
          else s;
        restyled.(lastIsRunning := running, lastResetConfirmation := pending)
  }

  /** `ImmediateToggleTest`: "iniciar" colour goes to "pausar", any other to "iniciar". */
  function ToggleTest(p: Palette, v: ButtonView): (r: ButtonView)
  {
    if v.color.None? then v
    else if v.color.value == p.iniciar then ButtonView(Some(p.pausar), if v.text.Some? then Some("Pausar") else None)
    else ButtonView(Some(p.iniciar), if v.text.Some? then Some("Iniciar") else None)
  }

  // ---------------------------------------------------------------------
  // Properties
  // ---------------------------------------------------------------------

  /** Reflection on a live session manager sees exactly its timer state and settings. */
  lemma ReflectIsTimerFields(sm: Session.SessionManager)
    ensures Reflect(sm) == TimerFields(sm.Model(), sm.settings)
  {
  }

  lemma ReflectionReadsSession(t: Session.Timer, s: Session.Settings)
    ensures var f := Some(TimerFields(t, s));
      && GetBool(f, "isRunning") == t.isRunning
      && GetBool(f, "resetConfirmationPending") == t.resetPending
      && GetFloat(f, "currentTime") == t.currentTime
      && GetFloat(f, "originalSessionDuration") == t.originalSessionDuration
  {
  }

  /** Wrong-typed or missing fields read as the defaults, and so does a missing session manager. */
  lemma ReflectionDefaults(t: Session.Timer, s: Session.Settings, name: string)
    ensures GetFloat(Some(TimerFields(t, s)), "sessionPhraseIndex") == 0.0
    ensures GetBool(Some(TimerFields(t, s)), "currentTime") == false
    ensures name !in TimerFields(t, s) ==> !GetBool(Some(TimerFields(t, s)), name) && GetFloat(Some(TimerFields(t, s)), name) == 0.0
    ensures !GetBool(None, name) && GetFloat(None, name) == 0.0
  {
  }

  /** The caption chosen here is the one the session manager itself shows. */
  lemma CaptionAgreesWithSession(t: Session.Timer, s: Session.Settings)
    ensures var f := Some(TimerFields(t, s));
      Caption(PlayStateOf(GetBool(f, "isRunning"), GetFloat(f, "currentTime"),
                          GetFloat(f, "originalSessionDuration"))) == Session.PlayCaption(t)
  {
    ReflectionReadsSession(t, s);
  }

  /** With distinct colours, the play colour and the caption determine each other. */
  lemma ColorMatchesCaption(p: Palette, a: PlayState, b: PlayState)
    requires Distinct(p)
    ensures PlayColor(p, a) == PlayColor(p, b) <==> Caption(a) == Caption(b)
    ensures PlayColor(p, a) == p.iniciar <==> Caption(a) == "Iniciar"
  {
  }

  /** The reset colour shows the confirmation state, and the reset text is never written. */
  lemma ResetStyleRules(c: Config, s: Styles, fields: Option<Fields>)
    ensures AfterUpdate(c, s, fields).reset.text == s.reset.text
    ensures c.hasResetButton && c.autoColor && s.reset.color.Some? && fields.Some?
            && (GetBool(fields, "isRunning") != s.lastIsRunning || GetBool(fields, "resetConfirmationPending") != s.lastResetConfirmation)
            ==> AfterUpdate(c, s, fields).reset.color == Some(ResetColor(c.palette, GetBool(fields, "resetConfirmationPending")))
  {
  }

  /** Text changes only when text changes are enabled; colours only when colour changes are. */
  lemma SwitchesGateChanges(c: Config, s: Styles, fields: Option<Fields>)
    ensures !c.autoText ==> AfterUpdate(c, s, fields).play.text == s.play.text
    ensures !c.autoColor ==> AfterUpdate(c, s, fields).play.color == s.play.color
    ensures !c.autoColor ==> AfterUpdate(c, s, fields).reset == s.reset
  {
  }

  /**
   * Change detection: with a session manager, an update records the observed
   * pair; when the pair has not changed nothing happens; so a second update
   * on the same fields changes nothing.
   */
  lemma UpdateDetectsChanges(c: Config, s: Styles, fields: Option<Fields>)
    ensures fields.Some? ==> AfterUpdate(c, s, fields).lastIsRunning == GetBool(fields, "isRunning")
    ensures fields.Some? ==> AfterUpdate(c, s, fields).lastResetConfirmation == GetBool(fields, "resetConfirmationPending")
    ensures GetBool(fields, "isRunning") == s.lastIsRunning && GetBool(fields, "resetConfirmationPending") == s.lastResetConfirmation
            ==> AfterUpdate(c, s, fields) == s
    ensures AfterUpdate(c, AfterUpdate(c, s, fields), fields) == AfterUpdate(c, s, fields)
  {
  }

  /**
   * A change in the pair restyles the play button after the session: its
   * caption (when shown and enabled) is the session's own caption.
   */
  lemma RestyleShowsSessionCaption(c: Config, s: Styles, t: Session.Timer, st: Session.Settings)
    requires c.hasPlayButton && c.autoText && s.play.text.Some?
    requires t.isRunning != s.lastIsRunning || t.resetPending != s.lastResetConfirmation
    ensures AfterUpdate(c, s, Some(TimerFields(t, st))).play.text == Some(Session.PlayCaption(t))
  {
    CaptionAgreesWithSession(t, st);
    ReflectionReadsSession(t, st);
  }

  /** The toggle test alternates: from the "iniciar" colour two presses come back to it. */
  lemma ToggleTestAlternates(p: Palette, v: ButtonView)
    requires p.iniciar != p.pausar && v.color.Some?
    ensures v.color.value == p.iniciar ==> ToggleTest(p, v).color == Some(p.pausar)
    ensures v.color.value != p.iniciar ==> ToggleTest(p, v).color == Some(p.iniciar)
    ensures v.color.value == p.iniciar ==> ToggleTest(p, ToggleTest(p, v)).color == v.color
    ensures v.text.Some? ==> ToggleTest(p, v).text == Some(if v.color.value == p.iniciar then "Pausar" else "Iniciar")
    ensures v.text.None? ==> ToggleTest(p, v).text.None?
  {
  }

  // ---------------------------------------------------------------------
  // The component
  // ---------------------------------------------------------------------

  class CustomButtonController {
    const config: Config
    /** Found once at start-up; `null` when the scene has none. */
    const sessionManager: Session.SessionManager?
    var lastIsRunning: bool
    var lastResetConfirmation: bool
    var play: ButtonView
    var reset: ButtonView

    ghost function Model(): Styles
      reads this
    {
      Styles(lastIsRunning, lastResetConfirmation, play, reset)
    }

    /**
     * Field initialisers and `Start`: the buttons' parts are looked up only
     * when the button itself is assigned.
     */
    constructor (palette: Palette, autoColor: bool, autoText: bool,
                 sm: Session.SessionManager?, playButton: Option<ButtonView>, resetButton: Option<ButtonView>)
      ensures config == Config(palette, autoColor, autoText, playButton.Some?, resetButton.Some?)
      ensures sessionManager == sm
      ensures Model() == Styles(false, false,
                                if playButton.Some? then playButton.value else Missing,
                                if resetButton.Some? then resetButton.value else Missing)
    {
      config := Config(palette, autoColor, autoText, playButton.Some?, resetButton.Some?);
      sessionManager := sm;
      lastIsRunning := false;
      lastResetConfirmation := false;
      play := if playButton.Some? then playButton.value else Missing;
      reset := if resetButton.Some? then resetButton.value else Missing;
    }

    method GetSessionManagerBool(name: string) returns (r: bool)
      ensures r == GetBool(Observe(sessionManager), name)
    {
      if sessionManager == null {
        return false;
      }
      var fields := Reflect(sessionManager);
      if name in fields && fields[name].BoolValue? {
        return fields[name].b;
      }
      return false;
    }

    method GetSessionManagerFloat(name: string) returns (r: real)
      ensures r == GetFloat(Observe(sessionManager), name)
    {
      if sessionManager == null {
        return 0.0;
      }
      var fields := Reflect(sessionManager);
      if name in fields && fields[name].FloatValue? {
        return fields[name].f;
      }
      return 0.0;
    }

    /** `Update`, once per frame. */
    method Update()
      modifies this
      ensures Model() == AfterUpdate(config, old(Model()), Observe(sessionManager))
    {
      if sessionManager == null {
        return;
      }
      var currentIsRunning := GetSessionManagerBool("isRunning");
      var currentResetConfirmation := GetSessionManagerBool("resetConfirmationPending");
      if currentIsRunning != lastIsRunning || currentResetConfirmation != lastResetConfirmation {
        if config.autoColor || config.autoText {
          UpdatePlayPauseButton();
          UpdateResetButton();
        }
        lastIsRunning := currentIsRunning;
        lastResetConfirmation := currentResetConfirmation;
      }
    }

    method UpdatePlayPauseButton()
      modifies this`play
      ensures play == RestylePlay(config, old(play), Observe(sessionManager))
    {
      if !config.hasPlayButton {
        return;
      }
      var isRunning := GetSessionManagerBool("isRunning");
      var currentTime := GetSessionManagerFloat("currentTime");
      var originalSessionDuration := GetSessionManagerFloat("originalSessionDuration");
      if config.autoText && play.text.Some? {
        if !isRunning && currentTime == originalSessionDuration {
          play := play.(text := Some("Iniciar"));
        } else if isRunning {
          play := play.(text := Some("Pausar"));
        } else {
          play := play.(text := Some("Continuar"));
        }
      }
      if config.autoColor && play.color.Some? {
        if !isRunning && currentTime == originalSessionDuration {
          play := play.(color := Some(config.palette.iniciar));
        } else if isRunning {
          play := play.(color := Some(config.palette.pausar));
        } else {
          play := play.(color := Some(config.palette.continuar));
        }
      }
    }

    method UpdateResetButton()
      modifies this`reset
      ensures reset == RestyleReset(config, old(reset), Observe(sessionManager))
    {
      if !config.hasResetButton {
        return;
      }
      var resetConfirmationPending := GetSessionManagerBool("resetConfirmationPending");
      if config.autoColor && reset.color.Some? {
        if !resetConfirmationPending {
          reset := reset.(color := Some(config.palette.reiniciar));
        } else {
          reset := reset.(color := Some(config.palette.confirmar));
        }
      }
    }

    /**
     * `ImmediateToggleTest`. With an Image but no text the source sets the
     * colour and then fails on the missing text; the text stays missing.
     */
    method ImmediateToggleTest()
      modifies this`play
      ensures play == ToggleTest(config.palette, old(play))
    {
      if play.color.Some? {
        if play.color.value == config.palette.iniciar {
          play := play.(color := Some(config.palette.pausar));
          if play.text.Some? {
            play := play.(text := Some("Pausar"));
          }
        } else {
          play := play.(color := Some(config.palette.iniciar));
          if play.text.Some? {
            play := play.(text := Some("Iniciar"));
          }
        }
      }
    }
  }
}

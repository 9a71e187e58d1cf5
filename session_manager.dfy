/**
 * The study/break session timer: a countdown, a running/break phase pair,
 * a two-step reset latch with a 3-second window, a rotating motivational
 * phrase and the texts and buttons the timer shows.
 *
 * The controller's own fields are modelled by `Timer`; the widgets it writes
 * (timer text, phrase text, instructions, the two buttons and the progress
 * bar) by `Display`. Pure functions give the effect of every operation; the
 * class `SessionManager` performs the same steps on its fields and is proved
 * against them. `Time.time` and `Time.deltaTime` are parameters.
 */
module Session {
  import opened Strings

  const SessionPhrases: seq<string> := [
    "Concéntrate en tu respiración y en tus objetivos",
    "Cada minuto cuenta para tu crecimiento",
    "Mantén la calma y sigue enfocado",
    "Tu mente está clara y preparada",
    "Este es tu momento de productividad",
    "Respira profundo y continúa trabajando"
  ]
  const InitialMessage: string := "Prepárate para tu sesión de productividad"
  const InstructionsMessage: string := "Toca el texto para cambiar frases durante la sesión"
  const RunningInstructions: string := "Toca el texto para cambiar la frase motivacional"
  const ConfirmInstructions: string := "Presiona 'Confirmar' nuevamente para reiniciar"
  const StudyOverPhrase: string := "¡Sesión completada! Tiempo de descanso"
  const BreakInstructions: string := "Disfruta tu merecido descanso"
  const BreakOverPhrase: string := "¡Descanso terminado! Nueva sesión"
  const ResetLabel: string := "Reiniciar"
  const ConfirmLabel: string := "¿Confirmar?"
  /** Seconds the reset confirmation stays armed. */
  const ConfirmWindow: real := 3.0

  /** The controller's fields. */
  datatype Timer = Timer(
    currentTime: real,
    originalSessionDuration: real,
    isRunning: bool,
    isBreakTime: bool,
    phraseIndex: int,
    resetPending: bool,
    resetTime: real)

  /** The inspector settings: study and break length, and whether a progress bar is attached. */
  datatype Settings = Settings(sessionDuration: real, breakDuration: real, hasProgressBar: bool)

  /** What the widgets show. */
  datatype Display = Display(
    timerText: string,
    phraseText: string,
    instructionsText: string,
    playCaption: string,
    playInteractable: bool,
    resetCaption: string,
    resetInteractable: bool,
    progress: real)

  // ---------------------------------------------------------------------
  // The controller's state machine
  // ---------------------------------------------------------------------

  /** The invariant every operation keeps. */
  predicate TimerValid(t: Timer, s: Settings)
  {
    && 0 <= t.phraseIndex < |SessionPhrases|
    && (t.isBreakTime ==> t.originalSessionDuration == s.breakDuration)
    && (!t.isBreakTime ==> t.originalSessionDuration == s.sessionDuration)
  }

  /** The fields after `Start`; `resetConfirmationTime` keeps its default 0. */
  function Initial(s: Settings): Timer
  {
    Timer(s.sessionDuration, s.sessionDuration, false, false, 0, false, 0.0)
  }

  /** Nothing has happened yet in this phase: stopped with the whole duration left. */
  predicate IsFresh(t: Timer)
  {
    !t.isRunning && t.currentTime == t.originalSessionDuration
  }

  function PlayCaption(t: Timer): string
  {
    if IsFresh(t) then "Iniciar" else if t.isRunning then "Pausar" else "Continuar"
  }

  predicate ResetEnabled(t: Timer)
  {
    t.currentTime != t.originalSessionDuration
  }

  function AfterComplete(t: Timer, s: Settings): Timer
  {
    var c := t.(resetPending := false);
    if !t.isBreakTime then
      c.(isBreakTime := true, currentTime := s.breakDuration,
         originalSessionDuration := s.breakDuration, isRunning := true)
    else
      c.(isRunning := false, isBreakTime := false, currentTime := s.sessionDuration,
         originalSessionDuration := s.sessionDuration)
  }

  /** The first half of a tick: count down, or complete the phase. */
  function AfterCountdown(t: Timer, s: Settings, dt: real): Timer
  {
    if t.isRunning && t.currentTime > 0.0 then t.(currentTime := t.currentTime - dt)
    else if t.isRunning then AfterComplete(t, s)
    else t
  }

  predicate LatchExpired(t: Timer, now: real)
  {
    t.resetPending && now > t.resetTime + ConfirmWindow
  }

  function AfterTick(t: Timer, s: Settings, dt: real, now: real): Timer
  {
    var c := AfterCountdown(t, s, dt);
    if LatchExpired(c, now) then c.(resetPending := false) else c
  }

  function AfterToggle(t: Timer): Timer
  {
    var c := if IsFresh(t) then t.(isRunning := true, phraseIndex := 0)
             else t.(isRunning := !t.isRunning);
    c.(resetPending := false)
  }

  function AfterConfirm(t: Timer, s: Settings): Timer
  {
    t.(isRunning := false, isBreakTime := false, currentTime := s.sessionDuration,
       originalSessionDuration := s.sessionDuration, phraseIndex := 0, resetPending := false)
  }

  function AfterReset(t: Timer, s: Settings, now: real): Timer
  {
    if t.resetPending then AfterConfirm(t, s)
    else if t.currentTime != t.originalSessionDuration then t.(resetPending := true, resetTime := now)
    else t
  }

  function AfterNextPhrase(t: Timer): Timer
  {
    t.(phraseIndex := (t.phraseIndex + 1) % |SessionPhrases|)
  }

  function AfterTextClicked(t: Timer): Timer
  {
    if t.isRunning && !t.isBreakTime then AfterNextPhrase(t) else t
  }

  // ---------------------------------------------------------------------
  // What the widgets show
  // ---------------------------------------------------------------------

  /** C#'s `%` on floats: the remainder takes the sign of the dividend. */
  function FMod(x: real, m: real): real
    requires m > 0.0
  {
    var q := x / m;
    var trunc := if q >= 0.0 then q.Floor else -((-q).Floor);
    x - m * trunc as real
  }

  /** `string.Format("{0:00}:{1:00}", FloorToInt(t / 60), FloorToInt(t % 60))`. */
  function TimerText(t: real): string
  {
    FormatTwoDigits((t / 60.0).Floor) + ":" + FormatTwoDigits(FMod(t, 60.0).Floor)
  }

  function Clamp01(v: real): real
  {
    if v < 0.0 then 0.0 else if v > 1.0 then 1.0 else v
  }

  /**
   * The progress bar value; with no bar, or a zero duration (a float division
   * by zero), the value is left as it was.
   */
  function ProgressAfter(p: real, t: Timer, s: Settings): real
  {
    var total := if t.isBreakTime then s.breakDuration else t.originalSessionDuration;
    if s.hasProgressBar && total != 0.0 then Clamp01(1.0 - t.currentTime / total) else p
  }

  function ShowTimer(d: Display, t: Timer): Display
  {
    d.(timerText := TimerText(t.currentTime))
  }

  function ShowProgress(d: Display, t: Timer, s: Settings): Display
  {
    d.(progress := ProgressAfter(d.progress, t, s))
  }

  function ShowButtons(d: Display, t: Timer): Display
  {
    d.(playInteractable := true, resetInteractable := ResetEnabled(t), playCaption := PlayCaption(t))
  }

  /** `CancelResetConfirmation`'s writes, with `t` the fields at that moment. */
  function ShowCancelled(d: Display, t: Timer): Display
  {
    d.(resetCaption := ResetLabel,
       instructionsText := if t.isRunning then RunningInstructions else InstructionsMessage)
  }

  function DisplayAtStart(resetCaption: string, s: Settings): Display
  {
    var t := Initial(s);
    var d := Display("", InitialMessage, InstructionsMessage, "", false, resetCaption, false, 0.0);
    ShowButtons(ShowProgress(ShowTimer(d, t), t, s), t)
  }

  function DisplayAfterComplete(d: Display, t: Timer, s: Settings): Display
  {
    var c := AfterComplete(t, s);
    var d1 := ShowCancelled(d, t);
    var d2 := if !t.isBreakTime then d1.(phraseText := StudyOverPhrase, instructionsText := BreakInstructions)
              else d1.(phraseText := BreakOverPhrase, instructionsText := InstructionsMessage);
    ShowProgress(ShowButtons(ShowTimer(d2, c), c), c, s)
  }

  function DisplayAfterCountdown(d: Display, t: Timer, s: Settings, dt: real): Display
  {
    if t.isRunning && t.currentTime > 0.0 then
      var c := AfterCountdown(t, s, dt);
      ShowProgress(ShowTimer(d, c), c, s)
    else if t.isRunning then DisplayAfterComplete(d, t, s)
    else d
  }

  function DisplayAfterTick(d: Display, t: Timer, s: Settings, dt: real, now: real): Display
  {
    var c := AfterCountdown(t, s, dt);
    var d1 := DisplayAfterCountdown(d, t, s, dt);
    if LatchExpired(c, now) then ShowCancelled(d1, c.(resetPending := false)) else d1
  }

  function DisplayAfterToggle(d: Display, t: Timer): Display
  {
    var c := AfterToggle(t);
    var d1 := if IsFresh(t) then ShowButtons(d.(phraseText := SessionPhrases[0], instructionsText := RunningInstructions), c)
              else ShowButtons(d, c);
    if t.resetPending then ShowCancelled(d1, c) else d1
  }

  function DisplayAfterConfirm(d: Display, t: Timer, s: Settings): Display
  {
    var c := AfterConfirm(t, s);
    var d1 := ShowCancelled(d.(phraseText := InitialMessage, instructionsText := InstructionsMessage), c);
    ShowProgress(ShowButtons(d1, c), c, s)
  }

  function DisplayAfterReset(d: Display, t: Timer, s: Settings): Display
  {
    if t.resetPending then DisplayAfterConfirm(d, t, s)
    else if t.currentTime != t.originalSessionDuration then
      d.(resetCaption := ConfirmLabel, instructionsText := ConfirmInstructions)
    else d
  }

  function DisplayAfterTextClicked(d: Display, t: Timer): Display
  {
    var c := AfterTextClicked(t);
    if t.isRunning && !t.isBreakTime then d.(phraseText := SessionPhrases[c.phraseIndex]) else d
  }

  // ---------------------------------------------------------------------
  // Properties of the state machine
  // ---------------------------------------------------------------------

  /** A tick while running with time left subtracts exactly `dt`, even past zero. */
  lemma TickWhileRunningCountsDown(t: Timer, s: Settings, dt: real, now: real)
    requires t.isRunning && t.currentTime > 0.0
    ensures var r := AfterTick(t, s, dt, now);
      && r.currentTime == t.currentTime - dt
      && r.isRunning && r.isBreakTime == t.isBreakTime
      && r.phraseIndex == t.phraseIndex
      && r.originalSessionDuration == t.originalSessionDuration
      && r.resetTime == t.resetTime
      && (r.resetPending <==> t.resetPending && now <= t.resetTime + ConfirmWindow)
  {
  }

  /** The countdown can go below zero on the tick that crosses it; completion waits for the next tick. */
  lemma CountdownOvershootsZero()
    ensures var s := Settings(1500.0, 300.0, true);
      var t := Timer(0.5, 1500.0, true, false, 2, false, 0.0);
      var r := AfterTick(t, s, 1.0, 100.0);
      && r.currentTime == -0.5 && r.isRunning && !r.isBreakTime
      && AfterTick(r, s, 1.0, 101.0).isBreakTime
  {
  }

  /**
   * The frame that overshoots zero shows a negative text: minutes and
   * seconds both floor to -1 and are formatted with their minus sign.
   */
  lemma OvershootShowsNegativeText()
    ensures TimerText(-0.5) == "-01:-01"
  {
    assert (-0.5 / 60.0).Floor == -1;
    assert FMod(-0.5, 60.0) == -0.5;
    assert (-0.5).Floor == -1;
  }

  /** A tick while running with no time left ends a study phase: the break starts at once. */
  lemma TickEndsStudy(t: Timer, s: Settings, dt: real, now: real)
    requires t.isRunning && t.currentTime <= 0.0 && !t.isBreakTime
    ensures var r := AfterTick(t, s, dt, now);
      && r.isBreakTime && r.isRunning
      && r.currentTime == r.originalSessionDuration == s.breakDuration
      && !r.resetPending && r.phraseIndex == t.phraseIndex
  {
  }

  /** A tick while running with no time left ends a break: stopped, fresh study phase. */
  lemma TickEndsBreak(t: Timer, s: Settings, dt: real, now: real)
    requires t.isRunning && t.currentTime <= 0.0 && t.isBreakTime
    ensures var r := AfterTick(t, s, dt, now);
      && !r.isBreakTime && !r.isRunning
      && r.currentTime == r.originalSessionDuration == s.sessionDuration
      && !r.resetPending && IsFresh(r)
  {
  }

  /** While stopped, a tick only ever touches the latch. */
  lemma TickWhileStoppedKeepsTime(t: Timer, s: Settings, dt: real, now: real)
    requires !t.isRunning
    ensures AfterTick(t, s, dt, now) == t.(resetPending := t.resetPending && !LatchExpired(t, now))
  {
  }

  /** Completing a phase always clears a pending reset confirmation. */
  lemma CompletionClearsLatch(t: Timer, s: Settings)
    ensures !AfterComplete(t, s).resetPending
    ensures AfterComplete(t, s).phraseIndex == t.phraseIndex
  {
  }

  /** A study phase followed by its break ends in a fresh, stopped study phase. */
  lemma StudyThenBreakIsFresh(t: Timer, s: Settings)
    requires !t.isBreakTime
    ensures var r := AfterComplete(AfterComplete(t, s), s);
      IsFresh(r) && !r.isBreakTime && r.currentTime == s.sessionDuration
  {
  }

  /** The latch survives a tick exactly while `now <= resetTime + 3` (unless the phase completes). */
  lemma LatchWindow(t: Timer, s: Settings, dt: real, now: real)
    requires t.resetPending && !(t.isRunning && t.currentTime <= 0.0)
    ensures AfterTick(t, s, dt, now).resetPending <==> now <= t.resetTime + ConfirmWindow
  {
  }

  /** At exactly three seconds the confirmation is still armed. */
  lemma LatchArmedAtThreeSeconds(t: Timer, s: Settings, dt: real)
    requires t.resetPending && !(t.isRunning && t.currentTime <= 0.0)
    ensures AfterTick(t, s, dt, t.resetTime + 3.0).resetPending
    ensures !AfterTick(t, s, dt, t.resetTime + 3.5).resetPending
  {
  }

  /** A second reset request confirms, whether the session is running or paused. */
  lemma ResetWhenPendingConfirms(t: Timer, s: Settings, now: real)
    requires t.resetPending
    ensures var r := AfterReset(t, s, now);
      && !r.isRunning && !r.isBreakTime && !r.resetPending
      && r.currentTime == r.originalSessionDuration == s.sessionDuration
      && r.phraseIndex == 0 && IsFresh(r)
  {
  }

  /** A first reset request part-way through a phase arms the latch at `now`. */
  lemma ResetArmsLatch(t: Timer, s: Settings, now: real)
    requires !t.resetPending && t.currentTime != t.originalSessionDuration
    ensures AfterReset(t, s, now) == t.(resetPending := true, resetTime := now)
  {
  }

  /** With the whole duration left and no latch, a reset request changes nothing. */
  lemma ResetAtFullDurationIsNoOp(t: Timer, s: Settings, now: real)
    requires !t.resetPending && t.currentTime == t.originalSessionDuration
    ensures AfterReset(t, s, now) == t
  {
  }

  /** Play/pause from a fresh state starts the phase with the first phrase. */
  lemma ToggleFromFreshStarts(t: Timer)
    requires IsFresh(t)
    ensures AfterToggle(t) == t.(isRunning := true, phraseIndex := 0, resetPending := false)
  {
  }

  /** Otherwise play/pause only flips `isRunning`, break or not; the latch is always cleared. */
  lemma ToggleOtherwiseFlips(t: Timer)
    requires !IsFresh(t)
    ensures AfterToggle(t) == t.(isRunning := !t.isRunning, resetPending := false)
    ensures t.isRunning && t.isBreakTime ==> !AfterToggle(t).isRunning && AfterToggle(t).isBreakTime
  {
  }

  /** Pausing freezes the clock: pause, one tick while paused, resume. */
  lemma PauseFreezesClock(t: Timer, s: Settings, dt: real, now: real)
    requires t.isRunning
    ensures var paused := AfterToggle(t);
      var later := AfterTick(paused, s, dt, now);
      && !paused.isRunning && later.currentTime == t.currentTime
      && AfterToggle(later).isRunning && AfterToggle(later).currentTime == t.currentTime
  {
  }

  /** Every operation keeps the phrase index in range and the duration matched to the phase. */
  lemma OperationsKeepValid(t: Timer, s: Settings, dt: real, now: real)
    requires TimerValid(t, s)
    ensures TimerValid(AfterTick(t, s, dt, now), s)
    ensures TimerValid(AfterToggle(t), s)
    ensures TimerValid(AfterReset(t, s, now), s)
    ensures TimerValid(AfterTextClicked(t), s)
  {
  }

  /** With non-negative frame times the countdown never exceeds the phase's duration. */
  lemma TimeBoundedByDuration(t: Timer, s: Settings, dt: real, now: real)
    requires TimerValid(t, s) && t.currentTime <= t.originalSessionDuration && dt >= 0.0
    ensures var r := AfterTick(t, s, dt, now); r.currentTime <= r.originalSessionDuration
    ensures var r := AfterToggle(t); r.currentTime <= r.originalSessionDuration
    ensures var r := AfterReset(t, s, now); r.currentTime <= r.originalSessionDuration
    ensures var r := AfterTextClicked(t); r.currentTime <= r.originalSessionDuration
  {
  }

  /** A tap advances the phrase modulo the six phrases only while studying, and the shown phrase follows. */
  lemma TextClickedRotatesPhrase(d: Display, t: Timer, s: Settings)
    requires TimerValid(t, s)
    ensures var r := AfterTextClicked(t);
      && r.phraseIndex == (if t.isRunning && !t.isBreakTime then (t.phraseIndex + 1) % 6 else t.phraseIndex)
      && 0 <= r.phraseIndex < 6
      && r == t.(phraseIndex := r.phraseIndex)
      && (t.isRunning && !t.isBreakTime ==> DisplayAfterTextClicked(d, t).phraseText == SessionPhrases[r.phraseIndex])
  {
  }

  /** `n` taps while studying. */
  function Taps(t: Timer, n: nat): Timer
  {
    if n == 0 then t else AfterTextClicked(Taps(t, n - 1))
  }

  /** After `n` taps during a study phase the index has moved `n` places round the six phrases. */
  lemma {:induction false} TapsAdvanceModulo(t: Timer, n: nat)
    requires t.isRunning && !t.isBreakTime && 0 <= t.phraseIndex < 6
    ensures Taps(t, n).phraseIndex == (t.phraseIndex + n) % 6
    ensures Taps(t, n) == t.(phraseIndex := Taps(t, n).phraseIndex)
  {
    if n > 0 {
      TapsAdvanceModulo(t, n - 1);
      var k := t.phraseIndex + n - 1;
      assert (k % 6 + 1) % 6 == (k + 1) % 6;
    }
  }

  /** The play button caption: "Iniciar" when fresh, "Pausar" when running, "Continuar" otherwise. */
  lemma PlayCaptionRules(t: Timer)
    ensures PlayCaption(t) == "Iniciar" <==> IsFresh(t)
    ensures PlayCaption(t) == "Pausar" <==> t.isRunning
    ensures PlayCaption(t) == "Continuar" <==> !t.isRunning && !IsFresh(t)
  {
  }

  /** The reset button is interactable exactly when time has been used in this phase. */
  lemma ResetButtonRule(d: Display, t: Timer)
    ensures ShowButtons(d, t).resetInteractable <==> t.currentTime != t.originalSessionDuration
    ensures ShowButtons(d, t).playInteractable
  {
  }

  lemma FloorShift(x: real, k: int)
    ensures (x + k as real).Floor == x.Floor + k
  {
  }

  /**
   * For a non-negative time the text is minutes and seconds, each in the
   * format "00", around a colon; the seconds lie in [0, 60), the two read
   * back as the whole seconds left, and each part reads back as its number.
   */
  lemma TimerTextMeaning(t: real)
    requires t >= 0.0
    ensures var m := (t / 60.0).Floor;
      var sec := FMod(t, 60.0).Floor;
      && m >= 0 && 0 <= sec < 60
      && m * 60 + sec == t.Floor
      && TimerText(t) == TwoDigits(m) + ":" + TwoDigits(sec)
      && |TwoDigits(sec)| == 2
      && ParseNat(TwoDigits(m)) == m && ParseNat(TwoDigits(sec)) == sec
  {
    var m := (t / 60.0).Floor;
    assert m as real <= t / 60.0 < m as real + 1.0;
    assert 60.0 * m as real <= t < 60.0 * m as real + 60.0;
    var r := t - 60.0 * m as real;
    assert FMod(t, 60.0) == r;
    FloorShift(r, 60 * m);
    assert r + (60 * m) as real == t;
    TwoDigitsReadsBack(m);
    TwoDigitsReadsBack(r.Floor);
  }

  /** The progress bar, when it is written, holds 0 at the start of a phase and stays in [0, 1]. */
  lemma ProgressRules(p: real, t: Timer, s: Settings)
    requires s.hasProgressBar && TimerValid(t, s) && t.originalSessionDuration != 0.0
    ensures 0.0 <= ProgressAfter(p, t, s) <= 1.0
    ensures t.currentTime == t.originalSessionDuration ==> ProgressAfter(p, t, s) == 0.0
    ensures t.currentTime <= 0.0 && t.originalSessionDuration > 0.0 ==> ProgressAfter(p, t, s) == 1.0
  {
  }

  /** Confirming a reset does not refresh the timer text: it keeps showing the old time. */
  lemma ConfirmLeavesTimerText(d: Display, t: Timer, s: Settings, now: real)
    requires t.resetPending
    ensures DisplayAfterReset(d, t, s).timerText == d.timerText
    ensures DisplayAfterReset(d, t, s).playCaption == "Iniciar"
  {
  }

  /** A counting-down tick refreshes the timer text but not the buttons. */
  lemma CountdownKeepsButtons(d: Display, t: Timer, s: Settings, dt: real, now: real)
    requires t.isRunning && t.currentTime > 0.0 && !LatchExpired(t, now)
    ensures var r := DisplayAfterTick(d, t, s, dt, now);
      && r == d.(timerText := TimerText(t.currentTime - dt), progress := r.progress)
  {
  }

  /** From the start, a reset request changes nothing. */
  lemma ResetFromStartIsNoOp(s: Settings, now: real)
    ensures AfterReset(Initial(s), s, now) == Initial(s)
  {
  }

  /**
   * Reset, four seconds of ticking, reset again: the first confirmation has
   * expired, so the second request arms the latch again instead of resetting.
   */
  lemma LateSecondResetRearms(t: Timer, s: Settings, now: real)
    requires t.isRunning && !t.isBreakTime && !t.resetPending
    requires t.currentTime == 10.0 && t.originalSessionDuration == 1500.0
    ensures var armed := AfterReset(t, s, now);
      var later := AfterTick(armed, s, 4.0, now + 4.0);
      var again := AfterReset(later, s, now + 4.0);
      && armed.resetPending && !later.resetPending
      && again.resetPending && again.resetTime == now + 4.0
      && again.isRunning && again.currentTime == 6.0
  {
  }

  /** Two reset requests in a row, mid-session, return to the start. */
  lemma DoubleResetReturnsToStart(t: Timer, s: Settings, now: real)
    requires TimerValid(t, s) && !t.resetPending && t.currentTime == 30.0 && t.originalSessionDuration != 30.0
    ensures AfterReset(AfterReset(t, s, now), s, now) == Initial(s).(resetTime := now)
  {
  }

  // ---------------------------------------------------------------------
  // The controller object
  // ---------------------------------------------------------------------

  class SessionManager {
    const settings: Settings
    var currentTime: real
    var originalSessionDuration: real
    var isRunning: bool
    var isBreakTime: bool
    var sessionPhraseIndex: int
    var resetConfirmationPending: bool
    var resetConfirmationTime: real
    /** The widgets the controller writes. */
    var display: Display

    ghost function Model(): Timer
      reads this
    {
      Timer(currentTime, originalSessionDuration, isRunning, isBreakTime,
            sessionPhraseIndex, resetConfirmationPending, resetConfirmationTime)
    }

    ghost predicate Valid()
      reads this
    {
      TimerValid(Model(), settings)
    }

    /** `Start`; `resetCaption` is the reset button's text as placed in the scene. */
    constructor (s: Settings, resetCaption: string)
      ensures settings == s && Valid()
      ensures Model() == Initial(s)
      ensures display == DisplayAtStart(resetCaption, s)
    {
      settings := s;
      originalSessionDuration := s.sessionDuration;
      currentTime := s.sessionDuration;
      isRunning := false;
      isBreakTime := false;
      sessionPhraseIndex := 0;
      resetConfirmationPending := false;
      resetConfirmationTime := 0.0;
      display := Display("", InitialMessage, InstructionsMessage, "", false, resetCaption, false, 0.0);
      new;
      UpdateTimerDisplay();
      UpdateProgressBar();
      UpdateButtonStates();
    }

    method UpdateTimerDisplay()
      modifies this`display
      ensures display == ShowTimer(old(display), Model())
    {
      display := display.(timerText := TimerText(currentTime));
    }

    method UpdateProgressBar()
      modifies this`display
      ensures display == ShowProgress(old(display), Model(), settings)
    {
      if settings.hasProgressBar {
        var totalDuration := if isBreakTime then settings.breakDuration else originalSessionDuration;
        if totalDuration != 0.0 {
          display := display.(progress := Clamp01(1.0 - currentTime / totalDuration));
        }
      }
    }

    method UpdateButtonStates()
      modifies this`display
      ensures display == ShowButtons(old(display), Model())
    {
      var caption;
      if !isRunning && currentTime == originalSessionDuration {
        caption := "Iniciar";
      } else if isRunning {
        caption := "Pausar";
      } else {
        caption := "Continuar";
      }
      display := display.(playInteractable := true,
                          resetInteractable := currentTime != originalSessionDuration,
                          playCaption := caption);
    }

    /** `Update`, once per frame. */
    method Tick(dt: real, now: real)
      requires Valid()
      modifies this
      ensures Valid()
      ensures Model() == AfterTick(old(Model()), settings, dt, now)
      ensures display == DisplayAfterTick(old(display), old(Model()), settings, dt, now)
    {
      if isRunning && currentTime > 0.0 {
        currentTime := currentTime - dt;
        UpdateTimerDisplay();
        UpdateProgressBar();
      } else if isRunning && currentTime <= 0.0 {
        SessionComplete();
      }
      if resetConfirmationPending && now > resetConfirmationTime + ConfirmWindow {
        CancelResetConfirmation();
      }
    }

    method OnTextClicked()
      requires Valid()
      modifies this
      ensures Valid()
      ensures Model() == AfterTextClicked(old(Model()))
      ensures display == DisplayAfterTextClicked(old(display), old(Model()))
    {
      if isRunning && !isBreakTime {
        NextPhrase();
      }
    }

    method TogglePlayPause()
      requires Valid()
      modifies this
      ensures Valid()
      ensures Model() == AfterToggle(old(Model()))
      ensures display == DisplayAfterToggle(old(display), old(Model()))
    {
      if !isRunning && currentTime == originalSessionDuration {
        StartSession();
      } else {
        PauseResumeSession();
      }
      if resetConfirmationPending {
        CancelResetConfirmation();
      }
    }

    method StartSession()
      requires Valid()
      modifies this
      ensures Valid()
      ensures Model() == old(Model()).(isRunning := true, phraseIndex := 0)
      ensures display == ShowButtons(old(display).(phraseText := SessionPhrases[0],
                                                    instructionsText := RunningInstructions), Model())
    {
      isRunning := true;
      sessionPhraseIndex := 0;
      display := display.(phraseText := SessionPhrases[sessionPhraseIndex],
                          instructionsText := RunningInstructions);
      UpdateButtonStates();
    }

    method PauseResumeSession()
      requires Valid()
      modifies this
      ensures Valid()
      ensures Model() == old(Model()).(isRunning := !old(isRunning))
      ensures display == ShowButtons(old(display), Model())
    {
      isRunning := !isRunning;
      UpdateButtonStates();
    }

    method ResetSession(now: real)
      requires Valid()
      modifies this
      ensures Valid()
      ensures Model() == AfterReset(old(Model()), settings, now)
      ensures display == DisplayAfterReset(old(display), old(Model()), settings)
    {
      if resetConfirmationPending {
        ConfirmReset();
      } else {
        if currentTime != originalSessionDuration {
          StartResetConfirmation(now);
        }
      }
    }

    method StartResetConfirmation(now: real)
      requires Valid()
      modifies this
      ensures Valid()
      ensures Model() == old(Model()).(resetPending := true, resetTime := now)
      ensures display == old(display).(resetCaption := ConfirmLabel, instructionsText := ConfirmInstructions)
    {
      resetConfirmationPending := true;
      resetConfirmationTime := now;
      display := display.(resetCaption := ConfirmLabel, instructionsText := ConfirmInstructions);
    }

    method CancelResetConfirmation()
      requires Valid()
      modifies this
      ensures Valid()
      ensures Model() == old(Model()).(resetPending := false)
      ensures display == ShowCancelled(old(display), Model())
    {
      resetConfirmationPending := false;
      var instructions := if isRunning then RunningInstructions else InstructionsMessage;
      display := display.(resetCaption := ResetLabel, instructionsText := instructions);
    }

    /** Note that the timer text is not refreshed here. */
    method ConfirmReset()
      requires Valid()
      modifies this
      ensures Valid()
      ensures Model() == AfterConfirm(old(Model()), settings)
      ensures display == DisplayAfterConfirm(old(display), old(Model()), settings)
    {
      isRunning := false;
      isBreakTime := false;
      currentTime := settings.sessionDuration;
      originalSessionDuration := settings.sessionDuration;
      sessionPhraseIndex := 0;
      display := display.(phraseText := InitialMessage, instructionsText := InstructionsMessage);
      CancelResetConfirmation();
      UpdateButtonStates();
      UpdateProgressBar();
    }

    method SessionComplete()
      requires Valid()
      modifies this
      ensures Valid()
      ensures Model() == AfterComplete(old(Model()), settings)
      ensures display == DisplayAfterComplete(old(display), old(Model()), settings)
    {
      CancelResetConfirmation();
      if !isBreakTime {
        isBreakTime := true;
        currentTime := settings.breakDuration;
        originalSessionDuration := settings.breakDuration;
        display := display.(phraseText := StudyOverPhrase, instructionsText := BreakInstructions);
        isRunning := true;
      } else {
        isRunning := false;
        isBreakTime := false;
        currentTime := settings.sessionDuration;
        originalSessionDuration := settings.sessionDuration;
        display := display.(phraseText := BreakOverPhrase, instructionsText := InstructionsMessage);
      }
      UpdateTimerDisplay();
      UpdateButtonStates();
      UpdateProgressBar();
    }

    method NextPhrase()
      requires Valid()
      modifies this
      ensures Valid()
      ensures Model() == AfterNextPhrase(old(Model()))
      ensures display == old(display).(phraseText := SessionPhrases[sessionPhraseIndex])
    {
      sessionPhraseIndex := (sessionPhraseIndex + 1) % |SessionPhrases|;
      display := display.(phraseText := SessionPhrases[sessionPhraseIndex]);
    }
  }
}

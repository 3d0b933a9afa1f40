/**
 The focus-session state machine of the timer page: start, tick, pause,
 resume, reset, the guided-break scheduler, the PIN sheet that guards every
 way out of a running session, and the boot check on the stored
 configuration.

 Every transition is a pure function of the session record. The wall-clock
 reading `now` (the program's `Date.now()`) and the ISO date `stamp` written
 into a history entry are parameters; the repeating 200 ms timer is left to
 the caller, which applies `Tick` as often as it likes. This module models the
 page without the alert bridge (the program's fallback when the bridge is not
 loaded); the composition with the bridge is in `App`.
 */
module Timer {
  import opened Core
  import opened Clock
  import opened SessionConfig
  import opened Phone
  import Text
  import History

  /** `'focus'`, `'micro'` and `'stand'`. */
  datatype Phase = Focus | MicroBreak | StandBreak

  /** The pending actions `'end'`, `'pause'`, `'reset'`, `'nav_history'`, `'nav_setup'`. */
  datatype PinAction = EndSession | PauseSession | ResetSession | NavHistory | NavSetup

  /** Where the page sends the browser. */
  datatype Page = SetupPage | HistoryPage

  /** The page's state. `running` is "the 200 ms interval is set" (`timerId`),
      `sheetOpen` the PIN sheet, `unloadGuard` the leave-page warning,
      `completed` the completion prompt, `history` the stored history list and
      `navigation` the page the program last navigated to, if any. */
  datatype Session = Session(
    durationMs: int,
    remainingMs: int,
    endAt: Option<int>,
    running: bool,
    paused: bool,
    phase: Phase,
    nextMicroAt: Option<int>,
    nextStandAt: Option<int>,
    configured: bool,
    timeupHandled: bool,
    pending: Option<PinAction>,
    sheetOpen: bool,
    unloadGuard: bool,
    completed: bool,
    history: seq<History.Entry>,
    navigation: Option<Page>)

  /** The state the page loads with, over the stored history. */
  function Initial(history: seq<History.Entry>): (s: Session)
    ensures s.paused && !s.running && !s.configured && !s.timeupHandled
    ensures s.history == history && s.navigation.None?
  {
    Session(0, 0, None, false, true, Focus, None, None, false, false, None, false, false, false, history, None)
  }

  /** Time arithmetic reads a missing `endAt` as 0, as JavaScript reads `null`. */
  function EndAtNumber(s: Session): int {
    s.endAt.GetOr(0)
  }

  /** The state every reachable session is in: a running clock has a deadline,
      the interval runs only while not paused, and a session that was never
      started (or was reset) is paused. */
  predicate Wellformed(s: Session) {
    && (!s.paused ==> s.endAt.Some?)
    && (s.running ==> !s.paused)
    && (!s.configured ==> s.paused)
  }

  // ---------------------------------------------------------------------------
  // Break scheduling
  // ---------------------------------------------------------------------------

  /** The interval of the micro (head/eye-rest) break, in milliseconds. */
  function MicroInterval(cfg: Config): int {
    cfg.microEveryMin * MsPerMinute
  }

  /** The interval of the stand break, in milliseconds. */
  function StandInterval(cfg: Config): int {
    cfg.standEveryMin * MsPerMinute
  }

  /** `scheduleBreaks`: each trigger one interval from now, or absent when its
      interval is 0; each independently of the other. */
  function ScheduleBreaks(s: Session, cfg: Config, now: int): (r: Session)
    ensures r == s.(nextMicroAt := r.nextMicroAt, nextStandAt := r.nextStandAt)
    ensures r.nextMicroAt.Some? <==> cfg.microEveryMin != 0
    ensures r.nextStandAt.Some? <==> cfg.standEveryMin != 0
    ensures r.nextMicroAt.Some? ==> r.nextMicroAt.value - now == MicroInterval(cfg)
    ensures r.nextStandAt.Some? ==> r.nextStandAt.value - now == StandInterval(cfg)
  {
    s.(nextMicroAt := if cfg.microEveryMin != 0 then Some(now + MicroInterval(cfg)) else None,
       nextStandAt := if cfg.standEveryMin != 0 then Some(now + StandInterval(cfg)) else None)
  }

  /** A trigger takes part only when it is set and nonzero (`nextMicroAt && ...`). */
  predicate Armed(t: Option<int>) {
    t.Some? && t.value != 0
  }

  predicate MicroDue(s: Session, now: int) {
    Armed(s.nextMicroAt) && now >= s.nextMicroAt.value && s.phase == Focus
  }

  predicate StandDue(s: Session, now: int) {
    Armed(s.nextStandAt) && now >= s.nextStandAt.value && s.phase == Focus
  }

  /** Which break, if any, fires at `now`: none while paused, the micro break
      before the stand break, and only in the focus phase. */
  function DueBreak(s: Session, now: int): (r: Option<Kind>)
    ensures r.Some? ==> !s.paused && s.phase == Focus
    ensures r == Some(Headrest) <==> !s.paused && MicroDue(s, now)
    ensures r == Some(Stand) <==> !s.paused && !MicroDue(s, now) && StandDue(s, now)
    ensures r.None? || r == Some(Headrest) || r == Some(Stand)
  {
    if s.paused then None
    else if MicroDue(s, now) then Some(Headrest)
    else if StandDue(s, now) then Some(Stand)
    else None
  }

  /** `nextMicroAt += interval` (or the stand trigger for a stand break): the
      trigger moves on from its scheduled value, not from `now`. */
  function AdvanceTrigger(s: Session, cfg: Config, k: Kind): Session
  {
    if k == Headrest then s.(nextMicroAt := Some(s.nextMicroAt.GetOr(0) + MicroInterval(cfg)))
    else s.(nextStandAt := Some(s.nextStandAt.GetOr(0) + StandInterval(cfg)))
  }

  /** `beginGuidedBreak(type)`: head-rest and generic breaks enter the micro
      phase, a stand break the stand phase; any other kind changes nothing. */
  function BeginGuidedBreak(s: Session, k: Kind): (r: Session)
    ensures r == s.(phase := r.phase)
    ensures (k == Headrest || k == Break) ==> r.phase == MicroBreak
    ensures k == Stand ==> r.phase == StandBreak
    ensures (k == Timeup || k == OtherKind) ==> r == s
  {
    match k
    case Headrest => s.(phase := MicroBreak)
    case Stand => s.(phase := StandBreak)
    case Break => s.(phase := MicroBreak)
    case _ => s
  }

  /** `maybeTriggerBreak` when the alert bridge is absent: a due break pauses the
      session, begins the guided break and moves its trigger one interval on. */
  function MaybeTriggerBreak(s: Session, cfg: Config, now: int): (r: Session)
    ensures DueBreak(s, now).None? ==> r == s
    ensures r.pending == s.pending && r.sheetOpen == s.sheetOpen && r.navigation == s.navigation
    ensures r.unloadGuard == s.unloadGuard && r.completed == s.completed
    ensures r.nextMicroAt == s.nextMicroAt || r.nextStandAt == s.nextStandAt
    ensures r.history == s.history && r.durationMs == s.durationMs && r.timeupHandled == s.timeupHandled
    ensures r.configured == s.configured && r.endAt == s.endAt
    ensures r.remainingMs == s.remainingMs || (!s.paused && r.remainingMs == Max(0, EndAtNumber(s) - now))
    ensures !s.paused && MicroDue(s, now) ==>
      && r.nextMicroAt == Some(s.nextMicroAt.value + MicroInterval(cfg))
      && r.nextStandAt == s.nextStandAt
      && r.paused && !r.running && r.phase == MicroBreak
      && r.remainingMs == Max(0, EndAtNumber(s) - now)
    ensures !s.paused && !MicroDue(s, now) && StandDue(s, now) ==>
      && r.nextStandAt == Some(s.nextStandAt.value + StandInterval(cfg))
      && r.nextMicroAt == s.nextMicroAt
      && r.paused && !r.running && r.phase == StandBreak
      && r.remainingMs == Max(0, EndAtNumber(s) - now)
  {
    match DueBreak(s, now)
    case None => s
    case Some(k) => AdvanceTrigger(BeginGuidedBreak(Pause(s, now), k), cfg, k)
  }

  // ---------------------------------------------------------------------------
  // The timer loop
  // ---------------------------------------------------------------------------

  /** The entry the completion block appends. */
  function CompletedEntry(durationMs: int, cfg: Config, stamp: string): (e: History.Entry)
    ensures e.outcome == "Completed" && e.sessionLabel == Some("Focus")
    ensures e.minutes * MsPerMinute - 30000 <= durationMs < e.minutes * MsPerMinute + 30000
    ensures e.date == stamp && e.description == Some(cfg.description)
  {
    History.Entry(stamp, RoundMinutes(durationMs), "Completed", Some("Focus"), Some(cfg.description))
  }

  /** The completion block of `tick`: the first time the clock reads zero the
      interval stops, the sheet and the leave-page warning go, the completion
      entry is stored and the completion prompt shows. */
  function Complete(s: Session, cfg: Config, stamp: string): (r: Session)
    ensures s.timeupHandled || s.remainingMs > 0 ==> r == s
    ensures !s.timeupHandled && s.remainingMs <= 0 ==>
      && r.timeupHandled && !r.running && !r.sheetOpen && !r.unloadGuard && r.completed
      && r.history == History.Add(s.history, CompletedEntry(s.durationMs, cfg, stamp))
      && r.remainingMs == s.remainingMs && r.paused == s.paused && r.phase == s.phase
      && r.nextMicroAt == s.nextMicroAt && r.nextStandAt == s.nextStandAt
  {
    if s.remainingMs <= 0 && !s.timeupHandled then
      s.(timeupHandled := true, running := false, sheetOpen := false, unloadGuard := false, completed := true,
         history := History.Add(s.history, CompletedEntry(s.durationMs, cfg, stamp)))
    else s
  }

  /** `tick`: recompute the time left from the deadline, fire a due break, and
      run the completion block once the time is up. */
  function Tick(s: Session, cfg: Config, now: int, stamp: string): (r: Session)
    ensures r.remainingMs >= 0
    ensures (s.paused || s.endAt.Some?) ==> r.remainingMs == Max(0, s.endAt.GetOr(now) - now)
    ensures r.durationMs == s.durationMs && r.configured == s.configured
    ensures r.timeupHandled <==> s.timeupHandled || r.remainingMs == 0
    ensures s.timeupHandled || r.remainingMs > 0 ==> r.history == s.history
    ensures !s.timeupHandled && r.remainingMs == 0 ==>
      && r.history == History.Add(s.history, CompletedEntry(s.durationMs, cfg, stamp))
      && !r.running && r.completed
  {
    var s1 := s.(remainingMs := Max(0, s.endAt.GetOr(now) - now));
    var s2 := MaybeTriggerBreak(s1, cfg, now);
    assert s2.remainingMs >= 0;
    assert (s.paused || s.endAt.Some?) ==> s2.remainingMs == s1.remainingMs;
    Complete(s2, cfg, stamp)
  }

  // ---------------------------------------------------------------------------
  // Session control
  // ---------------------------------------------------------------------------

  /** `startSession`: the full duration from now, focus phase, breaks scheduled.
      `timeupHandled` is left as it was. */
  function Start(s: Session, cfg: Config, now: int): (r: Session)
    ensures r.configured && !r.paused && r.running && r.phase == Focus && r.unloadGuard
    ensures r.remainingMs == s.durationMs && r.endAt == Some(now + s.durationMs)
    ensures r.nextMicroAt == ScheduleBreaks(s, cfg, now).nextMicroAt
    ensures r.nextStandAt == ScheduleBreaks(s, cfg, now).nextStandAt
    ensures r.history == s.history && r.timeupHandled == s.timeupHandled && r.durationMs == s.durationMs
  {
    var r := s.(remainingMs := s.durationMs, endAt := Some(now + s.durationMs), paused := false,
                phase := Focus, configured := true, unloadGuard := true, running := true);
    ScheduleBreaks(r, cfg, now)
  }

  /** `pauseSession`: nothing when already paused; otherwise stop the interval
      and freeze the time left at the deadline minus now (never negative). */
  function Pause(s: Session, now: int): (r: Session)
    ensures s.paused ==> r == s
    ensures !s.paused ==> r.paused && !r.running && r.remainingMs == Max(0, EndAtNumber(s) - now)
    ensures r == s.(paused := r.paused, running := r.running, remainingMs := r.remainingMs)
  {
    if s.paused then s
    else s.(paused := true, running := false, remainingMs := Max(0, EndAtNumber(s) - now))
  }

  /** `resumeSession`: only a configured, paused session resumes, with a new
      deadline the frozen time left from now. The phase is not touched. */
  function Resume(s: Session, now: int): (r: Session)
    ensures !(s.configured && s.paused) ==> r == s
    ensures s.configured && s.paused ==> !r.paused && r.running && r.endAt == Some(now + s.remainingMs)
    ensures r == s.(paused := r.paused, running := r.running, endAt := r.endAt)
  {
    if !s.configured || !s.paused then s
    else s.(paused := false, endAt := Some(now + s.remainingMs), running := true)
  }

  /** `resetSession`: drop the session without recording it and go to setup.
      The pending action is not cleared. */
  function Reset(s: Session): (r: Session)
    ensures !r.configured && r.paused && !r.running && r.endAt.None? && r.remainingMs == 0 && r.phase == Focus
    ensures !r.sheetOpen && !r.unloadGuard && r.navigation == Some(SetupPage)
    ensures r.history == s.history && r.pending == s.pending && r.timeupHandled == s.timeupHandled
    ensures r.nextMicroAt == s.nextMicroAt && r.nextStandAt == s.nextStandAt
  {
    s.(running := false, paused := true, endAt := None, remainingMs := 0, configured := false, phase := Focus,
       sheetOpen := false, unloadGuard := false, navigation := Some(SetupPage))
  }

  /** The minutes `endAndNavigate` records: the duration less the time to the
      deadline, rounded. The deadline is read even while paused. */
  function ElapsedMinutes(s: Session, now: int): (m: int)
    ensures var elapsed := s.durationMs - Max(0, EndAtNumber(s) - now);
      m * MsPerMinute - 30000 <= elapsed < m * MsPerMinute + 30000
  {
    RoundMinutes(s.durationMs - Max(0, EndAtNumber(s) - now))
  }

  /** The entry `endAndNavigate` appends; an empty outcome falls back to `'Ended via PIN'`. */
  function EndEntry(s: Session, cfg: Config, now: int, stamp: string, outcome: string): (e: History.Entry)
    ensures e.minutes == ElapsedMinutes(s, now)
    ensures e.sessionLabel == Some("Focus") <==> s.phase == Focus
    ensures e.sessionLabel == Some("Focus") || e.sessionLabel == Some("Break")
    ensures outcome != "" ==> e.outcome == outcome
    ensures outcome == "" ==> e.outcome == "Ended via PIN"
    ensures e.date == stamp && e.description == Some(cfg.description)
  {
    History.Entry(stamp, ElapsedMinutes(s, now), if outcome == "" then "Ended via PIN" else outcome,
                  Some(if s.phase == Focus then "Focus" else "Break"), Some(cfg.description))
  }

  /** `endAndNavigate`: record the session as ended, stop everything and leave. */
  function EndAndNavigate(s: Session, cfg: Config, now: int, stamp: string, page: Page, outcome: string): (r: Session)
    ensures r.history == History.Add(s.history, EndEntry(s, cfg, now, stamp, outcome))
    ensures !r.running && !r.sheetOpen && !r.unloadGuard && r.navigation == Some(page)
    ensures r.phase == s.phase && r.paused == s.paused && r.endAt == s.endAt && r.configured == s.configured
    ensures r.nextMicroAt == s.nextMicroAt && r.nextStandAt == s.nextStandAt && r.timeupHandled == s.timeupHandled
  {
    s.(history := History.Add(s.history, EndEntry(s, cfg, now, stamp, outcome)),
       running := false, unloadGuard := false, sheetOpen := false, navigation := Some(page))
  }

  // ---------------------------------------------------------------------------
  // The PIN sheet
  // ---------------------------------------------------------------------------

  /** `openSheet(action)`: remember the action and show the sheet. */
  function OpenSheet(s: Session, action: Option<PinAction>): (r: Session)
    ensures r.sheetOpen && r.pending == action
    ensures r == s.(sheetOpen := true, pending := action)
  {
    s.(pending := action, sheetOpen := true)
  }

  /** `closeSheet`: hide the sheet and forget the pending action. */
  function CloseSheet(s: Session): (r: Session)
    ensures !r.sheetOpen && r.pending.None?
    ensures r == s.(sheetOpen := false, pending := None)
  {
    s.(sheetOpen := false, pending := None)
  }

  /** The submit handler: a wrong PIN changes nothing; the right one carries out
      the pending action. Either way the break triggers and the completion flag
      are left alone, and a well-formed session stays well formed. */
  function SubmitPin(s: Session, cfg: Config, entered: string, now: int, stamp: string): (r: Session)
    ensures r.nextMicroAt == s.nextMicroAt && r.nextStandAt == s.nextStandAt && r.timeupHandled == s.timeupHandled
    ensures s.phase == Focus ==> r.phase == Focus
    ensures Wellformed(s) ==> Wellformed(r)
  {
    if entered != cfg.pin then s
    else match s.pending
      case Some(EndSession) => EndAndNavigate(s, cfg, now, stamp, SetupPage, "Ended via PIN")
      case Some(PauseSession) => CloseSheet(Pause(s, now))
      case Some(ResetSession) => Reset(s)
      case Some(NavHistory) => EndAndNavigate(s, cfg, now, stamp, HistoryPage, "Ended to view history")
      case Some(NavSetup) => EndAndNavigate(s, cfg, now, stamp, SetupPage, "Ended to go to setup")
      case None => CloseSheet(s)
  }

  /** The buttons and header links of the page. */
  datatype Control = PauseResumeButton | EndEarlyButton | ResetButton | EmergencyButton | HistoryLink | SetupLink

  /** A click on a control. Apart from resuming a paused session, each either
      does nothing, navigates away from a page with no session, or opens the
      PIN sheet for its action. No click touches the phase, the break triggers
      or the completion flag, and a well-formed session stays well formed. */
  function Press(s: Session, c: Control, now: int): (r: Session)
    ensures r.phase == s.phase && r.nextMicroAt == s.nextMicroAt && r.nextStandAt == s.nextStandAt
    ensures r.timeupHandled == s.timeupHandled
    ensures Wellformed(s) ==> Wellformed(r)
  {
    match c
    case PauseResumeButton =>
      if !s.configured then s else if s.paused then Resume(s, now) else OpenSheet(s, Some(PauseSession))
    case EndEarlyButton => if !s.configured then s else OpenSheet(s, Some(EndSession))
    case ResetButton => OpenSheet(s, Some(ResetSession))
    case EmergencyButton => OpenSheet(s, None)
    case HistoryLink => if !s.configured then s.(navigation := Some(HistoryPage)) else OpenSheet(s, Some(NavHistory))
    case SetupLink => if !s.configured then s.(navigation := Some(SetupPage)) else OpenSheet(s, Some(NavSetup))
  }

  /** `setEmergencyLinks`: a `tel:` link per number that passes `phoneOk`, or the
      single fallback `tel:911` when none does. */
  function EmergencyLinks(emergency: seq<string>): (r: seq<string>)
    ensures |r| >= 1
    ensures |FilterPhones(emergency)| == 0 ==> r == ["tel:911"]
    ensures |FilterPhones(emergency)| > 0 ==>
      |r| == |FilterPhones(emergency)| && forall i :: 0 <= i < |r| ==> r[i] == TelHref(FilterPhones(emergency)[i])
  {
    var ok := FilterPhones(emergency);
    if |ok| == 0 then ["tel:911"] else TelLinks(ok)
  }

  function TelLinks(list: seq<string>): (r: seq<string>)
    ensures |r| == |list|
    ensures forall i :: 0 <= i < |list| ==> r[i] == TelHref(list[i])
  {
    if |list| == 0 then [] else [TelHref(list[0])] + TelLinks(list[1..])
  }

  // ---------------------------------------------------------------------------
  // Boot
  // ---------------------------------------------------------------------------

  /** The boot check: a nonzero duration, a PIN and at least one emergency number. */
  predicate BootAccepts(cfg: Config) {
    cfg.durationMs != 0 && |cfg.pin| > 0 && |cfg.emergency| > 0
  }

  /** `boot`: with no stored configuration, or one the check refuses, go back to
      setup; otherwise start the session at once. */
  function Boot(stored: Option<Config>, history: seq<History.Entry>, now: int): (r: Session)
    ensures r.history == history && !r.timeupHandled
    ensures r.configured <==> stored.Some? && BootAccepts(stored.value)
    ensures r.configured ==>
      && r.running && !r.paused && r.phase == Focus && r.durationMs == stored.value.durationMs
      && r.remainingMs == stored.value.durationMs && r.endAt == Some(now + stored.value.durationMs)
      && r.navigation.None?
    ensures !r.configured ==> r.navigation == Some(SetupPage) && r.paused && !r.running
  {
    var s := Initial(history);
    match stored
    case None => s.(navigation := Some(SetupPage))
    case Some(cfg) =>
      var s1 := s.(durationMs := cfg.durationMs);
      if !BootAccepts(cfg) then s1.(navigation := Some(SetupPage)) else Start(s1, cfg, now)
  }

  // ---------------------------------------------------------------------------
  // Properties of single transitions
  // ---------------------------------------------------------------------------

  /** After a start at `now` the micro break is due exactly from one interval
      later on; a zero interval never fires. */
  lemma FirstMicroBreakAfterOneInterval(s: Session, cfg: Config, now: int, t: int)
    requires now >= 0
    ensures cfg.microEveryMin > 0 ==> (DueBreak(Start(s, cfg, now), t) == Some(Headrest) <==> t >= now + MicroInterval(cfg))
    ensures cfg.microEveryMin == 0 ==> DueBreak(Start(s, cfg, now), t) != Some(Headrest)
  {
  }

  /** The stand trigger does not depend on the micro interval, nor the micro
      trigger on the stand interval. */
  lemma TriggersIndependent(s: Session, cfg: Config, now: int, x: int)
    ensures ScheduleBreaks(s, cfg.(microEveryMin := x), now).nextStandAt == ScheduleBreaks(s, cfg, now).nextStandAt
    ensures ScheduleBreaks(s, cfg.(standEveryMin := x), now).nextMicroAt == ScheduleBreaks(s, cfg, now).nextMicroAt
  {
  }

  /** The stand-break length is carried in the configuration but never read by
      the timer: starting and ticking behave the same whatever its value. */
  lemma StandLengthUnused(s: Session, cfg: Config, now: int, stamp: string, x: int)
    ensures Start(s, cfg.(standLenMin := x), now) == Start(s, cfg, now)
    ensures Tick(s, cfg.(standLenMin := x), now, stamp) == Tick(s, cfg, now, stamp)
  {
    var c2 := cfg.(standLenMin := x);
    SameTimingStart(s, cfg, c2, now);
    var s1 := s.(remainingMs := Max(0, s.endAt.GetOr(now) - now));
    SameTimingTrigger(s1, cfg, c2, now);
    SameTimingComplete(MaybeTriggerBreak(s1, cfg, now), cfg, c2, stamp);
  }

  /** Two configurations the timer cannot tell apart once started. */
  predicate SameTiming(c1: Config, c2: Config) {
    c1.microEveryMin == c2.microEveryMin && c1.standEveryMin == c2.standEveryMin && c1.description == c2.description
  }

  lemma SameTimingStart(s: Session, c1: Config, c2: Config, now: int)
    requires SameTiming(c1, c2)
    ensures Start(s, c1, now) == Start(s, c2, now)
  {
    assert MicroInterval(c1) == MicroInterval(c2) && StandInterval(c1) == StandInterval(c2);
  }

  lemma SameTimingTrigger(s: Session, c1: Config, c2: Config, now: int)
    requires SameTiming(c1, c2)
    ensures MaybeTriggerBreak(s, c1, now) == MaybeTriggerBreak(s, c2, now)
  {
    match DueBreak(s, now)
    case None =>
    case Some(k) =>
      var p := BeginGuidedBreak(Pause(s, now), k);
      assert MicroInterval(c1) == MicroInterval(c2) && StandInterval(c1) == StandInterval(c2);
      assert AdvanceTrigger(p, c1, k) == AdvanceTrigger(p, c2, k);
  }

  lemma SameTimingComplete(s: Session, c1: Config, c2: Config, stamp: string)
    requires SameTiming(c1, c2)
    ensures Complete(s, c1, stamp) == Complete(s, c2, stamp)
  {
    assert CompletedEntry(s.durationMs, c1, stamp) == CompletedEntry(s.durationMs, c2, stamp);
  }

  /** Pausing twice is pausing once, and so is resuming. */
  lemma PauseResumeIdempotent(s: Session, t1: int, t2: int)
    ensures Pause(Pause(s, t1), t2) == Pause(s, t1)
    ensures Resume(Resume(s, t1), t2) == Resume(s, t1)
  {
  }

  /** A pause at `t1` and a resume at `t2` move the deadline to `t2` plus the
      time that was left at `t1`; the phase and the break triggers stay. */
  lemma PauseThenResume(s: Session, t1: int, t2: int)
    requires s.configured && !s.paused
    ensures var r := Resume(Pause(s, t1), t2);
      && r.endAt == Some(t2 + Max(0, EndAtNumber(s) - t1))
      && !r.paused && r.running && r.phase == s.phase
      && r.nextMicroAt == s.nextMicroAt && r.nextStandAt == s.nextStandAt
  {
  }

  /** The phase leaves focus only through a guided break: pausing, resuming,
      completing, the controls and the PIN sheet never set a break phase, and
      starting or resetting always returns to focus. Resuming never returns to
      focus, so a session resumed after a guided break stays in its break phase. */
  lemma PhaseChanges(s: Session, cfg: Config, now: int, stamp: string, c: Control, pin: string)
    ensures Start(s, cfg, now).phase == Focus && Reset(s).phase == Focus
    ensures Pause(s, now).phase == s.phase && Resume(s, now).phase == s.phase
    ensures Complete(s, cfg, stamp).phase == s.phase && Press(s, c, now).phase == s.phase
    ensures s.phase == Focus ==> SubmitPin(s, cfg, pin, now, stamp).phase == Focus
    ensures s.phase != Focus ==> MaybeTriggerBreak(s, cfg, now) == s
  {
    StartResetFocus(s, cfg, now);
    PauseResumeKeepPhase(s, now);
    CompleteKeepsPhase(s, cfg, stamp);
    NoTriggerOutsideFocus(s, cfg, now);
  }

  lemma StartResetFocus(s: Session, cfg: Config, now: int)
    ensures Start(s, cfg, now).phase == Focus && Reset(s).phase == Focus
  {
  }

  lemma PauseResumeKeepPhase(s: Session, now: int)
    ensures Pause(s, now).phase == s.phase && Resume(s, now).phase == s.phase
  {
  }

  lemma CompleteKeepsPhase(s: Session, cfg: Config, stamp: string)
    ensures Complete(s, cfg, stamp).phase == s.phase
  {
  }

  lemma NoTriggerOutsideFocus(s: Session, cfg: Config, now: int)
    ensures s.phase != Focus ==> MaybeTriggerBreak(s, cfg, now) == s
  {
    if s.phase != Focus {
      assert DueBreak(s, now).None?;
    }
  }

  /** When the session is paused and then ended, the recorded minutes count the
      time spent paused as focus time, because the deadline is not moved while
      paused: focused time plus paused time, rounded. */
  lemma EndWhilePausedCountsPause(s0: Session, cfg: Config, t1: int, now: int, stamp: string, outcome: string)
    requires !s0.paused && s0.endAt.Some? && t1 <= now <= s0.endAt.value
    ensures var s := Pause(s0, t1);
      EndEntry(s, cfg, now, stamp, outcome).minutes == RoundMinutes((s.durationMs - s.remainingMs) + (now - t1))
  {
  }

  /** A concrete instance: a 25-minute session paused the moment it started and
      ended by PIN ten minutes later records 10 minutes, not 0. */
  lemma EndWhilePausedExample(cfg: Config, stamp: string)
    ensures var s0 := Start(Initial([]).(durationMs := 25 * MsPerMinute), cfg, 0);
      var s := Pause(s0, 0);
      s.remainingMs == s.durationMs
      && EndEntry(s, cfg, 10 * MsPerMinute, stamp, "Ended via PIN").minutes == 10
  {
    RoundMinutesWhole(10);
  }

  /** A wrong PIN changes nothing, the pending action included. */
  lemma WrongPinChangesNothing(s: Session, cfg: Config, entered: string, now: int, stamp: string)
    requires entered != cfg.pin
    ensures SubmitPin(s, cfg, entered, now, stamp) == s
  {
  }

  /** The right PIN carries out exactly the pending action: the three ways out
      record the session under their own outcome and navigate, pause pauses and
      closes, reset records nothing, and no action only closes the sheet. */
  lemma CorrectPinDispatch(s: Session, cfg: Config, now: int, stamp: string)
    ensures var r := SubmitPin(s, cfg, cfg.pin, now, stamp);
      && (s.pending == Some(EndSession) ==>
            r.history == History.Add(s.history, EndEntry(s, cfg, now, stamp, "Ended via PIN")) && r.navigation == Some(SetupPage))
      && (s.pending == Some(NavHistory) ==>
            r.history == History.Add(s.history, EndEntry(s, cfg, now, stamp, "Ended to view history")) && r.navigation == Some(HistoryPage))
      && (s.pending == Some(NavSetup) ==>
            r.history == History.Add(s.history, EndEntry(s, cfg, now, stamp, "Ended to go to setup")) && r.navigation == Some(SetupPage))
      && (s.pending == Some(PauseSession) ==> r == CloseSheet(Pause(s, now)))
      && (s.pending == Some(ResetSession) ==> r == Reset(s) && r.history == s.history && !r.configured)
      && (s.pending.None? ==> r == CloseSheet(s))
  {
  }

  /** The action a control asks the PIN for, on a configured session. */
  function ActionOf(c: Control): Option<PinAction> {
    match c
    case PauseResumeButton => Some(PauseSession)
    case EndEarlyButton => Some(EndSession)
    case ResetButton => Some(ResetSession)
    case EmergencyButton => None
    case HistoryLink => Some(NavHistory)
    case SetupLink => Some(NavSetup)
  }

  /** On a configured session no control ends, resets, pauses or leaves it:
      apart from resuming a paused session, a click only opens the PIN sheet
      for the control's action. */
  lemma ControlsNeedPin(s: Session, c: Control, now: int)
    requires s.configured
    ensures var r := Press(s, c, now);
      && r.history == s.history && r.navigation == s.navigation && r.configured
      && (c == PauseResumeButton && s.paused ==> r == Resume(s, now))
      && (c != PauseResumeButton || !s.paused ==> r == OpenSheet(s, ActionOf(c)))
  {
  }

  /** Without a session the two header links navigate at once, the reset and
      emergency buttons open the sheet, and the other buttons do nothing. */
  lemma ControlsWithoutSession(s: Session, c: Control, now: int)
    requires !s.configured
    ensures c == HistoryLink ==> Press(s, c, now).navigation == Some(HistoryPage)
    ensures c == SetupLink ==> Press(s, c, now).navigation == Some(SetupPage)
    ensures c == PauseResumeButton || c == EndEarlyButton ==> Press(s, c, now) == s
    ensures c == ResetButton || c == EmergencyButton ==> Press(s, c, now) == OpenSheet(s, ActionOf(c))
  {
  }

  /** Every emergency link dials: it is `tel:` followed by at least three
      characters and no white space. */
  lemma EmergencyLinksDial(emergency: seq<string>)
    ensures forall i :: 0 <= i < |EmergencyLinks(emergency)| ==>
      var r := EmergencyLinks(emergency)[i];
      |r| >= 7 && r[..4] == "tel:" && Text.NoSpace(r[4..])
  {
    var ok := FilterPhones(emergency);
    var links := EmergencyLinks(emergency);
    if |ok| == 0 {
      assert links[0][4..] == "911";
    } else {
      forall i | 0 <= i < |links|
        ensures |links[i]| >= 7
      {
        assert links[i] == TelHref(ok[i]);
        assert PhoneOk(ok[i]);
        assert links[i][4..] == Text.StripSpaces(ok[i]);
      }
    }
  }

  /** A started or booted session is well formed. */
  lemma StartWellformed(s: Session, cfg: Config, now: int, stored: Option<Config>, history: seq<History.Entry>)
    ensures Wellformed(Start(s, cfg, now))
    ensures Wellformed(Boot(stored, history, now))
    ensures Wellformed(Initial(history))
  {
  }
}

/**
 Runs of the timer page: any sequence of ticks, pauses, resumes, guided
 breaks, clicks and PIN entries applied to a session. The properties here are
 about every such run, not one step: the session stays well formed, the
 completion entry is recorded at most once, break triggers stay on the grid
 laid down at start, and a guided break is never followed by another one
 until the session is reset.
 */
module SessionRuns {
  import opened Core
  import opened SessionConfig
  import opened Timer
  import History

  /** One thing that can happen to the page. */
  datatype Event =
    | TickAt(now: int, stamp: string)
    | PauseAt(now: int)
    | ResumeAt(now: int)
    | GuidedBreak(kind: Kind)
    | Click(control: Control, now: int)
    | CancelSheet
    | EnterPin(entered: string, now: int, stamp: string)

  function Step(s: Session, cfg: Config, e: Event): Session {
    match e
    case TickAt(now, stamp) => Tick(s, cfg, now, stamp)
    case PauseAt(now) => Pause(s, now)
    case ResumeAt(now) => Resume(s, now)
    case GuidedBreak(k) => BeginGuidedBreak(s, k)
    case Click(c, now) => Press(s, c, now)
    case CancelSheet => CloseSheet(s)
    case EnterPin(entered, now, stamp) => SubmitPin(s, cfg, entered, now, stamp)
  }

  function Run(s: Session, cfg: Config, events: seq<Event>): Session
    decreases |events|
  {
    if |events| == 0 then s else Run(Step(s, cfg, events[0]), cfg, events[1..])
  }

  // ---------------------------------------------------------------------------
  // What each transition leaves alone
  // ---------------------------------------------------------------------------

  /** A tick keeps a session well formed; outside the focus phase it fires no
      break, and otherwise it moves the micro trigger by at most one interval. */
  lemma TickFrame(s: Session, cfg: Config, now: int, stamp: string)
    ensures var r := Tick(s, cfg, now, stamp);
      && (Wellformed(s) ==> Wellformed(r))
      && (s.phase != Focus ==> r.phase == s.phase && r.nextMicroAt == s.nextMicroAt && r.nextStandAt == s.nextStandAt)
      && (r.nextMicroAt == s.nextMicroAt
          || (s.nextMicroAt.Some? && r.nextMicroAt == Some(s.nextMicroAt.value + MicroInterval(cfg))))
  {
    var s1 := s.(remainingMs := Max(0, s.endAt.GetOr(now) - now));
    var s2 := MaybeTriggerBreak(s1, cfg, now);
    if s.phase != Focus {
      assert DueBreak(s1, now).None?;
    }
    if Wellformed(s) {
      assert Wellformed(s1);
      assert Wellformed(s2);
    }
  }

  /** Every step keeps a session well formed. */
  lemma StepKeepsWellformed(s: Session, cfg: Config, e: Event)
    requires Wellformed(s)
    ensures Wellformed(Step(s, cfg, e))
  {
    match e
    case TickAt(now, stamp) => TickFrame(s, cfg, now, stamp);
    case _ =>
  }

  /** Every run keeps a session well formed. */
  lemma {:induction false} RunKeepsWellformed(s: Session, cfg: Config, events: seq<Event>)
    requires Wellformed(s)
    ensures Wellformed(Run(s, cfg, events))
    decreases |events|
  {
    if |events| > 0 {
      StepKeepsWellformed(s, cfg, events[0]);
      RunKeepsWellformed(Step(s, cfg, events[0]), cfg, events[1..]);
    }
  }

  // ---------------------------------------------------------------------------
  // Completion happens once
  // ---------------------------------------------------------------------------

  /** The step runs the completion block. */
  predicate Completes(s: Session, cfg: Config, e: Event) {
    !s.timeupHandled && Step(s, cfg, e).timeupHandled
  }

  /** How many steps of a run run the completion block. */
  function Completions(s: Session, cfg: Config, events: seq<Event>): nat
    decreases |events|
  {
    if |events| == 0 then 0
    else (if Completes(s, cfg, events[0]) then 1 else 0) + Completions(Step(s, cfg, events[0]), cfg, events[1..])
  }

  /** Once set, `timeupHandled` stays set, and only a tick sets it. */
  lemma StepTimeupMonotone(s: Session, cfg: Config, e: Event)
    ensures s.timeupHandled ==> Step(s, cfg, e).timeupHandled
    ensures Completes(s, cfg, e) ==> e.TickAt?
  {
    match e
    case _ =>
  }

  /** Over any run the completion block runs at most once, and never when it
      had already run before the run began. */
  lemma {:induction false} CompletionAtMostOnce(s: Session, cfg: Config, events: seq<Event>)
    ensures Completions(s, cfg, events) <= (if s.timeupHandled then 0 else 1)
    decreases |events|
  {
    if |events| > 0 {
      var s1 := Step(s, cfg, events[0]);
      StepTimeupMonotone(s, cfg, events[0]);
      CompletionAtMostOnce(s1, cfg, events[1..]);
    }
  }

  /** The history a run of ticks leaves: either what it started with, or that
      list with one completion entry appended. */
  function Ticks(s: Session, cfg: Config, times: seq<(int, string)>): Session
    decreases |times|
  {
    if |times| == 0 then s else Ticks(Tick(s, cfg, times[0].0, times[0].1), cfg, times[1..])
  }

  lemma {:induction false} TicksAfterTimeupRecordNothing(s: Session, cfg: Config, times: seq<(int, string)>)
    requires s.timeupHandled
    ensures Ticks(s, cfg, times).history == s.history
    decreases |times|
  {
    if |times| > 0 {
      TicksAfterTimeupRecordNothing(Tick(s, cfg, times[0].0, times[0].1), cfg, times[1..]);
    }
  }

  /** However many ticks follow one another, at most one `Completed` entry is
      stored, and it carries the session's duration rounded to minutes. */
  lemma {:induction false} TicksRecordOneCompletion(s: Session, cfg: Config, times: seq<(int, string)>)
    ensures var h := Ticks(s, cfg, times).history;
      h == s.history || exists stamp :: h == History.Add(s.history, CompletedEntry(s.durationMs, cfg, stamp))
    decreases |times|
  {
    if |times| > 0 {
      var s1 := Tick(s, cfg, times[0].0, times[0].1);
      if s.timeupHandled || s1.remainingMs > 0 {
        assert s1.history == s.history;
        TicksRecordOneCompletion(s1, cfg, times[1..]);
      } else {
        TicksAfterTimeupRecordNothing(s1, cfg, times[1..]);
        assert Ticks(s, cfg, times).history == History.Add(s.history, CompletedEntry(s.durationMs, cfg, times[0].1));
      }
    }
  }

  // ---------------------------------------------------------------------------
  // Break triggers
  // ---------------------------------------------------------------------------

  /** Each step leaves the micro trigger where it was or moves it exactly one
      interval on from its scheduled value. */
  lemma StepMovesMicroByInterval(s: Session, cfg: Config, e: Event)
    ensures var r := Step(s, cfg, e);
      r.nextMicroAt == s.nextMicroAt
      || (s.nextMicroAt.Some? && r.nextMicroAt == Some(s.nextMicroAt.value + MicroInterval(cfg)))
  {
    match e
    case TickAt(now, stamp) => TickFrame(s, cfg, now, stamp);
    case _ =>
  }

  /** Drift-free scheduling: a micro trigger laid down at `origin + k` intervals
      is, after any run, at `origin + j` intervals for some `j >= k`. With
      `origin` the start time and `k = 1`, the `j`-th micro break is due at
      exactly `j` intervals after the start, however late the ticks came. */
  lemma {:induction false} MicroTriggerOnGrid(s: Session, cfg: Config, events: seq<Event>, origin: int, k: nat)
    returns (j: nat)
    requires s.nextMicroAt == Some(origin + k * MicroInterval(cfg))
    ensures j >= k
    ensures Run(s, cfg, events).nextMicroAt == Some(origin + j * MicroInterval(cfg))
    decreases |events|
  {
    if |events| == 0 {
      j := k;
    } else {
      var s1 := Step(s, cfg, events[0]);
      StepMovesMicroByInterval(s, cfg, events[0]);
      if s1.nextMicroAt == s.nextMicroAt {
        j := MicroTriggerOnGrid(s1, cfg, events[1..], origin, k);
      } else {
        assert (k + 1) * MicroInterval(cfg) == k * MicroInterval(cfg) + MicroInterval(cfg);
        j := MicroTriggerOnGrid(s1, cfg, events[1..], origin, k + 1);
      }
    }
  }

  // ---------------------------------------------------------------------------
  // After a guided break
  // ---------------------------------------------------------------------------

  /** One step outside the focus phase, other than a PIN entry, stays outside
      it and leaves both triggers alone. */
  lemma StepInBreakPhase(s: Session, cfg: Config, e: Event)
    requires s.phase != Focus && !e.EnterPin?
    ensures var r := Step(s, cfg, e);
      r.phase != Focus && r.nextMicroAt == s.nextMicroAt && r.nextStandAt == s.nextStandAt
  {
    match e
    case TickAt(now, stamp) => TickFrame(s, cfg, now, stamp);
    case _ =>
  }

  /** Once a guided break has begun, no event short of the PIN sheet brings the
      session back to the focus phase, so no further break fires and neither
      trigger moves; resuming after the break does not help. */
  lemma {:induction false} BreakPhaseSticks(s: Session, cfg: Config, events: seq<Event>)
    requires s.phase != Focus
    requires forall i :: 0 <= i < |events| ==> !events[i].EnterPin?
    ensures var r := Run(s, cfg, events);
      r.phase != Focus && r.nextMicroAt == s.nextMicroAt && r.nextStandAt == s.nextStandAt
    decreases |events|
  {
    if |events| > 0 {
      var s1 := Step(s, cfg, events[0]);
      StepInBreakPhase(s, cfg, events[0]);
      BreakPhaseSticks(s1, cfg, events[1..]);
    }
  }
}

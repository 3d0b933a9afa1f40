/**
 The timer page together with the alert bridge: how the bridge's effects call
 back into the session, how a due break becomes a prompt instead of an
 immediate guided break, and how the setup page's hand-off reaches both.
 */
module App {
  import opened Core
  import opened Clock
  import opened SessionConfig
  import opened Timer
  import Alerts
  import Setup
  import History
  import SessionRuns

  /** The page and, when the bridge script is loaded, the bridge. `signals` is
      every vibration and tone the bridge has asked for so far. */
  datatype System = System(page: Session, bridge: Option<Alerts.Bridge>, signals: seq<Alerts.Effect>)

  /** What `initAlerts` registers. */
  const TimerOffer: Alerts.Offer :=
    Alerts.Offer(Some(Alerts.TimerPause), Some(Alerts.TimerResume), Some(Alerts.TimerStartBreak), Some(Alerts.NoHandler))

  /** The slots after `initAlerts`. */
  const TimerControls: Alerts.Controls :=
    Alerts.Controls(Alerts.TimerPause, Alerts.TimerResume, Alerts.TimerStartBreak, Alerts.NoHandler)

  /** What a timer control never touches: the stored history, the completion
      flag, the duration, whether a session is configured, and the break
      triggers. */
  predicate ControlFrame(a: Session, b: Session) {
    && a.history == b.history && a.timeupHandled == b.timeupHandled && a.durationMs == b.durationMs
    && a.configured == b.configured && a.nextMicroAt == b.nextMicroAt && a.nextStandAt == b.nextStandAt
  }

  /** The time left is the deadline minus `now`, floored at 0, as `tick` has
      just computed it. */
  predicate InSync(s: Session, now: int) {
    s.endAt.Some? && s.remainingMs == Max(0, s.endAt.value - now)
  }

  /** Calling a registered handler: `pauseSession`, `resumeSession`,
      `beginGuidedBreak(type)`, or nothing. A missing kind is `undefined`, which
      `beginGuidedBreak` ignores. No handler touches the history, the
      completion flag or the triggers, and at the instant `tick` read the
      clock none changes the time left. */
  function Call(s: Session, h: Alerts.Handler, arg: Option<Kind>, now: int): (r: Session)
    ensures ControlFrame(s, r)
    ensures InSync(s, now) ==> InSync(r, now) && r.remainingMs == s.remainingMs
  {
    match h
    case NoHandler => s
    case TimerPause => Pause(s, now)
    case TimerResume => Resume(s, now)
    case TimerStartBreak => BeginGuidedBreak(s, arg.GetOr(OtherKind))
  }

  /** The effects that are not handler calls, in their order. */
  function Passed(effects: seq<Alerts.Effect>): (r: seq<Alerts.Effect>)
    ensures |r| <= |effects|
    ensures forall x :: x in r <==> x in effects && !x.Invoke?
    decreases |effects|
  {
    if |effects| == 0 then []
    else
      assert effects == [effects[0]] + effects[1..];
      (if effects[0].Invoke? then [] else [effects[0]]) + Passed(effects[1..])
  }

  /** Carries out a list of effects: handler calls change the page, in order,
      and every other effect is passed on, in order. */
  function Perform(s: Session, effects: seq<Alerts.Effect>, now: int): (r: (Session, seq<Alerts.Effect>))
    ensures r.1 == Passed(effects)
    ensures ControlFrame(s, r.0)
    ensures InSync(s, now) ==> InSync(r.0, now) && r.0.remainingMs == s.remainingMs
    ensures (forall i :: 0 <= i < |effects| ==> !effects[i].Invoke?) ==> r == (s, effects)
    decreases |effects|
  {
    if |effects| == 0 then (s, [])
    else
      assert (forall i :: 0 <= i < |effects| ==> !effects[i].Invoke?) ==>
        (forall i :: 0 <= i < |effects[1..]| ==> !effects[1..][i].Invoke?) && [effects[0]] + effects[1..] == effects;
      var rest := Perform(
        if effects[0].Invoke? then Call(s, effects[0].handler, effects[0].arg, now) else s,
        effects[1..], now);
      (rest.0, (if effects[0].Invoke? then [] else [effects[0]]) + rest.1)
  }

  /** A handler call at the front is carried out on the session before the
      rest; any other effect at the front is passed on first. */
  lemma PerformFront(s: Session, e: Alerts.Effect, rest: seq<Alerts.Effect>, now: int)
    ensures e.Invoke? ==> Perform(s, [e] + rest, now) == Perform(Call(s, e.handler, e.arg, now), rest, now)
    ensures !e.Invoke? ==> Perform(s, [e] + rest, now) == (Perform(s, rest, now).0, [e] + Perform(s, rest, now).1)
  {
    assert ([e] + rest)[0] == e;
    assert ([e] + rest)[1..] == rest;
    if e.Invoke? {
      var r := Perform(Call(s, e.handler, e.arg, now), rest, now);
      assert [] + r.1 == r.1;
    }
  }

  /** Filtering distributes over concatenation. */
  lemma {:induction false} PassedAppend(a: seq<Alerts.Effect>, b: seq<Alerts.Effect>)
    ensures Passed(a + b) == Passed(a) + Passed(b)
    decreases |a|
  {
    if |a| == 0 {
      assert a + b == b;
    } else {
      assert (a + b)[0] == a[0];
      assert (a + b)[1..] == a[1..] + b;
      PassedAppend(a[1..], b);
      var h := if a[0].Invoke? then [] else [a[0]];
      assert h + (Passed(a[1..]) + Passed(b)) == (h + Passed(a[1..])) + Passed(b);
    }
  }

  /** Carrying out `a + b` is carrying out `a`, then `b` on the session `a`
      left, passing on `a`'s effects before `b`'s. */
  lemma PerformAppend(s: Session, a: seq<Alerts.Effect>, b: seq<Alerts.Effect>, now: int)
    ensures Perform(s, a + b, now).0 == Perform(Perform(s, a, now).0, b, now).0
    ensures Perform(s, a + b, now).1 == Perform(s, a, now).1 + Perform(Perform(s, a, now).0, b, now).1
  {
    PassedAppend(a, b);
    PerformAppendSession(s, a, b, now);
  }

  lemma {:induction false} PerformAppendSession(s: Session, a: seq<Alerts.Effect>, b: seq<Alerts.Effect>, now: int)
    ensures Perform(s, a + b, now).0 == Perform(Perform(s, a, now).0, b, now).0
    decreases |a|
  {
    if |a| == 0 {
      assert a + b == b;
      assert Perform(s, a, now).0 == s;
    } else {
      var e, tail := a[0], a[1..];
      assert a == [e] + tail;
      assert a + b == [e] + (tail + b);
      PerformFront(s, e, tail + b, now);
      PerformFront(s, e, tail, now);
      var s1 := if e.Invoke? then Call(s, e.handler, e.arg, now) else s;
      PerformAppendSession(s1, tail, b, now);
    }
  }

  /** `initAlerts`: load the sound flag, unlock audio when the setup page asked
      for sound, register the timer's controls. */
  function InitAlerts(b: Alerts.Bridge, storedFlag: Option<string>, expectSound: bool): (r: Alerts.Bridge)
    ensures r.controls == TimerControls
    ensures r.enabled == Alerts.LoadSettings(b, storedFlag).enabled
    ensures expectSound ==> r.unlocked
    ensures r.prompt == b.prompt
  {
    var b1 := Alerts.LoadSettings(b, storedFlag);
    var b2 := if expectSound then Alerts.Init(b1) else b1;
    Alerts.RegisterControls(b2, TimerOffer)
  }

  /** The page loading: boot, and when the session starts and the bridge is
      present, `initAlerts`. */
  function Boot(stored: Option<Config>, history: seq<History.Entry>, storedFlag: Option<string>,
                expectSound: bool, hasBridge: bool, now: int): (r: System)
    ensures r.page == Timer.Boot(stored, history, now)
    ensures r.bridge.Some? <==> hasBridge
    ensures hasBridge && r.page.configured ==> r.bridge.value.controls == TimerControls
    ensures hasBridge && !r.page.configured ==> r.bridge == Some(Alerts.Fresh)
    ensures r.signals == []
  {
    var page := Timer.Boot(stored, history, now);
    var bridge :=
      if !hasBridge then None
      else if page.configured then Some(InitAlerts(Alerts.Fresh, storedFlag, expectSound))
      else Some(Alerts.Fresh);
    System(page, bridge, [])
  }

  /** The system after `maybeTriggerBreak`, and the sound `trigger` left for
      the next animation frame. */
  datatype Fired = Fired(sys: System, nextFrame: seq<Alerts.Effect>)

  /** `maybeTriggerBreak` with the bridge: a due break goes to `trigger`,
      whose `pauseTimer` call pauses the page at once, and the trigger still
      moves on. Nothing sounds yet: the break's sound waits for the next
      animation frame. */
  function FireBreak(s: Session, b: Alerts.Bridge, signals: seq<Alerts.Effect>, cfg: Config, now: int): (r: Fired)
    ensures r.sys.bridge.Some? && r.sys.bridge.value.enabled == b.enabled
    ensures r.sys.signals == signals
    ensures r.sys.page.history == s.history && r.sys.page.timeupHandled == s.timeupHandled
    ensures r.sys.page.durationMs == s.durationMs && r.sys.page.configured == s.configured
    ensures InSync(s, now) ==> InSync(r.sys.page, now) && r.sys.page.remainingMs == s.remainingMs
    ensures DueBreak(s, now).None? ==> r == Fired(System(s, Some(b), signals), [])
    ensures DueBreak(s, now).Some? ==> r.nextFrame == Alerts.Play(b, DueBreak(s, now).value).effects
  {
    match DueBreak(s, now)
    case None => Fired(System(s, Some(b), signals), [])
    case Some(k) =>
      var out := Alerts.Trigger(b, k);
      var done := Perform(s, out.effects, now);
      assert done.1 == Passed([out.effects[0]]) == [];
      Fired(System(AdvanceTrigger(done.0, cfg, k), Some(out.bridge), signals + done.1), out.nextFrame)
  }

  /** `tick` with the bridge: a due break goes to `trigger` and the trigger
      still moves on; completion plays the time-up sound at once, and the
      break's sound follows at the next animation frame. Without the bridge
      it is `Timer.Tick`. Either way the completion block runs exactly when
      the deadline has passed and it has not run before, and only then is the
      history changed. */
  function Tick(sys: System, cfg: Config, now: int, stamp: string): (r: System)
    ensures r.bridge.Some? <==> sys.bridge.Some?
    ensures r.page.durationMs == sys.page.durationMs && r.page.configured == sys.page.configured
    ensures |sys.signals| <= |r.signals| && r.signals[..|sys.signals|] == sys.signals
    ensures sys.page.timeupHandled ==> r.page.timeupHandled
    ensures sys.page.timeupHandled || !r.page.timeupHandled ==> r.page.history == sys.page.history
    ensures sys.page.endAt.Some? ==> (r.page.timeupHandled <==> sys.page.timeupHandled || sys.page.endAt.value <= now)
    ensures !sys.page.timeupHandled && r.page.timeupHandled ==>
      && r.page.history == History.Add(sys.page.history, CompletedEntry(sys.page.durationMs, cfg, stamp))
      && !r.page.running && r.page.completed
    ensures !sys.page.timeupHandled && r.page.timeupHandled && sys.bridge.Some? ==>
      var bell := Alerts.Play(sys.bridge.value, Timeup).effects;
      |sys.signals| + |bell| <= |r.signals| && r.signals[..|sys.signals| + |bell|] == sys.signals + bell
  {
    match sys.bridge
    case None => sys.(page := Timer.Tick(sys.page, cfg, now, stamp))
    case Some(b) => BridgeTick(sys.page, b, sys.signals, cfg, now, stamp)
  }

  /** The bridge branch of `Tick`. */
  function BridgeTick(page: Session, b: Alerts.Bridge, signals: seq<Alerts.Effect>, cfg: Config, now: int, stamp: string): (r: System)
    ensures r.bridge.Some?
    ensures r.page.durationMs == page.durationMs && r.page.configured == page.configured
    ensures |signals| <= |r.signals| && r.signals[..|signals|] == signals
    ensures page.timeupHandled ==> r.page.timeupHandled
    ensures page.timeupHandled || !r.page.timeupHandled ==> r.page.history == page.history
    ensures page.endAt.Some? ==> (r.page.timeupHandled <==> page.timeupHandled || page.endAt.value <= now)
    ensures !page.timeupHandled && r.page.timeupHandled ==>
      && r.page.history == History.Add(page.history, CompletedEntry(page.durationMs, cfg, stamp))
      && !r.page.running && r.page.completed
      && var bell := Alerts.Play(b, Timeup).effects;
        |signals| + |bell| <= |r.signals| && r.signals[..|signals| + |bell|] == signals + bell
  {
    var s1 := page.(remainingMs := Max(0, page.endAt.GetOr(now) - now));
    var fired := FireBreak(s1, b, signals, cfg, now);
    NextFrame(Ring(fired.sys, b, cfg, stamp), fired.nextFrame)
  }

  /** The animation frame after the tick: the sounds left for it are made. */
  function NextFrame(sys: System, later: seq<Alerts.Effect>): (r: System)
    ensures r.page == sys.page && r.bridge == sys.bridge
    ensures |sys.signals| <= |r.signals| && r.signals[..|sys.signals|] == sys.signals
    ensures r.signals[|sys.signals|..] == later
  {
    sys.(signals := sys.signals + later)
  }

  /** The completion block with the bridge: on completion the time-up sound
      is played after whatever was signalled. */
  function Ring(fired: System, b: Alerts.Bridge, cfg: Config, stamp: string): (r: System)
    requires fired.bridge.Some? && fired.bridge.value.enabled == b.enabled
    ensures r.bridge.Some?
    ensures r.page == Complete(fired.page, cfg, stamp)
    ensures |fired.signals| <= |r.signals| && r.signals[..|fired.signals|] == fired.signals
    ensures !fired.page.timeupHandled && r.page.timeupHandled ==>
      var bell := Alerts.Play(b, Timeup).effects;
      && r.signals == fired.signals + bell
      && |bell| <= |r.signals| && r.signals[|r.signals| - |bell|..] == bell
      && r.bridge.value.prompt == fired.bridge.value.prompt
    ensures fired.page.timeupHandled || !r.page.timeupHandled ==> r.bridge == fired.bridge && r.signals == fired.signals
  {
    var s3 := Complete(fired.page, cfg, stamp);
    if s3.timeupHandled && !fired.page.timeupHandled then
      var bell := Alerts.Play(fired.bridge.value, Timeup);
      Alerts.PlayReadsOnlyEnabled(fired.bridge.value, b, Timeup);
      var signals := fired.signals + bell.effects;
      assert signals[|signals| - |bell.effects|..] == bell.effects;
      assert signals[..|fired.signals|] == fired.signals;
      System(s3, Some(bell.bridge), signals)
    else fired.(page := s3)
  }

  /** A prompt button or Escape: the prompt closes and the chosen handler is
      called; nothing is signalled and the history, the completion flag and
      the triggers stay. With no prompt open nothing happens. */
  function PressPrompt(sys: System, button: Alerts.Button, now: int): (r: System)
    ensures r.bridge.Some? <==> sys.bridge.Some?
    ensures r.bridge.Some? ==> r.bridge.value.prompt.None?
    ensures r.signals == sys.signals
    ensures ControlFrame(sys.page, r.page)
    ensures sys.bridge.None? || sys.bridge.value.prompt.None? ==> r == sys
  {
    match sys.bridge
    case None => sys
    case Some(b) =>
      var out := Alerts.Press(b, button);
      var done := Perform(sys.page, out.effects, now);
      System(done.0, Some(out.bridge), sys.signals + done.1)
  }

  // ---------------------------------------------------------------------------
  // Properties
  // ---------------------------------------------------------------------------

  /** Whatever the setup page accepts, the timer page boots into a running
      session: validation implies the boot check. */
  lemma SubmitPassesBoot(f: Setup.Form)
    requires Setup.Submit(f).Some?
    ensures Timer.BootAccepts(Setup.Submit(f).value.config)
  {
  }

  /** From a submitted form to a running page: the session starts with the
      form's duration, audio is unlocked (the hand-off always asks for sound),
      the timer's controls are registered and, when the form had a
      sound switch, the bridge's sound flag is what the switch said. `flag` is
      what the sound key holds when the timer page loads. */
  lemma SetupToRunningPage(f: Setup.Form, history: seq<History.Entry>, flag: Option<string>, now: int)
    requires Setup.Submit(f).Some?
    requires f.soundToggle.Some? ==> flag == Setup.Submit(f).value.soundEnabled
    ensures var h := Setup.Submit(f).value;
      var sys := Boot(Some(h.config), history, flag, h.expectSound, true, now);
      && sys.page.configured && sys.page.running && !sys.page.paused && sys.page.phase == Focus
      && sys.page.remainingMs == f.durationMs && sys.page.endAt == Some(now + f.durationMs)
      && sys.bridge.Some? && sys.bridge.value.controls == TimerControls && sys.bridge.value.unlocked
      && (f.soundToggle.Some? ==> sys.bridge.value.enabled == f.soundToggle.value)
  {
    var h := Setup.Submit(f).value;
    SubmitPassesBoot(f);
    var page := Timer.Boot(Some(h.config), history, now);
    assert page.configured;
    var b := InitAlerts(Alerts.Fresh, flag, h.expectSound);
    assert Boot(Some(h.config), history, flag, h.expectSound, true, now) == System(page, Some(b), []);
  }

  /** Without the bridge the page behaves exactly as `Timer` describes. */
  lemma NoBridgeIsTimer(sys: System, cfg: Config, now: int, stamp: string, button: Alerts.Button)
    requires sys.bridge.None?
    ensures Tick(sys, cfg, now, stamp).page == Timer.Tick(sys.page, cfg, now, stamp)
    ensures PressPrompt(sys, button, now) == sys
  {
  }

  /** A page in its normal shape: the timer's controls registered and no prompt open. */
  predicate Ready(sys: System) {
    sys.bridge.Some? && sys.bridge.value.controls == TimerControls && sys.bridge.value.prompt.None?
  }

  /** With the bridge, a due micro break pauses the session but leaves the
      phase at focus, opens a head-rest prompt instead of starting the break,
      and stores nothing. */
  lemma MicroBreakOpensPrompt(sys: System, cfg: Config, now: int, stamp: string)
    requires Ready(sys) && !sys.page.paused && MicroDue(sys.page, now)
    requires sys.page.endAt.Some? && sys.page.endAt.value > now
    ensures var r := Tick(sys, cfg, now, stamp);
      && r.page.paused && !r.page.running && r.page.phase == Focus
      && r.bridge.Some? && r.bridge.value.prompt == Some(Headrest)
      && r.page.history == sys.page.history
  {
    var s1 := sys.page.(remainingMs := Max(0, sys.page.endAt.GetOr(now) - now));
    BridgeMicroTick(sys, cfg, now, stamp);
    PausedAndAdvanced(s1, cfg, now, Headrest);
  }

  /** The bridge tick's page on a due micro break: the micro trigger moves by
      one interval, the stand trigger stays and the time left freezes at what
      the deadline leaves, the same three values `FallbackMicroBreak` gives
      for the fallback tick. */
  lemma BridgeMicroFields(sys: System, cfg: Config, now: int, stamp: string)
    requires Ready(sys) && !sys.page.paused && MicroDue(sys.page, now)
    requires sys.page.endAt.Some? && sys.page.endAt.value > now
    ensures var r := Tick(sys, cfg, now, stamp);
      && r.page.nextMicroAt == Some(sys.page.nextMicroAt.value + MicroInterval(cfg))
      && r.page.nextStandAt == sys.page.nextStandAt
      && r.page.remainingMs == sys.page.endAt.value - now
  {
    var s1 := sys.page.(remainingMs := Max(0, sys.page.endAt.GetOr(now) - now));
    BridgeMicroTick(sys, cfg, now, stamp);
    PausedAndAdvanced(s1, cfg, now, Headrest);
    assert s1.nextMicroAt == sys.page.nextMicroAt == Some(sys.page.nextMicroAt.value);
  }

  /** The bridge tick on a due micro break, when time is left: the page is
      the paused page with the micro trigger moved, the bridge the one
      `trigger` leaves. */
  lemma BridgeMicroTick(sys: System, cfg: Config, now: int, stamp: string)
    requires Ready(sys) && !sys.page.paused && MicroDue(sys.page, now)
    requires sys.page.endAt.Some? && sys.page.endAt.value > now
    ensures var s1 := sys.page.(remainingMs := Max(0, sys.page.endAt.GetOr(now) - now));
      var r := Tick(sys, cfg, now, stamp);
      && r.page == AdvanceTrigger(Pause(s1, now), cfg, Headrest)
      && r.bridge == Some(Alerts.Trigger(sys.bridge.value, Headrest).bridge)
  {
    var b := sys.bridge.value;
    var s1 := sys.page.(remainingMs := Max(0, sys.page.endAt.GetOr(now) - now));
    assert DueBreak(s1, now) == Some(Headrest);
    FireDueBreak(s1, b, sys.signals, cfg, now, Headrest);
    PausedAndAdvanced(s1, cfg, now, Headrest);
    var fired := FireBreak(s1, b, sys.signals, cfg, now);
    assert fired.sys.page.remainingMs > 0;
    var r := Ring(fired.sys, b, cfg, stamp);
    assert r.page == fired.sys.page;
    TickIsRing(sys, cfg, now, stamp);
  }

  /** The fallback tick on a due micro break, when time is left. */
  lemma FallbackMicroBreak(s: Session, cfg: Config, now: int, stamp: string)
    requires !s.paused && MicroDue(s, now) && s.endAt.Some? && s.endAt.value > now
    ensures var t := Timer.Tick(s, cfg, now, stamp);
      && t.phase == MicroBreak && t.remainingMs == s.endAt.value - now
      && t.nextMicroAt == Some(s.nextMicroAt.value + MicroInterval(cfg)) && t.nextStandAt == s.nextStandAt
  {
    var s1 := s.(remainingMs := Max(0, s.endAt.GetOr(now) - now));
    assert MicroDue(s1, now);
    var s2 := MaybeTriggerBreak(s1, cfg, now);
    assert s2.remainingMs > 0;
  }

  /** Answering the prompt: the primary button begins the guided break for the
      prompt's kind and keeps the session paused; the secondary button and
      Escape resume it with the frozen time left. Either way the prompt closes. */
  lemma AnswerPrompt(sys: System, button: Alerts.Button, now: int, k: Kind)
    requires sys.bridge.Some? && sys.bridge.value.controls == TimerControls
    requires sys.bridge.value.prompt == Some(k)
    ensures var r := PressPrompt(sys, button, now);
      && r.bridge.Some? && r.bridge.value.prompt.None?
      && (button == Alerts.Primary ==> r.page == BeginGuidedBreak(sys.page, k))
      && (button != Alerts.Primary ==> r.page == Resume(sys.page, now))
      && r.signals == sys.signals
  {
    var b := sys.bridge.value;
    var out := Alerts.Press(b, button);
    assert out.effects[1..] == [];
  }

  /** The completing tick of a running session with no break due: the
      completion entry is stored, the time-up sound is played after whatever
      was signalled before and nothing else sounds, and no handler is
      called. */
  lemma CompletionRings(sys: System, cfg: Config, now: int, stamp: string)
    requires sys.bridge.Some? && !sys.page.timeupHandled && !sys.page.paused
    requires sys.page.endAt.Some? && sys.page.endAt.value <= now
    requires DueBreak(sys.page, now).None?
    ensures var r := Tick(sys, cfg, now, stamp);
      && r.page.timeupHandled && r.page.completed && !r.page.running
      && r.page.history == History.Add(sys.page.history, CompletedEntry(sys.page.durationMs, cfg, stamp))
      && r.signals == sys.signals + Alerts.Play(sys.bridge.value, Timeup).effects
      && r.bridge.value.prompt == sys.bridge.value.prompt
  {
    var s1 := sys.page.(remainingMs := Max(0, sys.page.endAt.GetOr(now) - now));
    assert DueBreak(s1, now).None?;
    TickIsRing(sys, cfg, now, stamp);
    var r := Ring(System(s1, sys.bridge, sys.signals), sys.bridge.value, cfg, stamp);
    assert r.signals + [] == r.signals;
  }

  /** A break falling due on the completing tick: `trigger` pauses the page
      and opens its prompt, and the completion block still runs in the same
      tick. The time-up sound is made at once, and the break's sound, which
      `trigger` left for the next animation frame, only after it. */
  lemma CompletionRingsAfterPrompt(sys: System, cfg: Config, now: int, stamp: string, k: Kind)
    requires sys.bridge.Some? && sys.bridge.value.controls == TimerControls
    requires !sys.page.timeupHandled && !sys.page.paused
    requires sys.page.endAt.Some? && sys.page.endAt.value <= now
    requires DueBreak(sys.page, now) == Some(k)
    ensures var r := Tick(sys, cfg, now, stamp);
      var b := sys.bridge.value;
      && r.page.timeupHandled && r.page.completed && r.page.paused && !r.page.running
      && r.page.history == History.Add(sys.page.history, CompletedEntry(sys.page.durationMs, cfg, stamp))
      && r.signals == sys.signals + Alerts.Play(b, Timeup).effects + Alerts.Play(b, k).effects
      && r.bridge.value.prompt == (if b.prompt.Some? then b.prompt else Some(k))
  {
    var b := sys.bridge.value;
    var s1 := sys.page.(remainingMs := Max(0, sys.page.endAt.GetOr(now) - now));
    assert DueBreak(s1, now) == Some(k);
    FireDueBreak(s1, b, sys.signals, cfg, now, k);
    PausedAndAdvanced(s1, cfg, now, k);
    var fired := FireBreak(s1, b, sys.signals, cfg, now);
    var r := Ring(fired.sys, b, cfg, stamp);
    TickIsRing(sys, cfg, now, stamp);
    assert r.page.timeupHandled;
  }

  /** The bridge branch of a tick, spelled out. */
  lemma TickIsRing(sys: System, cfg: Config, now: int, stamp: string)
    requires sys.bridge.Some?
    ensures var s1 := sys.page.(remainingMs := Max(0, sys.page.endAt.GetOr(now) - now));
      var fired := FireBreak(s1, sys.bridge.value, sys.signals, cfg, now);
      Tick(sys, cfg, now, stamp) == NextFrame(Ring(fired.sys, sys.bridge.value, cfg, stamp), fired.nextFrame)
  {
  }

  /** The page after `trigger`'s pause and the moved trigger: paused, with
      the time left to the deadline frozen, and nothing else of note changed. */
  lemma PausedAndAdvanced(s: Session, cfg: Config, now: int, k: Kind)
    requires !s.paused && s.endAt.Some?
    ensures var p := AdvanceTrigger(Pause(s, now), cfg, k);
      && p.paused && !p.running && p.remainingMs == Max(0, s.endAt.value - now) && p.phase == s.phase
      && p.history == s.history && p.durationMs == s.durationMs && p.timeupHandled == s.timeupHandled
      && (k == Headrest ==> p.nextMicroAt == Some(s.nextMicroAt.GetOr(0) + MicroInterval(cfg)) && p.nextStandAt == s.nextStandAt)
  {
  }

  /** With the timer's controls registered, a due break pauses the page
      through `pauseTimer`, signals nothing yet and leaves the break's sound
      for the next animation frame. */
  lemma FireDueBreak(s: Session, b: Alerts.Bridge, signals: seq<Alerts.Effect>, cfg: Config, now: int, k: Kind)
    requires b.controls == TimerControls && DueBreak(s, now) == Some(k)
    ensures var r := FireBreak(s, b, signals, cfg, now);
      && r.sys.page == AdvanceTrigger(Pause(s, now), cfg, k)
      && r.sys.signals == signals && r.nextFrame == Alerts.Play(b, k).effects
      && r.sys.bridge == Some(Alerts.Trigger(b, k).bridge)
  {
    var out := Alerts.Trigger(b, k);
    var e := Alerts.Invoke(Alerts.TimerPause, None);
    assert out.effects == [e] + [];
    PerformFront(s, e, [], now);
    var c := Call(s, Alerts.TimerPause, None, now);
    assert c == Pause(s, now);
    assert Perform(c, [], now) == (c, []);
    assert Perform(s, out.effects, now) == (c, []);
  }

  // ---------------------------------------------------------------------------
  // Runs of the page with the bridge
  // ---------------------------------------------------------------------------

  /** One thing that can happen to the page with the bridge loaded: a tick, an
      answer to the prompt, or any of the page's own controls. A tick among
      the page's events is the same bridge tick, since with the bridge loaded
      the page never takes the fallback path. */
  datatype Event =
    | TickAt(now: int, stamp: string)
    | Answer(button: Alerts.Button, now: int)
    | PageEvent(e: SessionRuns.Event)

  function Step(sys: System, cfg: Config, e: Event): System {
    match e
    case TickAt(now, stamp) => Tick(sys, cfg, now, stamp)
    case Answer(button, now) => PressPrompt(sys, button, now)
    case PageEvent(pe) =>
      if pe.TickAt? then Tick(sys, cfg, pe.now, pe.stamp)
      else sys.(page := SessionRuns.Step(sys.page, cfg, pe))
  }

  function Run(sys: System, cfg: Config, events: seq<Event>): System
    decreases |events|
  {
    if |events| == 0 then sys else Run(Step(sys, cfg, events[0]), cfg, events[1..])
  }

  /** The step runs the completion block; with the bridge loaded that step
      is a tick, and it makes the time-up sound (see `Tick`). */
  predicate Rings(sys: System, cfg: Config, e: Event) {
    !sys.page.timeupHandled && Step(sys, cfg, e).page.timeupHandled
  }

  /** How many steps of a run ring. */
  function Ringings(sys: System, cfg: Config, events: seq<Event>): nat
    decreases |events|
  {
    if |events| == 0 then 0
    else (if Rings(sys, cfg, events[0]) then 1 else 0) + Ringings(Step(sys, cfg, events[0]), cfg, events[1..])
  }

  /** Once set, the completion flag stays set through every kind of step. */
  lemma StepTimeupMonotone(sys: System, cfg: Config, e: Event)
    ensures sys.page.timeupHandled ==> Step(sys, cfg, e).page.timeupHandled
  {
    match e
    case PageEvent(pe) => SessionRuns.StepTimeupMonotone(sys.page, cfg, pe);
    case _ =>
  }

  /** With the bridge loaded, the only step that runs the completion block
      is a tick, and its time-up sound directly follows what was signalled
      before it. */
  lemma RingingStepIsTick(sys: System, cfg: Config, e: Event)
    requires sys.bridge.Some? && Rings(sys, cfg, e)
    ensures e.TickAt? || (e.PageEvent? && e.e.TickAt?)
    ensures var r := Step(sys, cfg, e);
      var bell := Alerts.Play(sys.bridge.value, Timeup).effects;
      |sys.signals| + |bell| <= |r.signals| && r.signals[..|sys.signals| + |bell|] == sys.signals + bell
  {
  }

  /** Over any run of the page with the bridge the completion block, and the
      time-up sound with it, runs at most once, and never when it had already
      run before the run began. */
  lemma {:induction false} CompletionRingsOnce(sys: System, cfg: Config, events: seq<Event>)
    ensures Ringings(sys, cfg, events) <= (if sys.page.timeupHandled then 0 else 1)
    decreases |events|
  {
    if |events| > 0 {
      StepTimeupMonotone(sys, cfg, events[0]);
      CompletionRingsOnce(Step(sys, cfg, events[0]), cfg, events[1..]);
    }
  }

  /** Ticks and prompt answers after completion store nothing more. */
  lemma {:induction false} AfterTimeupRecordNothing(sys: System, cfg: Config, events: seq<Event>)
    requires sys.page.timeupHandled
    requires forall i :: 0 <= i < |events| ==> !events[i].PageEvent?
    ensures Run(sys, cfg, events).page.history == sys.page.history
    decreases |events|
  {
    if |events| > 0 {
      var next := Step(sys, cfg, events[0]);
      assert next.page.timeupHandled && next.page.history == sys.page.history;
      AfterTimeupRecordNothing(next, cfg, events[1..]);
    }
  }

  /** However the ticks and the prompt answers interleave, the history gains
      at most one entry, the completion entry for the session's duration. */
  lemma {:induction false} BridgeRunRecordsOneCompletion(sys: System, cfg: Config, events: seq<Event>)
    requires forall i :: 0 <= i < |events| ==> !events[i].PageEvent?
    ensures var h := Run(sys, cfg, events).page.history;
      h == sys.page.history || exists stamp :: h == History.Add(sys.page.history, CompletedEntry(sys.page.durationMs, cfg, stamp))
    decreases |events|
  {
    if |events| > 0 {
      var next := Step(sys, cfg, events[0]);
      assert next.page.durationMs == sys.page.durationMs;
      if sys.page.timeupHandled || !next.page.timeupHandled {
        assert next.page.history == sys.page.history;
        BridgeRunRecordsOneCompletion(next, cfg, events[1..]);
      } else {
        AfterTimeupRecordNothing(next, cfg, events[1..]);
        assert events[0].TickAt?;
        assert next.page.history == History.Add(sys.page.history, CompletedEntry(sys.page.durationMs, cfg, events[0].stamp));
      }
    }
  }
}

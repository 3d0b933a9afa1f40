/**
 The alert bridge (`LockedInAlerts`): the sound preference, the four timer
 controls the page registers, and the prompt that a break alert opens. Its
 calls into the timer, its vibrations and its tones are returned as a list of
 effects for the caller to carry out; the audio synthesis itself is not
 modelled, only which sound a kind asks for.
 */
module Alerts {
  import opened Core

  /** The callbacks the timer page can register: pause, resume, begin a guided
      break, and the no-op `() => {}` (also the bridge's own default). */
  datatype Handler = NoHandler | TimerPause | TimerResume | TimerStartBreak

  /** The four control slots. */
  datatype Controls = Controls(pauseTimer: Handler, resumeTimer: Handler, startBreak: Handler, endSession: Handler)

  /** The argument of `registerControls`: `None` where the object has no function
      under that name. */
  datatype Offer = Offer(
    pauseTimer: Option<Handler>,
    resumeTimer: Option<Handler>,
    startBreak: Option<Handler>,
    endSession: Option<Handler>)

  /** The bridge's state. `prompt` is the kind of the open prompt (`isPromptOpen`
      and the kind its buttons were made for). */
  datatype Bridge = Bridge(enabled: bool, unlocked: bool, prompt: Option<Kind>, controls: Controls)

  /** What the bridge asks of the outside world, in order. */
  datatype Effect =
    | Invoke(handler: Handler, arg: Option<Kind>)
    | Vibrate(pattern: seq<int>)
    | Tones(kind: Kind)

  /** The buttons of the prompt, and the Escape key. */
  datatype Button = Primary | Secondary | Escape

  /** The result of an operation that also produces effects. */
  datatype Out = Out(bridge: Bridge, effects: seq<Effect>)

  /** The result of `trigger`: what it does at once, and the sound it leaves
      for the next animation frame, which plays only after the code that
      called `trigger` has finished. */
  datatype Triggered = Triggered(bridge: Bridge, effects: seq<Effect>, nextFrame: seq<Effect>)

  /** `vibrate()` with no argument. */
  const DefaultVibration: seq<int> := [60, 40, 60]

  /** The bridge as the script defines it. */
  const Fresh: Bridge := Bridge(true, false, None, Controls(NoHandler, NoHandler, NoHandler, NoHandler))

  // ---------------------------------------------------------------------------
  // Settings
  // ---------------------------------------------------------------------------

  /** `loadSettings` (the enabled flag): on when the key is unset, otherwise on
      exactly when the stored text is `"true"`. */
  function LoadSettings(b: Bridge, stored: Option<string>): (r: Bridge)
    ensures r == b.(enabled := r.enabled)
    ensures stored.None? ==> r.enabled
    ensures stored.Some? ==> (r.enabled <==> stored.value == "true")
  {
    b.(enabled := stored.None? || stored.value == "true")
  }

  /** `String(!!v)`, the text stored for the flag. */
  function FlagText(v: bool): (t: string)
    ensures t == "true" || t == "false"
  {
    if v then "true" else "false"
  }

  /** `setEnabled(v)`: the new bridge and the text written to storage. */
  function SetEnabled(b: Bridge, v: bool): (r: (Bridge, string))
    ensures r.0 == b.(enabled := v)
    ensures r.1 == FlagText(v)
  {
    (b.(enabled := v), FlagText(v))
  }

  /** What `setEnabled(v)` stores, a later `loadSettings` reads back as `v`. */
  lemma EnabledRoundTrip(b: Bridge, c: Bridge, v: bool)
    ensures LoadSettings(c, Some(SetEnabled(b, v).1)).enabled == v
    ensures LoadSettings(c, Some(SetEnabled(b, v).1)) == c.(enabled := SetEnabled(b, v).0.enabled)
  {
  }

  /** `init`, as far as the bridge's state goes: audio counts as unlocked. */
  function Init(b: Bridge): (r: Bridge)
    ensures r.unlocked && r == b.(unlocked := true)
  {
    b.(unlocked := true)
  }

  /** `clamp(n, min, max)` on ordinary numbers. */
  function Clamp(n: real, min: real, max: real): (r: real)
    ensures min <= max ==> min <= r <= max
    ensures min <= n <= max ==> r == n
    ensures n < min <= max ==> r == min
    ensures min <= max < n ==> r == max
    ensures r == max || r == min || r == n
  {
    var lo := if min >= n then min else n;
    if max <= lo then max else lo
  }

  // ---------------------------------------------------------------------------
  // Controls
  // ---------------------------------------------------------------------------

  /** `registerControls(obj)`: each slot takes the offered function, or keeps
      the one it had. */
  function RegisterControls(b: Bridge, o: Offer): (r: Bridge)
    ensures r == b.(controls := r.controls)
    ensures r.controls.pauseTimer == o.pauseTimer.GetOr(b.controls.pauseTimer)
    ensures r.controls.resumeTimer == o.resumeTimer.GetOr(b.controls.resumeTimer)
    ensures r.controls.startBreak == o.startBreak.GetOr(b.controls.startBreak)
    ensures r.controls.endSession == o.endSession.GetOr(b.controls.endSession)
  {
    var c := b.controls;
    b.(controls := Controls(
      if o.pauseTimer.Some? then o.pauseTimer.value else c.pauseTimer,
      if o.resumeTimer.Some? then o.resumeTimer.value else c.resumeTimer,
      if o.startBreak.Some? then o.startBreak.value else c.startBreak,
      if o.endSession.Some? then o.endSession.value else c.endSession))
  }

  /** The later of two offers wins slot by slot: registering `o1` then `o2` is
      registering their merge. An empty offer changes nothing. */
  lemma RegisterTwice(b: Bridge, o1: Offer, o2: Offer)
    ensures RegisterControls(RegisterControls(b, o1), o2) ==
      RegisterControls(b, Offer(
        if o2.pauseTimer.Some? then o2.pauseTimer else o1.pauseTimer,
        if o2.resumeTimer.Some? then o2.resumeTimer else o1.resumeTimer,
        if o2.startBreak.Some? then o2.startBreak else o1.startBreak,
        if o2.endSession.Some? then o2.endSession else o1.endSession))
    ensures RegisterControls(b, Offer(None, None, None, None)) == b
  {
  }

  // ---------------------------------------------------------------------------
  // Sounds
  // ---------------------------------------------------------------------------

  /** Which sound `play` makes depends only on the kind and the enabled flag. */
  lemma PlayReadsOnlyEnabled(b: Bridge, c: Bridge, k: Kind)
    requires b.enabled == c.enabled
    ensures Play(b, k).effects == Play(c, k).effects
  {
  }

  /** `play(type)`: muted, only a vibration (a longer one for time-up); otherwise
      the kind's tones with its vibration pattern. Audio is unlocked afterwards. */
  function Play(b: Bridge, k: Kind): (r: Out)
    ensures r.bridge == b.(unlocked := true)
    ensures !b.enabled ==> r.effects == [Vibrate(if k == Timeup then [120, 60, 120] else DefaultVibration)]
    ensures b.enabled ==> Tones(k) in r.effects
    ensures forall i :: 0 <= i < |r.effects| ==> !r.effects[i].Invoke?
  {
    var b1 := b.(unlocked := true);
    if !b.enabled then
      Out(b1, [Vibrate(if k == Timeup then [120, 60, 120] else DefaultVibration)])
    else
      match k
      case Break => Out(b1, [Tones(Break), Vibrate([50, 40, 50])])
      case Stand => Out(b1, [Tones(Stand), Vibrate([60, 40, 60])])
      case Headrest => Out(b1, [Tones(Headrest), Vibrate([40, 30, 40])])
      case Timeup => Out(b1, [Vibrate([100, 80, 100]), Tones(Timeup)])
      case OtherKind => Out(b1, [Tones(OtherKind)])
  }

  // ---------------------------------------------------------------------------
  // Prompts
  // ---------------------------------------------------------------------------

  /** `_showPrompt`: opens the prompt for `k` unless one is already open. */
  function ShowPrompt(b: Bridge, k: Kind): (r: Bridge)
    ensures b.prompt.Some? ==> r == b
    ensures b.prompt.None? ==> r == b.(prompt := Some(k))
  {
    if b.prompt.Some? then b else b.(prompt := Some(k))
  }

  /** `trigger(type)`: time-up only plays its sound, at once; any other kind
      pauses the timer at once, leaves its sound to the next animation frame
      and opens its prompt. */
  function Trigger(b: Bridge, k: Kind): (r: Triggered)
    ensures r.bridge.unlocked && r.bridge.enabled == b.enabled && r.bridge.controls == b.controls
    ensures k == Timeup ==> r.bridge.prompt == b.prompt && r.effects == Play(b, k).effects && r.nextFrame == []
    ensures k != Timeup ==>
      && r.bridge.prompt == (if b.prompt.Some? then b.prompt else Some(k))
      && r.effects == [Invoke(b.controls.pauseTimer, None)]
      && r.nextFrame == Play(b, k).effects
  {
    var b1 := b.(unlocked := true);
    if k == Timeup then
      var p := Play(b1, Timeup);
      Triggered(p.bridge, p.effects, [])
    else
      Triggered(ShowPrompt(b1, k), [Invoke(b.controls.pauseTimer, None)], Play(b1, k).effects)
  }

  /** A click on a prompt button, or Escape on the prompt: close it, then call
      `startBreak` with the prompt's kind for the primary button and
      `resumeTimer` otherwise. With no prompt open there is nothing to press. */
  function Press(b: Bridge, button: Button): (r: Out)
    ensures r.bridge == b.(prompt := None)
    ensures b.prompt.None? <==> |r.effects| == 0
    ensures forall i :: 0 <= i < |r.effects| ==> r.effects[i].Invoke?
    ensures |r.effects| <= 1
  {
    match b.prompt
    case None => Out(b, [])
    case Some(k) =>
      var closed := b.(prompt := None);
      if button == Primary then Out(closed, [Invoke(b.controls.startBreak, Some(k))])
      else Out(closed, [Invoke(b.controls.resumeTimer, None)])
  }

  /** Time-up only rings: no timer call, no prompt, and the sound `play` makes. */
  lemma TimeupOnlyRings(b: Bridge)
    ensures var r := Trigger(b, Timeup);
      && r.effects == Play(b, Timeup).effects && r.nextFrame == []
      && (forall i :: 0 <= i < |r.effects| ==> !r.effects[i].Invoke?)
      && r.bridge.prompt == b.prompt && r.bridge.controls == b.controls
  {
  }

  /** Any other kind calls `pauseTimer` and no other handler, and only after
      that, at the next animation frame, makes its sound; the prompt is open
      afterwards, showing `k` unless another was already open. */
  lemma OtherKindsPauseFirst(b: Bridge, k: Kind)
    requires k != Timeup
    ensures var r := Trigger(b, k);
      && r.effects == [Invoke(b.controls.pauseTimer, None)]
      && (forall i :: 0 <= i < |r.nextFrame| ==> !r.nextFrame[i].Invoke?)
      && r.bridge.prompt == (if b.prompt.Some? then b.prompt else Some(k))
      && r.bridge.unlocked && r.bridge.controls == b.controls && r.bridge.enabled == b.enabled
  {
  }

  /** At most one prompt is ever open: a trigger while one is open keeps it as
      it was, and every button closes it. */
  lemma SinglePrompt(b: Bridge, k: Kind, button: Button)
    ensures b.prompt.Some? ==> Trigger(b, k).bridge.prompt == b.prompt
    ensures Press(b, button).bridge.prompt.None?
  {
  }

  /** The primary button starts the break the prompt was opened for; the
      secondary button and Escape resume the timer; each exactly once. Without
      an open prompt, nothing happens. */
  lemma PressDispatch(b: Bridge, button: Button)
    ensures b.prompt.None? ==> Press(b, button) == Out(b, [])
    ensures b.prompt.Some? && button == Primary ==>
      Press(b, button) == Out(b.(prompt := None), [Invoke(b.controls.startBreak, b.prompt)])
    ensures b.prompt.Some? && button != Primary ==>
      Press(b, button) == Out(b.(prompt := None), [Invoke(b.controls.resumeTimer, None)])
  {
  }
}

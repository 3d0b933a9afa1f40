/**
 The setup page: the focus-duration handlers, `validate`, and the submit
 handler that turns the form into the session configuration and the sound
 preference. Form numbers arrive already read as integers; an empty or
 unreadable field reads as 0, which is what the program's `+v || 0` yields
 for it.
 */
module Setup {
  import opened Core
  import opened Text
  import opened SessionConfig
  import opened Phone
  import opened Clock
  import Alerts

  /** The break-plan selector. */
  datatype Plan = Pomodoro | FiftyTen | Custom

  /** What the form holds when it is submitted. `durationMs` is the page's
      running value kept by the duration handlers; `soundToggle` is `None`
      when the page has no sound switch. */
  datatype Form = Form(
    durationMs: int,
    pinField: string,
    plan: Plan,
    microEvery: int,
    standEvery: int,
    standLen: int,
    enableHeadRest: bool,
    enableStand: bool,
    enableQuotes: bool,
    tel1: string,
    tel2: string,
    tel3: string,
    description: string,
    soundToggle: Option<bool>)

  // ---------------------------------------------------------------------------
  // Duration handlers
  // ---------------------------------------------------------------------------

  /** A preset chip of `m` minutes sets the duration outright. */
  function PresetChip(m: int): (durationMs: int)
    ensures durationMs / MsPerMinute == m && durationMs % MsPerMinute == 0
  {
    m * MsPerMinute
  }

  /** Typing `v` custom minutes changes the duration only for a positive value. */
  function CustomMinutes(durationMs: int, v: int): (r: int)
    ensures v > 0 ==> r / MsPerMinute == v && r % MsPerMinute == 0 && r >= MsPerMinute
    ensures v <= 0 ==> r == durationMs
  {
    if v > 0 then v * MsPerMinute else durationMs
  }

  function Tels(f: Form): seq<string> {
    [f.tel1, f.tel2, f.tel3]
  }

  // ---------------------------------------------------------------------------
  // validate
  // ---------------------------------------------------------------------------

  const ErrDuration: string := "Choose a focus duration (≥ 1 minute)."
  const ErrPin: string := "PIN must be at least 4 digits (numbers only)."
  const ErrHeadRest: string := "Head/eye rest every must be 0 or ≥ 10 min."
  const ErrStandEvery: string := "Stand every must be 0 or ≥ 30 min."
  const ErrStandLen: string := "Stand break length must be ≥ 1 min."
  const ErrPhone: string := "Enter at least one emergency contact."

  /** `!durationMs || durationMs < 60000`. */
  predicate DurationBad(f: Form) {
    f.durationMs == 0 || f.durationMs < MsPerMinute
  }

  /** The trimmed PIN is shorter than 4 or not all digits. */
  predicate PinBad(f: Form) {
    var pin := Trim(f.pinField);
    |pin| < 4 || !AllDigits(pin)
  }

  predicate HeadRestBad(f: Form) {
    f.plan == Custom && f.enableHeadRest && f.microEvery != 0 && f.microEvery < 10
  }

  predicate StandEveryBad(f: Form) {
    f.plan == Custom && f.enableStand && f.standEvery != 0 && f.standEvery < 30
  }

  predicate StandLenBad(f: Form) {
    f.plan == Custom && f.enableStand && f.standLen < 1
  }

  predicate PhonesBad(f: Form) {
    |FilterPhones(Tels(f))| < 1
  }

  function Rule(fires: bool, message: string): seq<string> {
    if fires then [message] else []
  }

  /** The error list `validate` shows, in the order it builds it. */
  function Errors(f: Form): seq<string> {
    Rule(DurationBad(f), ErrDuration)
    + Rule(PinBad(f), ErrPin)
    + Rule(HeadRestBad(f), ErrHeadRest)
    + Rule(StandEveryBad(f), ErrStandEvery)
    + Rule(StandLenBad(f), ErrStandLen)
    + Rule(PhonesBad(f), ErrPhone)
  }

  /** `validate()`. */
  predicate Validate(f: Form) {
    |Errors(f)| == 0
  }

  /** The form passes exactly when: the duration is at least a minute; the trimmed
      PIN is four or more digits; on the custom plan an enabled head-rest interval is
      0 or at least 10, an enabled stand interval 0 or at least 30 and an enabled
      stand length at least 1; and one of the three numbers holds three visible
      characters. */
  lemma ValidateIff(f: Form)
    ensures Validate(f) <==>
      && f.durationMs >= 60000
      && |Trim(f.pinField)| >= 4
      && (forall i :: 0 <= i < |Trim(f.pinField)| ==> '0' <= Trim(f.pinField)[i] <= '9')
      && (f.plan == Custom && f.enableHeadRest ==> f.microEvery == 0 || f.microEvery >= 10)
      && (f.plan == Custom && f.enableStand ==> f.standEvery == 0 || f.standEvery >= 30)
      && (f.plan == Custom && f.enableStand ==> f.standLen >= 1)
      && (HasThreeVisible(f.tel1) || HasThreeVisible(f.tel2) || HasThreeVisible(f.tel3))
  {
    ValidateNoRuleFires(f);
    PhonesGoodIff(f);
  }

  /** `validate` returns true exactly when none of its rules fires. */
  lemma ValidateNoRuleFires(f: Form)
    ensures Validate(f) <==>
      !DurationBad(f) && !PinBad(f) && !HeadRestBad(f) && !StandEveryBad(f) && !StandLenBad(f) && !PhonesBad(f)
  {
  }

  lemma PhonesGoodIff(f: Form)
    ensures !PhonesBad(f) <==> HasThreeVisible(f.tel1) || HasThreeVisible(f.tel2) || HasThreeVisible(f.tel3)
  {
    PhoneOkIff(f.tel1);
    PhoneOkIff(f.tel2);
    PhoneOkIff(f.tel3);
    var t := Tels(f);
    assert t[0] == f.tel1 && t[1] == f.tel2 && t[2] == f.tel3;
    if PhoneOk(f.tel1) {
      assert f.tel1 in FilterPhones(t);
    } else if PhoneOk(f.tel2) {
      assert f.tel2 in FilterPhones(t);
    } else if PhoneOk(f.tel3) {
      assert f.tel3 in FilterPhones(t);
    } else {
      assert t[1..] == [f.tel2, f.tel3] && t[1..][1..] == [f.tel3] && t[1..][1..][1..] == [];
      assert FilterPhones(t[1..][1..]) == FilterPhones([]) == [];
      assert FilterPhones(t[1..]) == [];
      assert FilterPhones(t) == [];
    }
  }

  lemma InRule(x: string, fires: bool, message: string)
    ensures x in Rule(fires, message) <==> fires && x == message
  {
  }

  /** The six messages are pairwise different. */
  lemma MessagesDistinct()
    ensures ErrDuration != ErrPin && ErrDuration != ErrHeadRest && ErrDuration != ErrStandEvery
    ensures ErrDuration != ErrStandLen && ErrDuration != ErrPhone
    ensures ErrPin != ErrHeadRest && ErrPin != ErrStandEvery && ErrPin != ErrStandLen && ErrPin != ErrPhone
    ensures ErrHeadRest != ErrStandEvery && ErrHeadRest != ErrStandLen && ErrHeadRest != ErrPhone
    ensures ErrStandEvery != ErrStandLen && ErrStandEvery != ErrPhone && ErrStandLen != ErrPhone
  {
    assert ErrDuration[1] == 'h';
    assert ErrPin[1] == 'I';
    assert ErrHeadRest[1] == 'e';
    assert ErrPhone[1] == 'n';
    assert ErrStandEvery[1] == 't';
    assert ErrStandLen[1] == 't';
    assert ErrStandEvery[6] == 'e';
    assert ErrStandLen[6] == 'b';
  }

  /** Each message is listed exactly when its rule fires. */
  lemma ErrorListedIff(f: Form)
    ensures ErrDuration in Errors(f) <==> DurationBad(f)
    ensures ErrPin in Errors(f) <==> PinBad(f)
    ensures ErrHeadRest in Errors(f) <==> HeadRestBad(f)
    ensures ErrStandEvery in Errors(f) <==> StandEveryBad(f)
    ensures ErrStandLen in Errors(f) <==> StandLenBad(f)
    ensures ErrPhone in Errors(f) <==> PhonesBad(f)
  {
    MessagesDistinct();
    var msgs := [ErrDuration, ErrPin, ErrHeadRest, ErrStandEvery, ErrStandLen, ErrPhone];
    forall m | m in msgs
      ensures m in Errors(f) <==>
        || (DurationBad(f) && m == ErrDuration) || (PinBad(f) && m == ErrPin)
        || (HeadRestBad(f) && m == ErrHeadRest) || (StandEveryBad(f) && m == ErrStandEvery)
        || (StandLenBad(f) && m == ErrStandLen) || (PhonesBad(f) && m == ErrPhone)
    {
      InRule(m, DurationBad(f), ErrDuration);
      InRule(m, PinBad(f), ErrPin);
      InRule(m, HeadRestBad(f), ErrHeadRest);
      InRule(m, StandEveryBad(f), ErrStandEvery);
      InRule(m, StandLenBad(f), ErrStandLen);
      InRule(m, PhonesBad(f), ErrPhone);
    }
    assert ErrDuration in msgs && ErrPin in msgs && ErrHeadRest in msgs;
    assert ErrStandEvery in msgs && ErrStandLen in msgs && ErrPhone in msgs;
  }

  // ---------------------------------------------------------------------------
  // Submit
  // ---------------------------------------------------------------------------

  /** The break-plan values `(microEveryMin, standEveryMin, standLenMin)`. */
  datatype Breaks = Breaks(microEveryMin: int, standEveryMin: int, standLenMin: int)

  /** `+v || d`: an empty field (read as 0) falls back to `d`. */
  function OrDefault(v: int, d: int): int {
    if v == 0 then d else v
  }

  /** The plan table of the submit handler. An unchecked toggle forces its values
      to 0; on the custom plan an enabled stand length is never below 1. */
  function PlanBreaks(f: Form): (b: Breaks)
    ensures b.microEveryMin >= 0 && b.standEveryMin >= 0
    ensures !f.enableHeadRest ==> b.microEveryMin == 0
    ensures !f.enableStand ==> b.standEveryMin == 0 && b.standLenMin == 0
    ensures f.enableStand <==> b.standLenMin >= 1
  {
    match f.plan
    case Pomodoro =>
      Breaks(if f.enableHeadRest then 20 else 0,
             if f.enableStand then 25 else 0,
             if f.enableStand then 5 else 0)
    case FiftyTen =>
      Breaks(if f.enableHeadRest then 20 else 0,
             if f.enableStand then 50 else 0,
             if f.enableStand then 10 else 0)
    case Custom =>
      Breaks(if f.enableHeadRest then Max(0, f.microEvery) else 0,
             if f.enableStand then Max(0, f.standEvery) else 0,
             if f.enableStand then Max(1, OrDefault(f.standLen, 3)) else 0)
  }

  /** The preset plans, toggle by toggle: a head-rest interval of 20 on either
      preset, stand 25/5 on pomodoro and 50/10 on 50/10; the custom fields are
      ignored. */
  lemma PresetPlans(f: Form)
    ensures f.plan != Custom && f.enableHeadRest ==> PlanBreaks(f).microEveryMin == 20
    ensures f.plan == Pomodoro && f.enableStand ==> PlanBreaks(f).standEveryMin == 25 && PlanBreaks(f).standLenMin == 5
    ensures f.plan == FiftyTen && f.enableStand ==> PlanBreaks(f).standEveryMin == 50 && PlanBreaks(f).standLenMin == 10
    ensures f.plan != Custom ==> PlanBreaks(f) == PlanBreaks(f.(microEvery := 0, standEvery := 0, standLen := 0))
  {
  }

  /** On a validated custom form the plan carries the typed values unchanged. */
  lemma CustomPlanKeepsValidValues(f: Form)
    requires Validate(f) && f.plan == Custom
    ensures f.enableHeadRest ==> PlanBreaks(f).microEveryMin == f.microEvery
    ensures f.enableStand ==> PlanBreaks(f).standEveryMin == f.standEvery
    ensures f.enableStand ==> PlanBreaks(f).standLenMin == f.standLen
  {
    assert !HeadRestBad(f) && !StandEveryBad(f) && !StandLenBad(f) by {
      assert Errors(f) == [];
    }
  }

  /** What a successful submit leaves behind: the configuration in session
      storage, when the page has a sound switch `String(!!checked)` under the
      sound-enabled key, and whether the sound-expected flag is set. */
  datatype Handoff = Handoff(config: Config, soundEnabled: Option<string>, expectSound: bool)

  /** The submit handler: nothing when validation fails, otherwise the
      configuration built from the form. */
  function Submit(f: Form): (r: Option<Handoff>)
    ensures r.Some? <==> Validate(f)
    ensures r.Some? ==> r.value.config.pin == Trim(f.pinField)
    ensures r.Some? ==> r.value.config.emergency == FilterPhones(Tels(f))
    ensures r.Some? ==> 1 <= |r.value.config.emergency| <= 3
    ensures r.Some? ==> r.value.config.durationMs >= MsPerMinute
    ensures r.Some? ==> |r.value.config.pin| >= 4 && AllDigits(r.value.config.pin)
    ensures r.Some? ==> r.value.config.description == Trim(f.description)
    ensures r.Some? ==> (r.value.soundEnabled.Some? <==> f.soundToggle.Some?)
    ensures r.Some? && f.soundToggle.Some? ==> r.value.soundEnabled == Some(Alerts.FlagText(f.soundToggle.value))
    ensures r.Some? ==> r.value.config.durationMs == f.durationMs
    ensures r.Some? ==> var c := r.value.config;
      && Breaks(c.microEveryMin, c.standEveryMin, c.standLenMin) == PlanBreaks(f)
      && c.enableQuotes == f.enableQuotes
    ensures r.Some? ==> r.value.expectSound
  {
    if !Validate(f) then None
    else
      assert !DurationBad(f) && !PinBad(f) && !PhonesBad(f) by {
        assert Errors(f) == [];
      }
      var b := PlanBreaks(f);
      var cfg := Config(
        f.durationMs,
        Trim(f.pinField),
        f.enableQuotes,
        b.microEveryMin,
        b.standEveryMin,
        b.standLenMin,
        FilterPhones(Tels(f)),
        Trim(f.description));
      var sound := match f.soundToggle
        case None => None
        case Some(checked) => Some(Alerts.FlagText(checked));
      Some(Handoff(cfg, sound, true))
  }

  /** On a validated custom form an enabled head-rest interval is 0 or at least
      10 minutes and an enabled stand interval 0 or at least 30. */
  lemma SubmittedCustomIntervals(f: Form)
    requires Submit(f).Some? && f.plan == Custom
    ensures var c := Submit(f).value.config;
      && (c.microEveryMin == 0 || c.microEveryMin >= 10)
      && (c.standEveryMin == 0 || c.standEveryMin >= 30)
  {
    CustomPlanKeepsValidValues(f);
  }
}

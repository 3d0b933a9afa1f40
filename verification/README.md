# LockedIn focus timer — a Dafny model

LockedIn is a browser focus timer. Its setup page validates a form and hands a
session configuration to the timer page. The timer page counts the session
down, pauses it for scheduled head/eye-rest and stand breaks, and keeps every
way out of a running session behind a PIN sheet. It stores finished and ended
sessions in a capped history, which the history page lists, clears and exports
as CSV. An optional alert bridge plays sounds. It pauses the timer for a break
and asks the user whether to take the break or keep focusing.

This project models that logic as pure functions over immutable records and
proves properties of them. Two things are parameters:

- the clock reading `now`;
- the ISO date written into each history entry.

The modules, one concern each:

| module | file | what it holds |
|---|---|---|
| `Core` | core.dfy | `Option`, integer `Max`/`Min`, the alert kinds |
| `Text` | text.dfy | JavaScript white space, `replace(/\s+/g,'')`, `trim()`, digit strings |
| `Decimal` | decimal.dfy | `String(n)` for integers, padding to two digits, and a reader for both |
| `Clock` | clock.dfy | `fmt` (milliseconds to `HH:MM:SS`) and `Math.round(ms/60000)` |
| `Phone` | phone.dfy | `phoneOk`, the phone filter, the `tel:` link |
| `Csv` | csv.dfy | the export's quoting and joining, and a reader for it |
| `Html` | html.dfy | `escapeHtml` and its inverse |
| `History` | history.dfy | the 200-entry cap, append, clear, the CSV export |
| `SessionConfig` | config.dfy | the configuration record passed from setup to timer |
| `Setup` | setup.dfy | duration handlers, `validate`, the break-plan table, the submit handler |
| `Timer` | timer.dfy | the session state machine, the break scheduler, the PIN sheet, boot |
| `SessionRuns` | session_runs.dfy | properties of arbitrary sequences of timer events |
| `Alerts` | alerts.dfy | the alert bridge: settings, control slots, sounds, prompts |
| `App` | app.dfy | the timer with the bridge, and the setup-to-timer hand-off |

The timer page without the bridge is `Timer`. With the bridge it is `App`: a
due break calls `trigger`, which pauses the timer through its registered
control and opens a prompt. The prompt's buttons then call back into the timer.

The model follows the code as written, including three quirks:

- `resumeSession` does not put the phase back to focus. After a guided break
  is taken, no further break fires until the session is reset.
- `endAndNavigate` computes the minutes from the deadline even while paused.
  Time spent paused therefore counts as focus time.
- The stand-break length is never used for timing.

Resuming therefore does not end a guided break as far as the scheduler is
concerned; only starting or resetting the session returns to the focus phase.

## Model

| member | source | states |
|---|---|---|
| Clock.Fmt | timer.js:51-57 | the text reads as hours, minutes and seconds with minutes and seconds below 60, each field at least two digits, adding up to the whole seconds shown (0 for negative input); eight characters below 100 hours |
| Clock.FmtUnderOneSecond | timer.js:52 | anything under one second, negative values included, shows `00:00:00` |
| Clock.RoundMinutes | timer.js:431 | the result is the whole number of minutes nearest to the input, halves rounding up |
| Clock.RoundMinutesWhole | timer.js:431 | a whole number of minutes rounds to itself |
| Text.StripSpaces | timer.js:58 | removing white space leaves no white space and never lengthens the text |
| Text.ThreeVisibleIff | setup.js:32 | at least three characters remain after removing white space exactly when the text holds three characters that are not white space |
| Text.Trim | setup.js:42 | the result is the text with its maximal leading and trailing white space removed |
| Text.TrimIdempotent | setup.js:127 | trimming a trimmed text changes nothing |
| Phone.PhoneOkIff | timer.js:58 | a number passes exactly when it holds three characters that are not white space |
| Phone.FilterPhones | setup.js:56 | the filter keeps exactly the inputs that pass, at most as many as given |
| Phone.FilterThree | setup.js:132 | the filter of the three fields keeps those that pass, in field order |
| Phone.TelHref | timer.js:485 | a link is `tel:` followed by the number with no white space |
| Decimal.IntToStringRoundTrip | history.js:22-23 | the decimal text of a minutes value reads back as that value |
| Decimal.PadStart2 | timer.js:53-55 | padding gives at least two characters and keeps the number the digits denote |
| History.Save | history.js:2 | the saved list is the last `min(200, n)` entries, in order |
| History.SaveIdempotent | timer.js:92 | saving a saved list changes nothing |
| History.Add | timer.js:93 | the new entry is last, the rest is the most recent part of the old list, and the list never exceeds 200 |
| History.AddAllKeepsLatest | timer.js:92-93 | appending any number of entries one by one leaves the last 200 of the old list followed by all of them |
| History.ExportCsv | history.js:20-23 | reading the export back gives the header row followed by one five-field row per entry, in stored order |
| History.ExportedRowDecodes | history.js:22 | each row decodes to the entry's date, minutes, outcome, label and description; a missing label or description exports as empty |
| History.Clear | history.js:29-33 | confirming empties the stored list; cancelling leaves it as it was |
| History.ClearExport | history.js:29-33 | a confirmed clear leaves only the header in the export; an unconfirmed one changes nothing |
| Csv.FieldRoundTrip | history.js:23 | a field wrapped in quotes with its quotes doubled reads back as the value |
| Csv.CsvRoundTrip | history.js:23 | records joined by commas and line feeds read back as the same records |
| Html.EscapeHtmlSafe | history.js:35 | the escaped text holds no raw `< > " '`, and every `&` begins one of the five references |
| Html.EscapeHtmlPlain | timer.js:600 | text without the five special characters is returned unchanged |
| Html.EscapeHtml | history.js:35 | decoding the five references in the escaped text gives back the original text |
| Setup.PresetChip | setup.js:71-72 | a preset of `m` minutes sets a duration of exactly `m` whole minutes |
| Setup.CustomMinutes | setup.js:76-82 | a positive custom value sets that many whole minutes; any other value leaves the duration unchanged |
| Setup.ValidateIff | setup.js:40-61 | the form validates exactly when no rule fires: a duration of at least one minute, a trimmed PIN of four or more digits, the custom break bounds when their toggles are on, and one passing phone |
| Setup.ErrorListedIff | setup.js:44-57 | each rule's message is listed exactly when that rule fires, and the six messages are distinct |
| Setup.PlanBreaks | setup.js:92-109 | plan values are never negative, an unchecked toggle zeroes its values, and the stand length is at least 1 exactly when stand breaks are on |
| Setup.PresetPlans | setup.js:94-103 | toggle by toggle: an enabled head-rest break comes every 20 minutes on either preset; enabled stand breaks are 25/5 on pomodoro and 50/10 on 50/10; the custom fields are ignored |
| Setup.CustomPlanKeepsValidValues | setup.js:104-109 | on a validated custom form the plan carries the typed values unchanged |
| Setup.Submit | setup.js:87-138 | a configuration exists exactly when the form validates; its PIN and description are trimmed, its phones are the order-preserving filter (one to three), its duration is the form's and at least a minute, its break values are the plan's and its quotes flag the form's; the sound flag is written as `true`/`false` when the switch exists, and the sound-expected flag is always set |
| Setup.SubmittedCustomIntervals | setup.js:51-52 | a submitted custom plan has head-rest 0 or at least 10 and stand 0 or at least 30 |
| Timer.ScheduleBreaks | timer.js:244-248 | each trigger is set one interval after now exactly when its interval is nonzero, independently of the other; nothing else changes |
| Timer.FirstMicroBreakAfterOneInterval | timer.js:246 | after a start the micro break is due exactly from one interval later on |
| Timer.TriggersIndependent | timer.js:246-247 | each trigger does not depend on the other's interval |
| Timer.DueBreak | timer.js:321-336 | no break while paused; the micro break is checked before the stand break; a break is due only in the focus phase once its trigger time is reached |
| Timer.MaybeTriggerBreak | timer.js:321-337 | a due break pauses the session, sets its phase and moves only its own trigger one interval on from the scheduled value; nothing happens when none is due |
| Timer.BeginGuidedBreak | timer.js:340-348 | head-rest and generic breaks enter the micro phase, stand the stand phase, any other kind changes nothing; only the phase changes |
| Timer.Complete | timer.js:423-436 | the first time the clock reads zero the completion entry is stored once, the interval stops and the sheet closes |
| Timer.CompletedEntry | timer.js:431-432 | the completion entry says `Completed`, label `Focus`, and the duration rounded to minutes |
| Timer.Tick | timer.js:417-437 | the time left is the deadline minus now, never negative; completion runs only when it had not run before, appending exactly the completion entry |
| Timer.Start | timer.js:440-453 | the session runs from the full duration with a deadline that far from now, in the focus phase, with breaks scheduled; `timeupHandled` is kept |
| Timer.Pause | timer.js:454-462 | no-op when paused; otherwise paused, interval stopped, time left frozen at the deadline minus now, never negative |
| Timer.Resume | timer.js:463-472 | only a configured paused session resumes, with deadline now plus the frozen time left; the phase is untouched |
| Timer.PauseResumeIdempotent | timer.js:454-472 | pausing twice is pausing once, and resuming twice is resuming once |
| Timer.PauseThenResume | timer.js:454-472 | pause at t1 then resume at t2 sets the deadline to t2 plus the time left at t1, keeping phase and triggers |
| Timer.Reset | timer.js:473-479 | the session is dropped without recording anything and the page goes to setup; the pending action is kept |
| Timer.PhaseChanges | timer.js:340-348 | only a guided break leaves the focus phase; start and reset return to it; resuming never does |
| Timer.StandLengthUnused | timer.js:244-248 | starting and ticking do not depend on the stand-break length |
| Timer.ElapsedMinutes | timer.js:401 | the minutes recorded are the duration less the time to the deadline, rounded |
| Timer.EndEntry | timer.js:402-408 | the entry's label is `Focus` exactly in the focus phase and `Break` otherwise; an empty outcome reads `Ended via PIN` |
| Timer.EndAndNavigate | timer.js:400-414 | the end entry is appended, everything stops and the page navigates |
| Timer.EndWhilePausedCountsPause | timer.js:401 | ending a paused session records focused time plus paused time |
| Timer.EndWhilePausedExample | timer.js:401 | a session paused at once and ended ten minutes later records 10 minutes |
| Timer.OpenSheet | timer.js:491-495 | the sheet opens with the action pending |
| Timer.CloseSheet | timer.js:496 | the sheet closes and the pending action is cleared |
| Timer.SubmitPin | timer.js:502-520 | whatever is entered, the break triggers and the completion flag stay as they were, no PIN action starts a break, and a well-formed session stays well formed |
| Timer.WrongPinChangesNothing | timer.js:502-519 | a wrong PIN changes nothing, the pending action included |
| Timer.CorrectPinDispatch | timer.js:502-516 | the right PIN carries out exactly the pending action with its outcome text and destination; reset records nothing; no action only closes |
| Timer.Press | timer.js:524-567 | no click changes the phase, the break triggers or the completion flag, and a well-formed session stays well formed |
| Timer.ControlsNeedPin | timer.js:524-567 | on a configured session no control ends, resets, pauses or navigates; each opens the sheet for its action, except resume on a paused session |
| Timer.ControlsWithoutSession | timer.js:524-567 | without a session the links navigate at once, pause/resume and end do nothing, and reset and emergency still open the sheet |
| Timer.EmergencyLinks | timer.js:482-490 | one link per passing number, in order, or the single `tel:911` when none passes |
| Timer.EmergencyLinksDial | timer.js:485-488 | every link is `tel:` followed by at least three characters and no white space |
| Timer.Boot | timer.js:575-587 | with a stored configuration that has a nonzero duration, a PIN and a phone, the session starts; otherwise the page goes to setup |
| Timer.StartWellformed | timer.js:440-453 | the initial, started and booted sessions are well formed |
| SessionRuns.RunKeepsWellformed | timer.js:417-520 | every sequence of events keeps a session well formed: running implies a deadline, the interval runs only unpaused, an unstarted session is paused |
| SessionRuns.CompletionAtMostOnce | timer.js:423-424 | over any sequence of events the completion block runs at most once |
| SessionRuns.TicksRecordOneCompletion | timer.js:423-432 | any number of ticks store at most one completion entry |
| SessionRuns.MicroTriggerOnGrid | timer.js:244-328 | the micro trigger always lies a whole number of intervals after its origin, so breaks do not drift however late ticks come |
| SessionRuns.BreakPhaseSticks | timer.js:321-348 | once a guided break has begun, no event short of the PIN sheet brings back the focus phase, so no further break fires |
| Alerts.LoadSettings | alerts.js:80-85 | sound is on when the key is unset, otherwise on exactly when the stored text is `true` |
| Alerts.EnabledRoundTrip | alerts.js:87-90 | what `setEnabled(v)` stores reads back as `v` |
| Alerts.Clamp | alerts.js:233 | with `min <= max` the result lies in `[min, max]`: a value inside is kept, one below is raised to `min`, one above is lowered to `max` |
| Alerts.RegisterControls | alerts.js:97-102 | each slot takes the offered function or keeps the one it had |
| Alerts.RegisterTwice | alerts.js:97-102 | registering twice is registering the slot-by-slot merge, the later offer winning; an empty offer changes nothing |
| Alerts.Play | alerts.js:133-171 | muted, only a vibration, the longer one for time-up; otherwise the kind's tones; no timer call |
| Alerts.TimeupOnlyRings | alerts.js:178-182 | time-up only plays its sound, at once: no timer call, no prompt and nothing left for a later frame |
| Alerts.OtherKindsPauseFirst | alerts.js:184-196 | any other kind calls `pauseTimer` and no other handler at once; its sound, left for the next animation frame, calls nothing; then the prompt is open |
| Alerts.SinglePrompt | alerts.js:199-218 | while a prompt is open a new one is not shown, and every button closes it |
| Alerts.ShowPrompt | alerts.js:199-201 | a prompt opens for the kind only when none is open; an open one is kept as it is |
| Alerts.Trigger | alerts.js:175-197 | time-up plays its sound at once; any other kind calls `pauseTimer` at once, leaves the kind's sound for the next animation frame, and opens its prompt unless one is open; audio ends up unlocked and the sound flag and controls are kept |
| Alerts.Press | alerts.js:216-221 | a button or Escape closes the prompt and calls at most one handler; with no prompt open nothing is called |
| Alerts.PressDispatch | alerts.js:194-221 | the primary button calls `startBreak` with the prompt's kind; secondary and Escape call `resumeTimer`; nothing happens with no prompt |
| App.Perform | timer.js:258-262 | the effects passed on are exactly the non-call effects, in order; no handler touches the history, the completion flag, the duration or the triggers, nor the time left that `tick` just read; a list without calls changes nothing |
| App.PerformFront | timer.js:258-262 | a handler call in front is carried out on the session before the rest; any other effect in front is passed on first |
| App.PerformAppend | timer.js:258-262 | carrying out two lists one after the other is carrying out their concatenation |
| App.FireBreak | timer.js:321-337 | with the bridge a due break keeps the history, the completion flag and the time left just read, and signals nothing at once: the break's sound is left for the next animation frame; with none due nothing changes |
| App.Tick | timer.js:417-437 | with or without the bridge the completion block runs exactly when the deadline has passed and it had not run; only then does the history change, gaining the completion entry, and with the bridge the time-up sound directly follows what was signalled before the tick |
| App.PressPrompt | alerts.js:216-221 | answering the prompt closes it, signals nothing and leaves the history, the completion flag and the triggers; with no prompt open nothing changes |
| App.Boot | timer.js:575-587 | the page boots as the timer alone does; with the bridge and a started session the controls are registered, otherwise the bridge stays fresh |
| App.InitAlerts | timer.js:251-266 | after `initAlerts` the timer's four controls are registered and the sound flag is the stored one |
| App.SubmitPassesBoot | timer.js:580 | every configuration the setup page submits passes the timer page's boot check |
| App.SetupToRunningPage | setup.js:87-138 | a submitted form's hand-off boots a running session of the form's duration, with audio unlocked because the hand-off asks for sound, the controls registered and the sound switch's setting |
| App.NoBridgeIsTimer | timer.js:325-334 | without the bridge the page behaves as the fallback timer |
| App.MicroBreakOpensPrompt | timer.js:324-328 | with the bridge a due micro break pauses the session but keeps the focus phase, opens a head-rest prompt and stores nothing |
| App.BridgeMicroFields | timer.js:324-328 | with the bridge a due micro break moves the micro trigger one interval on from its scheduled value, keeps the stand trigger and freezes the time left at what the deadline leaves |
| App.FallbackMicroBreak | timer.js:324-328 | without the bridge the same tick enters the micro phase with the same three values, so both paths schedule the next break identically and only the fallback starts the break |
| App.AnswerPrompt | alerts.js:217-220 | the primary button begins the guided break; secondary and Escape resume with the frozen time left; the prompt closes |
| App.CompletionRings | timer.js:425-437 | on the completing tick of a running session with no break due, the completion entry is stored and only the time-up sound is added to the signals |
| App.CompletionRingsAfterPrompt | timer.js:417-437 | a break due on the completing tick pauses the page and opens its prompt, and the same tick still completes: the time-up sound at once, then the break's sound at the next animation frame |
| App.CompletionRingsOnce | timer.js:425-434 | over any run of ticks, prompt answers and page controls, the completion block and its sound run at most once, and never again after they have run |
| App.RingingStepIsTick | timer.js:425-434 | with the bridge loaded only a tick runs the completion block, and its time-up sound directly follows what was signalled before |
| App.BridgeRunRecordsOneCompletion | timer.js:425-434 | over any run of ticks and prompt answers the history gains at most the one completion entry for the session's duration |

## Left out

- Rendering and the DOM are not modelled: `updateUI`, the progress bar, quote panels, the completion prompt's markup, toasts, lock animation, history rendering and the keypad. The model keeps what they show (the page state) and the markup escaping.
- Browser capabilities are left out: wake lock, fullscreen and `navigator.vibrate`. `onbeforeunload` is a flag, navigation is a field, and vibrations and tones are effect tokens.
- Timers are not modelled. `setInterval`, `setTimeout` and `requestAnimationFrame` are replaced by the caller applying `Tick` with its own clock readings. The break sound that `trigger` defers with `requestAnimationFrame` is made at the end of the same tick, after the completion block's time-up sound, as the next frame would; anything that happens between the tick and that frame, and frames held back in a background tab, are not modelled.
- Storage is not modelled. Local and session storage and JSON are left out: the history is the list it holds, and the configuration is a record or absent.
- Web Audio is left out: tone synthesis, `AudioContext` creation and resumption, `ensureAudioReady` and its tap nudge, and the volume setting with its float parsing. `init` is modelled only as setting the unlocked flag.
- Form number parsing is left out. Fields arrive as integers, an empty or unreadable field as 0. Fractional minutes are not modelled.
- ISO date generation and `toLocaleString` are left out; the date is a string parameter.
- landing.js is not part of this model.
- Break plans other than the three selector values are not modelled.
- The sound toggle pill on the timer page is not modelled separately; `Alerts.SetEnabled` and `Alerts.LoadSettings` cover its storage behaviour.
- Alerts.Play: states the muted vibrations exactly, but for the enabled case only that the kind's tones are played. The enabled vibration patterns are in its body.
- App.SetupToRunningPage: states the sound flag only when the form had a sound switch, because otherwise the stored flag is whatever an earlier page left.
- String lengths count characters (code points), while JavaScript's `.length` counts UTF-16 code units. So `phoneOk` and the PIN length check differ from the program on text outside the Basic Multilingual Plane: two emoji pass `phoneOk` in the program but not in the model.
- Numbers are unbounded integers and reals rather than IEEE doubles: rounding, overflow beyond 2^53 and `NaN` are not modelled.
- Alerts.Clamp: works on reals, so the `n || 0` fallback for `NaN` (and for `0`, which changes nothing) is not modelled.

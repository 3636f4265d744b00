# Spin-the-wheel play-through, modelled in Dafny

The page lets a visitor spin a prize wheel once per play-through. The model covers three parts of it.

- **The controller in `App.tsx`.** It owns the game phase (IDLE, SPINNING, WON, COLLECTING_DATA, SUCCESS), the prize won and the wheel's absolute rotation. When a spin starts, it draws a prize index from a uniform sample. It sends the wheel to a target rotation chosen so that the pointer at the top stops on the centre of the drawn segment. Two timer continuations then record the prize and open the data form. Submitting or skipping the form leads to the success view, and "back to home" resets the game.
- **The wheel in `components/SpinWheel.tsx`.** It draws `size` equal segments clockwise from the top and turns the whole wheel by the rotation it is given.
- **The lead-capture form in `components/DataModal.tsx`.** It holds a draft record and a consent checkbox. Submitting forwards the draft only with consent. Skipping is always possible.

Modules:

- `GameTypes` (`game_types.dfy`): the value types `Prize`, `GameState` and `Config`.
- `Degrees` (`degrees.dfy`): exact angle arithmetic over `real`. It covers whole turns, the whole-turn base of a rotation, and reduction into [0, 360).
- `Wheel` (`wheel.dfy`): the segment layout, the label angles, and the segment that sits under the pointer at a given rotation.
- `Targeting` (`targeting.dfy`): the draw `floor(r * n)`, the target-rotation formula, and what they guarantee.
- `App` (`app.dfy`): class `Game`, with one method per event.
  - The spin button: `SpinStart`.
  - The two timer continuations: `SpinTimerFires` and `CelebrationTimerFires`.
  - The form's two exits: `FormSubmit` and `Skip`, both reached through `HandleModal`.
  - Back to home: `Reset`.
  - The object invariant `Valid()`. In IDLE the wheel is at rest at 0. Outside IDLE it ties the resting position of a wheel of `|prizes|` segments, the pending timer and the won prize to the drawn index.
  - `PlayThrough`: a whole play-through wired as the page wires it.
- `DataModal` (`data_modal.dfy`): class `ConsentForm` (`SetField`, `SetConsent`, `Submit`, `Skip`), plus the pure `Edit` and `Gate` that specify it.

Modelling decisions:

- The page's render guards become the preconditions of the handlers that the guarded buttons call:
  - the loading screen before the configuration arrives (App.tsx:82);
  - the disabled spin button (App.tsx:123);
  - the form, shown only in COLLECTING_DATA with a prize (App.tsx:184);
  - the success view, shown only in SUCCESS with a prize (App.tsx:192).
- `handleSpinStart` keeps its own guard (App.tsx:28) as a branch that changes nothing. The model adds one condition to it, an empty prize list (see "## Findings").
- The two `setTimeout` continuations are explicit pending-event fields. `spinTimer` holds the prize the continuation captured. `celebrationTimer` records whether the second continuation is pending.
- `Math.random()` is the parameter `r`, with `0 <= r < 1`.
- Angles are exact `real`s.
- `Prize.label` is named `labelText`, because `label` is a Dafny keyword.

Four consequences of the code that the model makes explicit:

- **Empty prize list.** The code does not refuse a spin over an empty list, and the game is then stranded (see "## Findings"). The model keeps that path as `App.CapturedPrizeAsWritten` and `App.EmptyPrizeListStrandsGame`. `Game.SpinStart` refuses such a spin instead, and `App.NeverStranded` proves that no reachable state is stranded.
- **Handlers outside their phase.** The submit, skip and reset handlers (App.tsx:54-61, 75-80) have no guard of their own. They cannot run outside their phase only because their buttons are not rendered (App.tsx:184, 192). The model states that render guard as their precondition.
- **Timers after a reset.** The timer continuations (App.tsx:45-51) cannot be cancelled. Still, none can fire after a reset: reset is reachable only from SUCCESS, and `Valid()` proves that no timer is pending there.
- **Every spin starts from rest.** A spin is only possible in IDLE. IDLE is entered only at mount or by `resetGame`, and both set the rotation to 0 (App.tsx:11, 78). So `currentRotationBase` (App.tsx:40) is always 0 in practice. The `Targeting` lemmas are stated for any starting rotation.

## Model

| member | source | states |
|---|---|---|
| Degrees.TurnBase | App.tsx:40 | `floor(rotation/360)*360` is a whole number of turns, at most the rotation and within one turn below it |
| Wheel.WheelPrizes | components/SpinWheel.tsx:10-17 | the wheel's own six prizes in drawing order; `SixSegmentsOfSixty` states their count and the resulting step |
| Wheel.StartAngle | components/SpinWheel.tsx:75 | where segment i begins; specified by `SegmentsTile` |
| Wheel.EndAngle | components/SpinWheel.tsx:76 | where segment i ends; specified by `SegmentsTile` |
| Wheel.LabelAngle | components/SpinWheel.tsx:97 | where segment i's label is drawn; specified by `LabelIsMidpoint`, `LabelWithinTurn` and `SegmentAtLabel` |
| Wheel.Step | components/SpinWheel.tsx:19-20 | a segment's width is positive, and `size` segments make exactly one turn |
| Wheel.SixSegmentsOfSixty | components/SpinWheel.tsx:10-20 | the hard-coded list has six prizes, so each segment is 60 degrees |
| Wheel.SegmentsTile | components/SpinWheel.tsx:75-76 | segment 0 starts at 0; segment i ends where segment i+1 starts; every segment has positive width; the last one ends at 360 |
| Wheel.LabelIsMidpoint | components/SpinWheel.tsx:97 | a label sits at the midpoint of its segment, strictly inside it |
| Wheel.LabelWithinTurn | components/SpinWheel.tsx:74-97 | the label angle of every existing segment lies strictly between 0 and 360 |
| Wheel.SegmentAt | components/SpinWheel.tsx:74-76 | every angle in [0, 360) is covered by a segment that exists, and the angle lies within that segment's span |
| Wheel.SegmentAtLabel | components/SpinWheel.tsx:74-97 | the segment covering segment i's label angle is segment i |
| Wheel.PointerAngle | components/SpinWheel.tsx:52-54 | after the wheel is rotated by `rotation`, the wheel angle under the top pointer is in [0, 360) and differs from `-rotation` by whole turns |
| Wheel.SegmentUnderPointer | components/SpinWheel.tsx:52-54 | the segment shown under the top pointer at a given rotation is an existing segment |
| Wheel.PointerOnLabel | components/SpinWheel.tsx:38-54 | the pointer rests on segment i's label iff rotation plus that label angle is a whole number of turns; then segment i is the one under the pointer |
| Targeting.Target | App.tsx:35-41 | the target-rotation formula; what it guarantees is stated by `TargetAimsAtLabel`, `TargetMovesForward`, `TargetExtraTurns`, `TargetCentresSegment`, `TargetResidue` and `TargetLandsOnDrawn` below |
| Targeting.DrawIndex | App.tsx:32 | for a sample in [0, 1) and n >= 1 prizes, `floor(r*n)` is a valid index in [0, n) |
| Targeting.DrawIndexInterval | App.tsx:32 | index i is drawn iff r lies in [i/n, (i+1)/n), so every index owns an interval of width 1/n (a uniform draw) |
| Targeting.TargetAimsAtLabel | App.tsx:35-41 | the centre App aims at, `i*slice + slice/2`, is SpinWheel's label angle for segment i |
| Targeting.TargetMovesForward | App.tsx:38-41 | the target rotation is strictly greater than the current rotation: the wheel only spins forward |
| Targeting.TargetExtraTurns | App.tsx:36-41 | measured from the current whole-turn base, the spin is more than 10 and less than 11 turns, and the target's own base is exactly 10 turns further on |
| Targeting.TargetCentresSegment | App.tsx:38-41 | target plus the centre of the drawn segment is a whole number of turns |
| Targeting.TargetResidue | App.tsx:40-41 | target modulo 360 is `360 - centre`, whatever turns were accumulated before |
| Targeting.TargetLandsOnDrawn | App.tsx:38-41 | at the target rotation the pointer is exactly on the drawn segment's label, and that segment is the one shown |
| Targeting.SixPrizeExample | App.tsx:35-41 | six prizes, index 3, from rest at 0: target 3750, which is 150 modulo 360 |
| App.SpinButtonLive | App.tsx:123 | the spin button is enabled exactly in IDLE |
| App.ModalShown | App.tsx:184 | the data form is rendered exactly in COLLECTING_DATA with a prize set |
| App.SuccessShown | App.tsx:192 | the success view is rendered exactly in SUCCESS with a prize set |
| App.Game.SpinEnabled | App.tsx:28 | a spin does anything exactly when the configuration is loaded, the prize list is non-empty (the correction in "## Findings") and the button is enabled |
| App.Game.Valid | App.tsx:27-80 | the invariant all handlers keep: rotation 0 in IDLE; outside IDLE the pointer on the drawn label of a wheel of `|prizes|` segments; the pending or won prize is the drawn one; each timer pending exactly in its phase |
| App.CapturedPrizeAsWritten | App.tsx:31-33 | as written, the captured prize is `prizes[floor(r*n)]`: defined iff the list is non-empty, and then the drawn prize |
| App.Stranded | App.tsx:82-192 | no timer or fetch is pending, and the loaded page renders no enabled spin button, no form and no success view (before loading, only the loading screen exists) |
| App.SpinAsWritten | App.tsx:27-43 | `handleSpinStart` as written: outside IDLE or before the configuration loads nothing changes; otherwise SPINNING with the spin timer holding `prizes[floor(r*n)]`, which is the drawn prize on a non-empty list and undefined on an empty one |
| App.SpinTimerAsWritten | App.tsx:45-47 | the first continuation records whatever prize it captured and sets WON unconditionally, then schedules the second |
| App.CelebrationAsWritten | App.tsx:48-49 | the second continuation sets COLLECTING_DATA unconditionally and keeps the prize |
| App.EmptyPrizeListStrandsGame | App.tsx:27-50 | as written, from a loaded page in IDLE with an empty prize list, the spin captures undefined and the two continuations end in COLLECTING_DATA with no prize and no pending timer, a stranded page |
| App.NonEmptyPrizeListReachesForm | App.tsx:27-50 | as written, on a non-empty list the same three steps end in COLLECTING_DATA with the drawn prize, and the form (App.tsx:184) is shown |
| App.NeverStranded | App.tsx:82-192 | with the empty-list guard, every state the handlers can reach has a pending timer, a pending configuration fetch, or on the loaded page an enabled spin button, the form or the success view |
| App.Game.constructor | App.tsx:8-11 | the page starts with no configuration, IDLE, no prize, rotation 0 and no timers pending |
| App.Game.LoadConfig | App.tsx:15-19 | the configuration arrives once, with any prize list; nothing else changes |
| App.Game.SpinStart | App.tsx:27-43 | if not IDLE, not loaded, or the list is empty: no change. Otherwise: SPINNING; the wheel, at rest at 0, is sent at once to the target for index `floor(r*n)`, which is greater than before; no prize is recorded; the spin timer holds `prizes[i]`; the invariant is kept (pointer on the drawn label) |
| App.Game.SpinTimerFires | App.tsx:45-51 | records the captured prize, enters WON and schedules the celebration timer; rotation and configuration are unchanged |
| App.Game.CelebrationTimerFires | App.tsx:48-50 | WON becomes COLLECTING_DATA and nothing else changes |
| App.Game.FormSubmit | App.tsx:54-57 | reachable only with the form shown; moves to SUCCESS and keeps prize and rotation |
| App.Game.Skip | App.tsx:59-61 | reachable only with the form shown; moves to SUCCESS and keeps prize and rotation |
| App.Game.HandleModal | App.tsx:184-190 | forwarded data and a skip both reach SUCCESS; a submission blocked for want of consent leaves COLLECTING_DATA unchanged |
| App.Game.Reset | App.tsx:75-80 | reachable only from the success view; returns to IDLE with no prize and rotation 0, and the spin button is live again |
| App.PlayThrough | App.tsx:27-61 | a full play-through records `prizes[floor(r*n)]`, leaves that segment under the pointer (the won prize, when the configured list is the wheel's own list), and reaches SUCCESS iff consent was given |
| DataModal.InitialDraft | components/DataModal.tsx:12-22 | the draft the form opens with; its field values are stated by `ConsentForm.constructor` |
| DataModal.SubmitEnabled | components/DataModal.tsx:129 | the submit button's enabled state; `SubmitEnabledIffForwards` ties it to the gate |
| DataModal.Edit | components/DataModal.tsx:66-103 | a change event replaces exactly the edited field; every other field is unchanged |
| DataModal.ReplayLastEditWins | components/DataModal.tsx:62-106 | after any run of change events, each field holds the last value typed into it (or its initial value), and gender and age are untouched |
| DataModal.Gate | components/DataModal.tsx:25-32 | submission forwards exactly the current draft iff consent is given, and is blocked otherwise |
| DataModal.SubmitEnabledIffForwards | components/DataModal.tsx:127-129 | the submit button is enabled exactly when pressing it would forward the draft |
| DataModal.ConsentForm.constructor | components/DataModal.tsx:12-23 | the form opens with empty text fields, gender "Other", size "M", style "Regular Fit", age 25, and no consent |
| DataModal.ConsentForm.SetField | components/DataModal.tsx:66-103 | an edit replaces one field of the draft and leaves consent alone |
| DataModal.ConsentForm.SetConsent | components/DataModal.tsx:112-115 | the checkbox sets consent and leaves the draft alone |
| DataModal.ConsentForm.CanSubmit | components/DataModal.tsx:127-130 | the submit button is enabled iff the gate would forward |
| DataModal.ConsentForm.Submit | components/DataModal.tsx:25-32 | with consent, it returns the current draft as forwarded; without consent, it returns blocked and nothing is forwarded |
| DataModal.ConsentForm.Skip | components/DataModal.tsx:134 | skip always hands back "skipped", whatever the consent value |

## Findings

| source | as written | input that shows it | evidently intended | confidence | as-written member | corrected member |
|---|---|---|---|---|---|---|
| App.tsx:28-50 | `handleSpinStart` checks only the phase and that a configuration exists, then reads `prizes[floor(r * n)]` and divides by `n` | a configuration whose `prizes` is empty: the index is 0, the prize is `undefined` (and the rotation NaN), the timers still move the game to COLLECTING_DATA, and App.tsx:184 then renders no form, so the page is stranded | a spin over an empty prize list is refused and the game stays in IDLE | medium, not executed | App.EmptyPrizeListStrandsGame | App.NeverStranded |

## Left out

- Configuration loading (`fetch` of `data.json`) is I/O. The loaded configuration is the parameter of `Game.LoadConfig`, and a failed fetch is a game that never leaves the loading screen.
- Cookie consent is browser storage and presentation, so it is not modelled:
  - the `localStorage` read and write and the one-second timer that shows the banner;
  - the privacy-policy toggle.
- Browser side effects are not modelled: clipboard copy of the reward code, `alert`, `console.log` of the submitted data, `window.scrollTo` and `window.open`.
- The real timer durations (7000 ms and 1500 ms) are wall-clock scheduling. Only the order of the two continuations is kept.
- SVG arc coordinates (`Math.cos`/`Math.sin`), tick marks, CSS easing and styling are floating-point rendering.
- Targeting.DrawIndex: JavaScript floating-point rounding of `r * n` and `360 / n` is idealised as exact real arithmetic.
- App.EmptyPrizeListStrandsGame: the as-written steps track the phase, the prize and the pending timers. They do not model the NaN rotation that `360 / 0` produces.
- DataModal.InitialDraft: the size `<select>` (components/DataModal.tsx:95-98) has no `value` binding, so it displays its first option "S" while the draft holds "M" until the player changes it. The model keeps the draft's value, which is what is forwarded, and does not model what the select displays.
- App.PlayThrough: App draws from the configured list, but SpinWheel draws its own hard-coded six prizes (`Wheel.WheelPrizes`). The pointer shows the won prize only if the two lists are equal, and the contract states that as an assumption. Otherwise the rendered six-segment wheel need not show the drawn segment.
- The reward code is shown from the configuration in the success view; rendering it is not modelled beyond `Config.rewardCode`.
- `constants.ts` (its `PRIZES`, `SIZES` and `STYLES` are not used by the modelled code) and the `religion` and `occupation` fields of `UserPreference`, which the form never sets, are not modelled.

# Multimeter controller

A model of the dial state machine of the multimeter prop in
`Assets/Scripts/MultimeterController.cs`. The dial has five positions,
stored in order in the `modes` array: Neutral, DirectCurrent,
AlternatingCurrent, CurrentStrength and Resistance. A scroll moves the dial
one position up or down, wrapping around at both ends. Scrolls that come
less than 0.5 s after the last accepted one are discarded.

Each accepted scroll applies the new mode's table entry. It turns the handle
to the mode's angle and writes the mode's output, rounded to two decimals,
to the main display. It then resets the four corner labels to "0" and writes
the output into the one label the mode owns. Neutral owns no label. Pointer
enter and exit switch the handle light on and off.

Files:

- `wrappers.dfy`: `Option`, which stands in for the optional label reference.
- `modes.dfy` (module `Modes`): the mode enumeration and the names in the
  `modes` array. It also holds the string switch of the mode dispatch
  (`ParseMode`), the rotation constants, the output formulas and their
  rounded values in hundredths, and the corner label each mode writes to.
- `dial.dfy` (module `Dial`): C#'s truncating `%`, the up and down steps of
  the index, and what a run of scrolls does to the position.
- `readout.dfy` (module `Readout`): the text of a reading of `h` hundredths,
  written as the shortest plain decimal form.
- `controller.dfy` (module `Controller`): the controller state as a value
  (`Meter`) and one transition function per handler. The class
  `MultimeterController` keeps that state in fields. Each of its methods is
  proved to perform its transition function exactly. The module also proves
  lemmas about runs of events.

Details of the code the model keeps:

- `OnScroll` stores the event time in `currentTime` before the debounce test
  (line 64). A discarded scroll therefore still changes that one field.
  `Scrolled` says it changes nothing else.
- `previousTime` starts at 0 (the field's default). Every scroll before time
  0.5 is therefore discarded.
- `Start` sets the index to 0 but does not apply Neutral's table entry. Until
  the first accepted scroll, the handle, display and labels keep the values
  the scene gave them. The constructor takes those values as parameters.
  `RunKeepsPanelInStep` therefore assumes a panel that already matches the
  dial, which is true after any accepted scroll (`Scrolled`).
- The four corner labels are separate fields: `leftCornerDirectCurrent`,
  `leftCornerCurrent` (written by CurrentStrength), `leftCornerAlternatingCurrent`
  and `leftCornerResistance`.

## Model

| member | source | states |
|---|---|---|
| Modes.ParseMode | Assets/Scripts/MultimeterController.cs:90-107 | the switch picks mode `m` exactly when the name equals `m`'s case label, and picks none for any other string |
| Modes.ModeAt | Assets/Scripts/MultimeterController.cs:41-42 | every in-range index of the `modes` array holds a name that matches a case of the switch |
| Modes.IndexOf | Assets/Scripts/MultimeterController.cs:41-42 | every mode is stored at exactly one index of the `modes` array |
| Modes.Rotation | Assets/Scripts/MultimeterController.cs:8-12 | each mode turns the handle to the angle constant its switch case passes (61, 15, -75, -160, -255; lines 93-105), and `ModeOfRotation` reads the mode back from that angle |
| Modes.RotationTellsMode | Assets/Scripts/MultimeterController.cs:8-12 | two modes share a handle angle only if they are the same mode |
| Modes.OutputFormula | Assets/Scripts/MultimeterController.cs:32-36 | the five output expressions (Resistance, 0, 0.01, sqrt(Power*Resistance), sqrt(Power/Resistance)); none takes the square root of a negative number and every fixed value is non-negative |
| Modes.Output | Assets/Scripts/MultimeterController.cs:32-36 | each mode's output constant, in hundredths, is its formula (0, sqrt(Power*Resistance), 0.01, sqrt(Power/Resistance), Resistance) rounded to two decimals |
| Modes.NearestHundredthUnique | Assets/Scripts/MultimeterController.cs:112 | a formula has only one two-decimal rounding, so each output constant is the only correct one |
| Modes.CornerOf | Assets/Scripts/MultimeterController.cs:92-105 | a mode has no target label exactly when it is Neutral |
| Modes.CornerMode | Assets/Scripts/MultimeterController.cs:27-30 | each of the four corner labels is the target of exactly one mode |
| Dial.CsRem | Assets/Scripts/MultimeterController.cs:80-84 | `%` is `a - (a / n) * n` with truncating division; it lies in `[0, n)` for a non-negative dividend and in `(-n, 0]` for a negative one |
| Dial.Next | Assets/Scripts/MultimeterController.cs:80 | scrolling up from a position in range moves to the next position, and the last position wraps to 0 |
| Dial.Prev | Assets/Scripts/MultimeterController.cs:84 | scrolling down from a position in range moves to the previous position, and 0 wraps to the last position |
| Dial.NextPrevInverse | Assets/Scripts/MultimeterController.cs:78-85 | one step up followed by one step down, or the reverse, returns to the starting position |
| Dial.Sign | Assets/Scripts/MultimeterController.cs:78-82 | a scroll's direction is +1 exactly when the delta is positive, -1 exactly when it is negative, and 0 otherwise |
| Dial.StepIndex | Assets/Scripts/MultimeterController.cs:76-86 | the index update keeps a position in `[0, 4]` and moves it by the scroll's sign modulo 5; a delta of 0 leaves it unchanged |
| Dial.TurnIsNet | Assets/Scripts/MultimeterController.cs:76-86 | after any sequence of index updates, the position is the start plus (scrolls up minus scrolls down), modulo 5 |
| Dial.BalancedTurnReturns | Assets/Scripts/MultimeterController.cs:76-86 | equally many scrolls up and down, in any order, return the dial to its starting position |
| Dial.FullCircle | Assets/Scripts/MultimeterController.cs:80-84 | five scrolls in one direction return the dial to its starting position |
| Readout.NatToString | Assets/Scripts/MultimeterController.cs:58 | the integer part of a reading is a non-empty string of decimal digits with no leading zero |
| Readout.NatToStringValue | Assets/Scripts/MultimeterController.cs:58 | reading back the digits of a number gives that number |
| Readout.Fraction | Assets/Scripts/MultimeterController.cs:58 | the fraction text is empty for a whole number; otherwise it is a point and one or two digits that denote the hundredths, with no trailing zero |
| Readout.Show | Assets/Scripts/MultimeterController.cs:58 | a reading's text reads back (by `ReadingValue`: digits, then optionally a point and one or two digits) as exactly that number of hundredths, with no leading zero and no trailing fractional zero; it starts with a digit, and it is "0" exactly when the reading is zero |
| Controller.Corners.Set | Assets/Scripts/MultimeterController.cs:116-119 | writing one label sets that label's text and leaves the other three as they were |
| Controller.CornerText | Assets/Scripts/MultimeterController.cs:115-119 | after mode `m`, a label shows something other than "0" exactly when it is `m`'s target, and then it shows `m`'s rounded output |
| Controller.DisplayedOutputs | Assets/Scripts/MultimeterController.cs:112-114 | the five modes display "0", "632.46", "0.01", "0.63" and "1000" |
| Controller.ExactlyOneCornerLit | Assets/Scripts/MultimeterController.cs:110-128 | after a mode other than Neutral, exactly one label shows a value and the rest show "0" |
| Controller.AcceptedScrollLightsOneCorner | Assets/Scripts/MultimeterController.cs:66-73 | after an accepted scroll to Neutral all four labels show "0"; to any other mode, exactly one label shows that mode's reading and the rest show "0" |
| Controller.NeutralClearsCorners | Assets/Scripts/MultimeterController.cs:92-94 | after Neutral, all four labels show "0" |
| Controller.ModeChanged | Assets/Scripts/MultimeterController.cs:110-120 | a mode change sets the handle angle and the display text, and puts the output in the target label and "0" in the others; nothing else changes |
| Controller.ModeSwitched | Assets/Scripts/MultimeterController.cs:88-108 | the dispatch always leaves the handle, the display and the labels showing the mode at the current index; nothing else changes |
| Controller.Scrolled | Assets/Scripts/MultimeterController.cs:62-74 | a scroll less than 0.5 after the last accepted one changes nothing but the event time; otherwise the index takes one step, the panel shows the new mode and the scroll's time is recorded; the index stays in range |
| Controller.AcceptedScrollChangesMode | Assets/Scripts/MultimeterController.cs:66-73 | an accepted scroll with a non-zero delta always changes the mode |
| Controller.DebounceKeepsFirstScroll | Assets/Scripts/MultimeterController.cs:64-69 | of two scrolls less than 0.5 apart after an accepted one, the second changes nothing but the event time |
| Controller.Entered | Assets/Scripts/MultimeterController.cs:130-133 | pointer enter turns the light on and changes nothing else |
| Controller.Exited | Assets/Scripts/MultimeterController.cs:135-138 | pointer exit turns the light off and changes nothing else |
| Controller.EnterExit | Assets/Scripts/MultimeterController.cs:130-138 | enter then exit leaves the light off and everything else unchanged; each handler is idempotent |
| Controller.Started | Assets/Scripts/MultimeterController.cs:46-49 | start puts the dial at index 0, which is Neutral, and changes nothing else |
| Controller.Step | Assets/Scripts/MultimeterController.cs:62-74 | handling any one event keeps the index in `[0, 4]` |
| Controller.Run | Assets/Scripts/MultimeterController.cs:76-86 | after any sequence of events, the index is still in `[0, 4]` |
| Controller.StepKeepsPanelInStep | Assets/Scripts/MultimeterController.cs:110-128 | no single event leaves the panel out of step with the dial position |
| Controller.RunKeepsPanelInStep | Assets/Scripts/MultimeterController.cs:110-128 | once the panel shows the mode at the dial position, it does so after any sequence of events |
| Controller.PointerEventsKeepPanel | Assets/Scripts/MultimeterController.cs:130-138 | any sequence of pointer events changes nothing but the light |
| Controller.MultimeterController.constructor | Assets/Scripts/MultimeterController.cs:38-44 | the index and both times start at 0; the handle, display, labels and light hold the scene's values |
| Controller.MultimeterController.Start | Assets/Scripts/MultimeterController.cs:46-49 | performs `Started`: index 0, nothing else changed |
| Controller.MultimeterController.ChangeHandleRotation | Assets/Scripts/MultimeterController.cs:51-54 | sets the handle's z angle and nothing else |
| Controller.MultimeterController.DisplayText | Assets/Scripts/MultimeterController.cs:56-59 | sets the display to the reading's text and nothing else |
| Controller.MultimeterController.OnScroll | Assets/Scripts/MultimeterController.cs:62-74 | performs `Scrolled` on the fields: the index and the last accepted time are unchanged inside the debounce window; otherwise the index takes one step and the time is recorded |
| Controller.MultimeterController.UpdateCurrentIndex | Assets/Scripts/MultimeterController.cs:76-86 | sets the index to `StepIndex` of the old index, keeps it in range, and changes nothing else |
| Controller.MultimeterController.HandleModeSwitch | Assets/Scripts/MultimeterController.cs:88-108 | performs `ModeSwitched` on the fields |
| Controller.MultimeterController.HandleModeChange | Assets/Scripts/MultimeterController.cs:110-120 | performs `ModeChanged` on the fields |
| Controller.MultimeterController.ResetLeftCornerValues | Assets/Scripts/MultimeterController.cs:122-128 | sets all four labels to "0" and nothing else |
| Controller.MultimeterController.SetCornerText | Assets/Scripts/MultimeterController.cs:116-119 | writes the text into the referenced label only |
| Controller.MultimeterController.OnPointerEnter | Assets/Scripts/MultimeterController.cs:130-133 | performs `Entered`: light on, nothing else changed |
| Controller.MultimeterController.OnPointerExit | Assets/Scripts/MultimeterController.cs:135-138 | performs `Exited`: light off, nothing else changed |

## Left out

- `Assets/Scripts/GameController.cs`: it only instantiates the prefab (engine wiring); it is not part of this model.
- Floating point: times, the scroll delta and the handle angle are exact `real`/`int` values. `float` precision of `Time.time` and of the 0.5 comparison is not modelled.
- Modes.Output: gives the rounded outputs as constants. It proves each is the two-decimal rounding of its formula, without computing `Mathf.Sqrt`, `Math.Round` or the `float`/`double` casts. `HandleModeChange` therefore receives an output that is already rounded.
- Readout.Show: models `float.ToString()` only for two-decimal readings in plain notation and with a point as the decimal separator. It does not cover exponent notation for large values, nor `float`'s precision of about seven significant digits (1234567.89 prints as "1234568"); neither arises for the five outputs, which have at most five significant digits. The separator written by `float.ToString()` (line 58) and by `$"{roundedOutput}"` (line 118) depends on the machine's culture: where that uses a comma, DirectCurrent shows "632,46" and CurrentStrength "0,63". The model fixes the separator to a point.
- `Quaternion.Euler(-18, 146, z)`: only the z angle is kept. The fixed x and y angles and the quaternion are engine plumbing.
- `Time.time` is the parameter `now` of `OnScroll`. Lines 64 and 73 read it within the same frame, so both see the same value.
- Unity's event types (`PointerEventData`, the handler interfaces) are reduced to the scroll's vertical delta and plain enter/exit calls. The scene objects (handle, light, `TextMeshProUGUI` texts) become plain fields.
- Scene references: the model assumes seven distinct, non-null scene references (handle, light, display and the four labels). It has no null-reference error path, and it does not model two label fields that refer to the same object.

/**
 * The multimeter controller: the dial position, the scroll debounce, the
 * handle rotation, the main display, the four corner labels and the light.
 *
 * `Meter` is the controller's state as a value and the functions below are
 * its transitions, one per handler; the class `MultimeterController` keeps
 * the same state in fields and its methods are proved to perform exactly
 * those transitions.
 */
module Controller {
  import opened Wrappers
  import opened Modes
  import opened Dial
  import opened Readout

  /** The debounce interval, in seconds, between two accepted scrolls. */
  const ScrollInterval: real := 0.5

  /** The texts of the four corner labels. */
  datatype Corners = Corners(directCurrent: string, current: string, alternatingCurrent: string, resistance: string)
  {
    /** The text of one label. */
    function Get(c: Corner): string {
      match c
      case DirectCurrentCorner => directCurrent
      case CurrentCorner => current
      case AlternatingCurrentCorner => alternatingCurrent
      case ResistanceCorner => resistance
    }

    /** The labels after writing `text` into label `c`. */
    function Set(c: Corner, text: string): (r: Corners)
      ensures r.Get(c) == text
      ensures forall d :: d != c ==> r.Get(d) == Get(d)
    {
      match c
      case DirectCurrentCorner => this.(directCurrent := text)
      case CurrentCorner => this.(current := text)
      case AlternatingCurrentCorner => this.(alternatingCurrent := text)
      case ResistanceCorner => this.(resistance := text)
    }
  }

  /** The labels after the reset that precedes each mode change. */
  const Cleared: Corners := Corners("0", "0", "0", "0")

  /** What label `c` shows once mode `m` has been applied. */
  function CornerText(m: Mode, c: Corner): (t: string)
    ensures t != "0" <==> CornerOf(m) == Some(c)
    ensures CornerOf(m) == Some(c) ==> t == Show(Output(m))
  {
    if CornerOf(m) == Some(c) then Show(Output(m)) else "0"
  }

  /** The texts the five modes put on the display. */
  lemma DisplayedOutputs()
    ensures Show(Output(Neutral)) == "0"
    ensures Show(Output(DirectCurrent)) == "632.46"
    ensures Show(Output(AlternatingCurrent)) == "0.01"
    ensures Show(Output(CurrentStrength)) == "0.63"
    ensures Show(Output(Resistance)) == "1000"
  {
  }

  /** After a mode other than Neutral, exactly its own label shows a value. */
  lemma ExactlyOneCornerLit(m: Mode)
    requires m != Neutral
    ensures exists c :: CornerText(m, c) != "0"
    ensures forall c, d :: CornerText(m, c) != "0" && CornerText(m, d) != "0" ==> c == d
  {
    assert CornerText(m, CornerOf(m).value) != "0";
  }

  /** After Neutral, every label shows "0". */
  lemma NeutralClearsCorners(c: Corner)
    ensures CornerText(Neutral, c) == "0"
  {
  }

  /** The controller's state. */
  datatype Meter = Meter(
    index: int,          // the dial position, an index into the `modes` array
    previousTime: real,  // the time of the last accepted scroll
    currentTime: real,   // the time of the last scroll event
    rotation: int,       // the handle's z rotation, in degrees
    display: string,     // the main display's text
    corners: Corners,    // the corner labels' texts
    lightOn: bool)       // whether the handle light is active

  predicate IndexInRange(s: Meter) {
    0 <= s.index < Positions
  }

  /** The handle, the display and the labels all show mode `m`. */
  predicate Shows(s: Meter, m: Mode) {
    && s.rotation == Rotation(m)
    && s.display == Show(Output(m))
    && forall c :: s.corners.Get(c) == CornerText(m, c)
  }

  /**
   * The mode change: turn the handle, display the rounded output, reset the
   * four labels to "0", then write the output into the target label if any.
   */
  function ModeChanged(s: Meter, rotationZ: int, output: nat, target: Option<Corner>): (r: Meter)
    ensures r.rotation == rotationZ && r.display == Show(output)
    ensures forall c :: r.corners.Get(c) == if target == Some(c) then Show(output) else "0"
    ensures r == s.(rotation := r.rotation, display := r.display, corners := r.corners)
  {
    var reset := s.(rotation := rotationZ, display := Show(output), corners := Cleared);
    match target
    case None => reset
    case Some(c) => reset.(corners := reset.corners.Set(c, Show(output)))
  }

  /** The mode dispatch: apply the table entry of the mode at the current position. */
  function ModeSwitched(s: Meter): (r: Meter)
    requires IndexInRange(s)
    ensures Shows(r, ModeAt(s.index))
    ensures r == s.(rotation := r.rotation, display := r.display, corners := r.corners)
  {
    match ParseMode(ModeNames[s.index])
    case None => s
    case Some(m) => ModeChanged(s, Rotation(m), Output(m), CornerOf(m))
  }

  /**
   * A scroll event at time `now` with vertical delta `delta`. It is discarded
   * when less than the debounce interval has passed since the last accepted
   * scroll; otherwise the dial moves, the new mode is applied and `now`
   * becomes the time of the last accepted scroll.
   */
  function Scrolled(s: Meter, now: real, delta: real): (r: Meter)
    requires IndexInRange(s)
    ensures IndexInRange(r)
    ensures now - s.previousTime < ScrollInterval ==> r == s.(currentTime := now)
    ensures now - s.previousTime >= ScrollInterval ==>
      && r.index == StepIndex(s.index, delta)
      && r.previousTime == now && r.currentTime == now
      && Shows(r, ModeAt(r.index))
      && r.lightOn == s.lightOn
  {
    var t := s.(currentTime := now);
    if t.currentTime - t.previousTime < ScrollInterval then t
    else ModeSwitched(t.(index := StepIndex(t.index, delta))).(previousTime := now)
  }

  /**
   * After an accepted scroll the labels show the new mode: one label holds
   * its reading unless the mode is Neutral, and every other label shows "0".
   */
  lemma AcceptedScrollLightsOneCorner(s: Meter, now: real, delta: real)
    requires IndexInRange(s)
    requires now - s.previousTime >= ScrollInterval
    ensures var r := Scrolled(s, now, delta);
      && (ModeAt(r.index) == Neutral ==> forall c :: r.corners.Get(c) == "0")
      && (ModeAt(r.index) != Neutral ==>
            && (exists c :: r.corners.Get(c) == Show(Output(ModeAt(r.index))) != "0")
            && forall c, d :: r.corners.Get(c) != "0" && r.corners.Get(d) != "0" ==> c == d)
  {
    var m := ModeAt(Scrolled(s, now, delta).index);
    if m != Neutral {
      ExactlyOneCornerLit(m);
      assert CornerText(m, CornerOf(m).value) == Show(Output(m));
    }
  }

  /** An accepted scroll that moves the wheel always changes the mode. */
  lemma AcceptedScrollChangesMode(s: Meter, now: real, delta: real)
    requires IndexInRange(s)
    requires now - s.previousTime >= ScrollInterval && delta != 0.0
    ensures ModeAt(Scrolled(s, now, delta).index) != ModeAt(s.index)
  {
    var j := Scrolled(s, now, delta).index;
    assert j != s.index;
    assert IndexOf(ModeAt(j)) == j && IndexOf(ModeAt(s.index)) == s.index;
  }

  /**
   * Of two scrolls less than the debounce interval apart, the second changes
   * nothing but the recorded event time, whatever its direction.
   */
  lemma DebounceKeepsFirstScroll(s: Meter, t1: real, d1: real, t2: real, d2: real)
    requires IndexInRange(s)
    requires t1 - s.previousTime >= ScrollInterval && t2 - t1 < ScrollInterval
    ensures Scrolled(Scrolled(s, t1, d1), t2, d2) == Scrolled(s, t1, d1).(currentTime := t2)
  {
  }

  /** The pointer entering the dial turns the light on. */
  function Entered(s: Meter): (r: Meter)
    ensures r.lightOn && r.(lightOn := s.lightOn) == s
  {
    s.(lightOn := true)
  }

  /** The pointer leaving the dial turns the light off. */
  function Exited(s: Meter): (r: Meter)
    ensures !r.lightOn && r.(lightOn := s.lightOn) == s
  {
    s.(lightOn := false)
  }

  /** Entering then leaving leaves the light off and everything else as it was. */
  lemma EnterExit(s: Meter)
    ensures Exited(Entered(s)) == s.(lightOn := false)
    ensures Entered(Entered(s)) == Entered(s) && Exited(Exited(s)) == Exited(s)
  {
  }

  /** The start of the component: the dial is set to the first position. */
  function Started(s: Meter): (r: Meter)
    ensures IndexInRange(r) && ModeAt(r.index) == Neutral
    ensures r.(index := s.index) == s
  {
    s.(index := 0)
  }

  /** The input events the controller handles. */
  datatype Event = PointerEnter | PointerExit | Scroll(time: real, delta: real)

  function Step(s: Meter, e: Event): (r: Meter)
    requires IndexInRange(s)
    ensures IndexInRange(r)
  {
    match e
    case PointerEnter => Entered(s)
    case PointerExit => Exited(s)
    case Scroll(now, delta) => Scrolled(s, now, delta)
  }

  /** The state after handling `events` in order: the dial never leaves its five positions. */
  function Run(s: Meter, events: seq<Event>): (r: Meter)
    requires IndexInRange(s)
    ensures IndexInRange(r)
    decreases |events|
  {
    if events == [] then s else Run(Step(s, events[0]), events[1..])
  }

  /** No single event puts the panel out of step with the dial. */
  lemma StepKeepsPanelInStep(s: Meter, e: Event)
    requires IndexInRange(s) && Shows(s, ModeAt(s.index))
    ensures Shows(Step(s, e), ModeAt(Step(s, e).index))
  {
  }

  /**
   * Once the panel shows the mode at the dial position, it keeps doing so
   * whatever events follow.
   */
  lemma {:induction false} RunKeepsPanelInStep(s: Meter, events: seq<Event>)
    requires IndexInRange(s) && Shows(s, ModeAt(s.index))
    ensures Shows(Run(s, events), ModeAt(Run(s, events).index))
    decreases |events|
  {
    if events != [] {
      StepKeepsPanelInStep(s, events[0]);
      RunKeepsPanelInStep(Step(s, events[0]), events[1..]);
    }
  }

  /** Pointer events never move the dial or touch the panel. */
  lemma {:induction false} PointerEventsKeepPanel(s: Meter, events: seq<Event>)
    requires IndexInRange(s)
    requires forall k :: 0 <= k < |events| ==> !events[k].Scroll?
    ensures Run(s, events).(lightOn := s.lightOn) == s
    decreases |events|
  {
    if events != [] {
      PointerEventsKeepPanel(Step(s, events[0]), events[1..]);
    }
  }

  /** The controller's state in fields, updated in place by its handlers. */
  class MultimeterController {
    var currentIndex: int
    var previousTime: real
    var currentTime: real
    var handleRotation: int
    var display: string
    var leftCornerDirectCurrent: string
    var leftCornerCurrent: string
    var leftCornerAlternatingCurrent: string
    var leftCornerResistance: string
    var lightOn: bool

    /** The state the fields hold. */
    function State(): Meter
      reads this
    {
      Meter(currentIndex, previousTime, currentTime, handleRotation, display,
        Corners(leftCornerDirectCurrent, leftCornerCurrent, leftCornerAlternatingCurrent, leftCornerResistance),
        lightOn)
    }

    ghost predicate Valid()
      reads this
    {
      IndexInRange(State())
    }

    /**
     * A controller over a scene whose handle, display, labels and light hold
     * the given values; the index and both times start at zero.
     */
    constructor (rotationZ: int, displayText: string, corners: Corners, light: bool)
      ensures Valid()
      ensures State() == Meter(0, 0.0, 0.0, rotationZ, displayText, corners, light)
    {
      currentIndex := 0;
      previousTime := 0.0;
      currentTime := 0.0;
      handleRotation := rotationZ;
      display := displayText;
      leftCornerDirectCurrent := corners.directCurrent;
      leftCornerCurrent := corners.current;
      leftCornerAlternatingCurrent := corners.alternatingCurrent;
      leftCornerResistance := corners.resistance;
      lightOn := light;
    }

    method Start()
      modifies this
      ensures Valid()
      ensures State() == Started(old(State()))
    {
      currentIndex := 0;
    }

    method ChangeHandleRotation(rotationZ: int)
      modifies this
      ensures State() == old(State()).(rotation := rotationZ)
    {
      handleRotation := rotationZ;
    }

    method DisplayText(output: nat)
      modifies this
      ensures State() == old(State()).(display := Show(output))
    {
      display := Show(output);
    }

    method OnScroll(now: real, delta: real)
      requires Valid()
      modifies this
      ensures Valid()
      ensures State() == Scrolled(old(State()), now, delta)
      ensures now - old(previousTime) < ScrollInterval ==>
        currentIndex == old(currentIndex) && previousTime == old(previousTime)
      ensures now - old(previousTime) >= ScrollInterval ==>
        currentIndex == StepIndex(old(currentIndex), delta) && previousTime == now
    {
      currentTime := now;
      if currentTime - previousTime < ScrollInterval {
        return;
      }
      UpdateCurrentIndex(delta);
      HandleModeSwitch();
      previousTime := now;
    }

    method UpdateCurrentIndex(delta: real)
      requires Valid()
      modifies this
      ensures Valid()
      ensures State() == old(State()).(index := StepIndex(old(currentIndex), delta))
    {
      if delta > 0.0 {
        currentIndex := CsRem(currentIndex + 1, |ModeNames|);
      } else if delta < 0.0 {
        currentIndex := CsRem(currentIndex - 1 + |ModeNames|, |ModeNames|);
      }
    }

    method HandleModeSwitch()
      requires Valid()
      modifies this
      ensures Valid()
      ensures State() == ModeSwitched(old(State()))
    {
      match ParseMode(ModeNames[currentIndex])
      case None =>
      case Some(m) => HandleModeChange(Rotation(m), Output(m), CornerOf(m));
    }

    method HandleModeChange(rotationZ: int, output: nat, target: Option<Corner>)
      modifies this
      ensures State() == ModeChanged(old(State()), rotationZ, output, target)
    {
      ChangeHandleRotation(rotationZ);
      DisplayText(output);
      ResetLeftCornerValues();
      if target.Some? {
        SetCornerText(target.value, Show(output));
      }
    }

    method ResetLeftCornerValues()
      modifies this
      ensures State() == old(State()).(corners := Cleared)
    {
      leftCornerDirectCurrent := "0";
      leftCornerCurrent := "0";
      leftCornerAlternatingCurrent := "0";
      leftCornerResistance := "0";
    }

    /** Writes `text` into the label that `c` refers to. */
    method SetCornerText(c: Corner, text: string)
      modifies this
      ensures State() == old(State()).(corners := old(State()).corners.Set(c, text))
    {
      match c
      case DirectCurrentCorner => leftCornerDirectCurrent := text;
      case CurrentCorner => leftCornerCurrent := text;
      case AlternatingCurrentCorner => leftCornerAlternatingCurrent := text;
      case ResistanceCorner => leftCornerResistance := text;
    }

    method OnPointerEnter()
      modifies this
      ensures State() == Entered(old(State()))
    {
      lightOn := true;
    }

    method OnPointerExit()
      modifies this
      ensures State() == Exited(old(State()))
    {
      lightOn := false;
    }
  }
}

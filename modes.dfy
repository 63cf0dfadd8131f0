/**
 * The multimeter's five measurement modes and the fixed table that goes with
 * them: the name each mode has in the controller's `modes` array, the dial
 * rotation, the rounded output and the corner label the mode writes to.
 */
module Modes {
  import opened Wrappers

  /** The dial positions, in the order of the `modes` array. */
  datatype Mode = Neutral | DirectCurrent | AlternatingCurrent | CurrentStrength | Resistance

  /** The four corner labels of the display. */
  datatype Corner = DirectCurrentCorner | CurrentCorner | AlternatingCurrentCorner | ResistanceCorner

  const NeutralMode: string := "NeutralMode"
  const DirectCurrentMode: string := "DirectCurrentMode"
  const AlternatingCurrentMode: string := "AlternatingCurrentMode"
  const CurrentStrengthMode: string := "CurrentStrengthMode"
  const ResistanceMode: string := "ResistanceMode"

  /** The name under which the controller stores a mode. */
  function Name(m: Mode): string {
    match m
    case Neutral => NeutralMode
    case DirectCurrent => DirectCurrentMode
    case AlternatingCurrent => AlternatingCurrentMode
    case CurrentStrength => CurrentStrengthMode
    case Resistance => ResistanceMode
  }

  /** The controller's `modes` array: the dial positions by index. */
  const ModeNames: seq<string> :=
    [NeutralMode, DirectCurrentMode, AlternatingCurrentMode, CurrentStrengthMode, ResistanceMode]

  /**
   * The string switch of the mode dispatch: the mode whose case label matches
   * `name`, or None when no case matches (the switch then does nothing).
   */
  function ParseMode(name: string): (r: Option<Mode>)
    ensures forall m :: r == Some(m) <==> name == Name(m)
  {
    if name == NeutralMode then Some(Neutral)
    else if name == DirectCurrentMode then Some(DirectCurrent)
    else if name == AlternatingCurrentMode then Some(AlternatingCurrent)
    else if name == CurrentStrengthMode then Some(CurrentStrength)
    else if name == ResistanceMode then Some(Resistance)
    else None
  }

  /** The mode at dial position `i`: every position matches exactly one case of the switch. */
  function ModeAt(i: int): (m: Mode)
    requires 0 <= i < |ModeNames|
    ensures ParseMode(ModeNames[i]) == Some(m)
  {
    [Neutral, DirectCurrent, AlternatingCurrent, CurrentStrength, Resistance][i]
  }

  /** The dial position of a mode: every mode sits at exactly one position. */
  function IndexOf(m: Mode): (i: int)
    ensures 0 <= i < |ModeNames| && ModeAt(i) == m
    ensures forall j :: 0 <= j < |ModeNames| && ModeAt(j) == m ==> j == i
  {
    match m
    case Neutral => 0
    case DirectCurrent => 1
    case AlternatingCurrent => 2
    case CurrentStrength => 3
    case Resistance => 4
  }

  const NeutralRotationZ: int := 61
  const DirectCurrentRotationZ: int := 15
  const AlternatingCurrentRotationZ: int := -75
  const CurrentStrengthRotationZ: int := -160
  const ResistanceRotationZ: int := -255

  /** The mode whose dial position has handle angle `z`, if any. */
  function ModeOfRotation(z: int): Option<Mode> {
    if z == NeutralRotationZ then Some(Neutral)
    else if z == DirectCurrentRotationZ then Some(DirectCurrent)
    else if z == AlternatingCurrentRotationZ then Some(AlternatingCurrent)
    else if z == CurrentStrengthRotationZ then Some(CurrentStrength)
    else if z == ResistanceRotationZ then Some(Resistance)
    else None
  }

  /** The z rotation, in degrees, of the dial handle in each mode: the angle tells the mode. */
  function Rotation(m: Mode): (z: int)
    ensures ModeOfRotation(z) == Some(m)
  {
    match m
    case Neutral => NeutralRotationZ
    case DirectCurrent => DirectCurrentRotationZ
    case AlternatingCurrent => AlternatingCurrentRotationZ
    case CurrentStrength => CurrentStrengthRotationZ
    case Resistance => ResistanceRotationZ
  }

  /** Each mode turns the handle to its own angle, so the handle tells the mode. */
  lemma RotationTellsMode(m1: Mode, m2: Mode)
    ensures Rotation(m1) == Rotation(m2) <==> m1 == m2
  {
  }

  const Power: real := 400.0
  const ResistanceValue: real := 1000.0

  /** How an output is computed: a fixed value, or the square root of one. */
  datatype Formula = Exact(value: real) | SqrtOf(radicand: real)

  /**
   * The output formula of each mode. Every formula denotes a value of at
   * least zero: no square root is taken of a negative number.
   */
  function OutputFormula(m: Mode): (f: Formula)
    ensures f.Exact? ==> f.value >= 0.0
    ensures f.SqrtOf? ==> f.radicand >= 0.0
  {
    match m
    case Neutral => Exact(0.0)
    case DirectCurrent => SqrtOf(Power * ResistanceValue)
    case AlternatingCurrent => Exact(0.01)
    case CurrentStrength => SqrtOf(Power / ResistanceValue)
    case Resistance => Exact(ResistanceValue)
  }

  /**
   * `h` hundredths is the value of `f` rounded to two decimal places, the
   * value lying strictly within half a hundredth of `h` (so the rounding
   * direction at a midpoint does not matter).
   */
  ghost predicate NearestHundredth(h: nat, f: Formula) {
    var lo := h as real - 0.5;
    var hi := h as real + 0.5;
    match f
    case Exact(x) => lo < 100.0 * x < hi
    case SqrtOf(x) => 0.0 <= x && (h == 0 || lo * lo < 10000.0 * x) && 10000.0 * x < hi * hi
  }

  /** The output of each mode, rounded to two decimal places, in hundredths. */
  function Output(m: Mode): (h: nat)
    ensures NearestHundredth(h, OutputFormula(m))
  {
    match m
    case Neutral => 0
    case DirectCurrent => 63246
    case AlternatingCurrent => 1
    case CurrentStrength => 63
    case Resistance => 100000
  }

  /** The rounded value of a formula is unique: `Output` gives the only correct reading. */
  lemma NearestHundredthUnique(f: Formula, h1: nat, h2: nat)
    requires NearestHundredth(h1, f) && NearestHundredth(h2, f)
    ensures h1 == h2
  {
    if h1 != h2 && f.SqrtOf? {
      var a, b := if h1 < h2 then h1 else h2, if h1 < h2 then h2 else h1;
      var hi, lo := a as real + 0.5, b as real - 0.5;
      var r := 10000.0 * f.radicand;
      assert r < hi * hi by { assert NearestHundredth(a, f); }
      assert lo * lo < r by { assert NearestHundredth(b, f); }
      SquareMonotone(hi, lo);
    }
  }

  /** Squaring is monotone on non-negative reals. */
  lemma SquareMonotone(x: real, y: real)
    requires 0.0 <= x <= y
    ensures x * x <= y * y
  {
  }

  /** The corner label a mode writes its output to; Neutral writes to none. */
  function CornerOf(m: Mode): (r: Option<Corner>)
    ensures r == None <==> m == Neutral
  {
    match m
    case Neutral => None
    case DirectCurrent => Some(DirectCurrentCorner)
    case AlternatingCurrent => Some(AlternatingCurrentCorner)
    case CurrentStrength => Some(CurrentCorner)
    case Resistance => Some(ResistanceCorner)
  }

  /** The mode a corner label belongs to: every label belongs to exactly one mode. */
  function CornerMode(c: Corner): (m: Mode)
    ensures CornerOf(m) == Some(c)
    ensures forall m' :: CornerOf(m') == Some(c) ==> m' == m
  {
    match c
    case DirectCurrentCorner => DirectCurrent
    case CurrentCorner => CurrentStrength
    case AlternatingCurrentCorner => AlternatingCurrent
    case ResistanceCorner => Resistance
  }
}

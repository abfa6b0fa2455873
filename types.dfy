/**
 * The enums the plugin shares between its files (Plugin/RCSBuildAid.cs, lines 23, 24 and 29),
 * and the 32-bit C# `int` they are stored in.
 */
module Types {

  /** A C# `int`: 32 bits, two's complement. */
  type Int32 = x: int | -0x8000_0000 <= x < 0x8000_0000

  /** Unchecked C# arithmetic: the result of an `int` operation reduced into 32 bits. */
  function Wrap32(x: int): (r: Int32)
    ensures r % 0x1_0000_0000 == x % 0x1_0000_0000
    ensures -0x8000_0000 <= x < 0x8000_0000 ==> r == x
  {
    var m := x % 0x1_0000_0000;
    if m < 0x8000_0000 then m else m - 0x1_0000_0000
  }

  /**
   * PluginMode { none, RCS, Attitude, Engine }. A C# enum variable can hold any `int`, and
   * Plugin/Events.cs handles such a value; `Invalid` stands for every value without a name.
   */
  datatype PluginMode = None | RCS | Attitude | Engine | Invalid

  /** The two modes in which a direction is meaningful, and the only ones remembered as lastMode. */
  predicate IsDirectional(m: PluginMode)
  {
    m == RCS || m == Attitude
  }

  /** MarkerType { CoM, DCoM, ACoM }. */
  datatype MarkerType = CoM | DCoM | ACoM

  /** `(int)marker` */
  function MarkerIndex(m: MarkerType): (i: int)
    ensures 0 <= i < 3
  {
    match m
    case CoM => 0
    case DCoM => 1
    case ACoM => 2
  }

  /** `(MarkerType)i` for the three named values. */
  function MarkerAt(i: int): (m: MarkerType)
    requires 0 <= i < 3
    ensures MarkerIndex(m) == i
  {
    if i == 0 then CoM else if i == 1 then DCoM else ACoM
  }

  /**
   * Directions { none, right, left, up, down, forward, back }, kept as the `int` the enum is:
   * the settings file and the direction button both work on the number, so a value outside
   * 0..6 can occur.
   */
  type Direction = Int32

  const DirNone: Direction := 0
  const DirRight: Direction := 1
  const DirLeft: Direction := 2
  const DirUp: Direction := 3
  const DirDown: Direction := 4
  const DirForward: Direction := 5
  const DirBack: Direction := 6

  /** One of the six named directions other than none. */
  predicate IsAxis(d: Direction)
  {
    1 <= d <= 6
  }
}

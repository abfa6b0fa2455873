/**
 * The buttons of the plugin window that change its state, and the burn-time label
 * (Plugin/GUI/MainWindow.cs): the direction button, the reference-marker button with its
 * search for the next visible marker, and timeFormat.
 *
 * A click is `clicked` together with the mouse button (Event.current.button); which markers
 * are visible (isMarkerVisible for CoM, DCoM and ACoM) is a sequence of three booleans.
 */
module MainWindow {
  import opened Types
  import opened BuildAid

  // ---------------------------------------------------------------------------
  // The direction button

  const Int32Min: int := -0x8000_0000
  const Int32Max: int := 0x7FFF_FFFF

  /**
   * The direction after a click with mouse button `button`: 0 goes up 1..6 cyclically, 1 goes
   * down. Either button gives a named direction from none or any named one; any other mouse
   * button leaves the direction as it is.
   */
  function CycleDirection(d: Direction, button: int): (r: Direction)
    ensures (button == 0 || button == 1) && 0 <= d <= 6 ==> IsAxis(r)
    ensures button != 0 && button != 1 ==> r == d
  {
    if button == 0 then
      var i := Wrap32(d + 1);
      if i > 6 then 1 else i
    else if button == 1 then
      var i := Wrap32(d - 1);
      if i < 1 then 6 else i
    else d
  }

  /**
   * The left button gives a named direction for every stored value from none upwards except
   * the largest `int`, whose increment wraps round to the smallest one.
   */
  lemma CycleUpOnAxis(d: Direction)
    ensures IsAxis(CycleDirection(d, 0)) <==> 0 <= d && d != Int32Max
    ensures IsAxis(d) && d < 6 ==> CycleDirection(d, 0) == d + 1
    ensures CycleDirection(DirBack, 0) == DirRight
    ensures CycleDirection(DirNone, 0) == DirRight
  {
  }

  /**
   * The right button gives a named direction for every stored value up to 7 except the
   * smallest `int`, whose decrement wraps round to the largest one.
   */
  lemma CycleDownOnAxis(d: Direction)
    ensures IsAxis(CycleDirection(d, 1)) <==> d <= 7 && d != Int32Min
    ensures IsAxis(d) && d > 1 ==> CycleDirection(d, 1) == d - 1
    ensures CycleDirection(DirRight, 1) == DirBack
    ensures CycleDirection(DirNone, 1) == DirBack
  {
  }

  /** On the six named directions the two buttons undo each other. */
  lemma CycleUpDownInverse(d: Direction)
    requires IsAxis(d)
    ensures CycleDirection(CycleDirection(d, 0), 1) == d
    ensures CycleDirection(CycleDirection(d, 1), 0) == d
  {
  }

  /** Six clicks of the same button come back to the start. */
  lemma CycleHasPeriodSix(d: Direction, button: int)
    requires IsAxis(d) && (button == 0 || button == 1)
    ensures var c := (e: Direction) => CycleDirection(e, button);
            c(c(c(c(c(c(d)))))) == d
  {
  }

  /** directionButton */
  method DirectionButton(aid: BuildAid, clicked: bool, button: int)
    modifies aid
    ensures aid.direction == (if clicked then CycleDirection(old(aid.direction), button) else old(aid.direction))
    ensures aid.referenceMarker == old(aid.referenceMarker) && aid.ModuleLists() == old(aid.ModuleLists())
    ensures aid.settings == old(aid.settings) && aid.messages == old(aid.messages)
    ensures aid.lastStage == old(aid.lastStage) && aid.hasReference == old(aid.hasReference)
  {
    if clicked {
      var i: int := aid.direction;
      if button == 0 {
        i := Wrap32(i + 1);
        if i > 6 {
          i := 1;
        }
      } else if button == 1 {
        i := Wrap32(i - 1);
        if i < 1 {
          i := 6;
        }
      }
      aid.direction := i;
    }
  }

  // ---------------------------------------------------------------------------
  // The reference button

  /** The marker index k steps from c, forwards or (for the right mouse button) backwards. */
  function Offset(c: int, k: int, backward: bool): (r: int)
    ensures 0 <= r < 3
  {
    if backward then (c - k) % 3 else (c + k) % 3
  }

  /** How many steps from c to i, counting 3 for c itself: the loop of selectNextReference meets i after this many. */
  function Distance(c: int, i: int, backward: bool): (r: int)
    ensures 1 <= r <= 3
  {
    var d := (if backward then c - i else i - c) % 3;
    if d == 0 then 3 else d
  }

  /** The first index visible at step k, k + 1, ... 3 from c, or -1 if there is none. */
  function FirstVisible(visible: seq<bool>, c: int, backward: bool, k: int): (r: int)
    requires |visible| == 3 && 1 <= k <= 4
    ensures -1 <= r < 3
    ensures r >= 0 ==> visible[r]
    decreases 4 - k
  {
    if k == 4 then -1
    else if visible[Offset(c, k, backward)] then Offset(c, k, backward)
    else FirstVisible(visible, c, backward, k + 1)
  }

  predicate AnyVisible(visible: seq<bool>)
    requires |visible| == 3
  {
    visible[0] || visible[1] || visible[2]
  }

  /** The reference marker after selectNextReference: a visible one if there is one, and otherwise the same. */
  function NextReference(visible: seq<bool>, m: MarkerType, backward: bool): (r: MarkerType)
    requires |visible| == 3
    ensures AnyVisible(visible) ==> visible[MarkerIndex(r)]
    ensures !AnyVisible(visible) ==> r == m
  {
    FirstVisibleNearest(visible, MarkerIndex(m), backward, 1);
    var i := FirstVisible(visible, MarkerIndex(m), backward, 1);
    if i < 0 then m else MarkerAt(i)
  }

  /** The three steps of the search reach every marker, the current one last. */
  lemma OffsetDistance(c: int, i: int, backward: bool)
    requires 0 <= c < 3 && 0 <= i < 3
    ensures Offset(c, Distance(c, i, backward), backward) == i
  {
  }

  /** The search finds a marker exactly when one is visible, and from step k it finds one at distance k or more. */
  lemma {:induction false} FirstVisibleNearest(visible: seq<bool>, c: int, backward: bool, k: int)
    requires |visible| == 3 && 0 <= c < 3 && 1 <= k <= 4
    ensures var r := FirstVisible(visible, c, backward, k);
            (r >= 0 ==> visible[r] && k <= Distance(c, r, backward)) &&
            (forall i :: 0 <= i < 3 && visible[i] && k <= Distance(c, i, backward) ==>
               r >= 0 && Distance(c, r, backward) <= Distance(c, i, backward))
    decreases 4 - k
  {
    if k < 4 {
      FirstVisibleNearest(visible, c, backward, k + 1);
      forall i | 0 <= i < 3
        ensures Distance(c, i, backward) == k <==> i == Offset(c, k, backward)
      {
        OffsetDistance(c, i, backward);
      }
    }
  }

  /**
   * When some marker is visible the new reference is visible, and it is the nearest visible
   * marker in the direction of the click (the current marker counting as the farthest).
   */
  lemma NextReferenceNearest(visible: seq<bool>, m: MarkerType, backward: bool)
    requires |visible| == 3
    ensures var r := MarkerIndex(NextReference(visible, m, backward));
            (AnyVisible(visible) ==> visible[r]) &&
            (forall i :: 0 <= i < 3 && visible[i] ==>
               Distance(MarkerIndex(m), r, backward) <= Distance(MarkerIndex(m), i, backward))
  {
    FirstVisibleNearest(visible, MarkerIndex(m), backward, 1);
  }

  /** With only the current marker visible, the reference stays. */
  lemma OnlyCurrentVisibleKeepsReference(visible: seq<bool>, m: MarkerType, backward: bool)
    requires |visible| == 3 && visible[MarkerIndex(m)]
    requires forall i :: 0 <= i < 3 && i != MarkerIndex(m) ==> !visible[i]
    ensures NextReference(visible, m, backward) == m
  {
    NextReferenceNearest(visible, m, backward);
  }

  /** With all three markers visible, the left button goes CoM, DCoM, ACoM, CoM and the right button goes back. */
  lemma AllVisibleCycles(m: MarkerType)
    ensures NextReference([true, true, true], m, false) == MarkerAt((MarkerIndex(m) + 1) % 3)
    ensures NextReference([true, true, true], NextReference([true, true, true], m, false), true) == m
  {
  }

  /**
   * referenceButton: a click, or a reference marker that is no longer visible, selects the next
   * reference. So the window keeps the reference on a visible marker whenever one is visible,
   * and without a click a visible reference stays.
   */
  function ReferenceAfterButton(visible: seq<bool>, m: MarkerType, clicked: bool, backward: bool): (r: MarkerType)
    requires |visible| == 3
    ensures AnyVisible(visible) ==> visible[MarkerIndex(r)]
    ensures !clicked && visible[MarkerIndex(m)] ==> r == m
  {
    if clicked || !visible[MarkerIndex(m)] then NextReference(visible, m, backward) else m
  }

  /** One step of the search: back one marker for the right mouse button, else on one, wrapping round. */
  lemma OffsetStep(c: int, j: int, backward: bool)
    requires 0 <= c < 3 && 0 <= j
    ensures var i := Offset(c, j, backward);
            Offset(c, j + 1, backward) == if backward then (if i - 1 < 0 then 2 else i - 1) else (if i + 1 > 2 then 0 else i + 1)
  {
  }

  /** The loop of selectNextReference: up to three steps from marker c until a visible marker is met. */
  method SearchVisible(visible: seq<bool>, c: int, backward: bool) returns (found: bool, i: int)
    requires |visible| == 3 && 0 <= c < 3
    ensures found <==> FirstVisible(visible, c, backward, 1) >= 0
    ensures found ==> i == FirstVisible(visible, c, backward, 1)
  {
    ghost var target := FirstVisible(visible, c, backward, 1);
    i := c;
    found := false;
    for j := 0 to 3
      invariant 0 <= i < 3
      invariant !found ==> i == Offset(c, j, backward) && target == FirstVisible(visible, c, backward, j + 1)
      invariant found ==> i == target >= 0
    {
      OffsetStep(c, j, backward);
      if backward {
        i := i - 1;
        if i < 0 {
          i := 2;
        }
      } else {
        i := i + 1;
        if i > 2 {
          i := 0;
        }
      }
      if visible[i] {
        found := true;
        break;
      }
    }
  }

  /** selectNextReference, for a click with mouse button `button`. */
  method SelectNextReference(aid: BuildAid, visible: seq<bool>, button: int)
    requires |visible| == 3
    modifies aid
    ensures aid.referenceMarker == NextReference(visible, old(aid.referenceMarker), button == 1)
    ensures aid.direction == old(aid.direction) && aid.ModuleLists() == old(aid.ModuleLists())
    ensures aid.settings == old(aid.settings) && aid.messages == old(aid.messages)
    ensures aid.lastStage == old(aid.lastStage) && aid.hasReference == old(aid.hasReference)
  {
    if !(visible[0] || visible[1] || visible[2]) {
      return;
    }
    var found, i := SearchVisible(visible, MarkerIndex(aid.referenceMarker), button == 1);
    if found {
      aid.SetReferenceMarker(MarkerAt(i));
    }
  }

  /** referenceButton */
  method ReferenceButton(aid: BuildAid, visible: seq<bool>, clicked: bool, button: int)
    requires |visible| == 3
    modifies aid
    ensures aid.referenceMarker == ReferenceAfterButton(visible, old(aid.referenceMarker), clicked, button == 1)
    ensures aid.direction == old(aid.direction) && aid.ModuleLists() == old(aid.ModuleLists())
    ensures aid.settings == old(aid.settings) && aid.messages == old(aid.messages)
    ensures aid.lastStage == old(aid.lastStage) && aid.hasReference == old(aid.hasReference)
  {
    if clicked {
      SelectNextReference(aid, visible, button);
    } else if !visible[MarkerIndex(aid.referenceMarker)] {
      SelectNextReference(aid, visible, button);
    }
  }

  // ---------------------------------------------------------------------------
  // timeFormat

  /** C# `/` on int: the quotient truncated toward zero. */
  function TruncDiv(a: int, b: int): int
    requires b > 0
  {
    if a >= 0 then a / b else -((-a) / b)
  }

  /** C# `%` on int: the remainder takes the sign of the dividend. */
  function TruncMod(a: int, b: int): int
    requires b > 0
  {
    if a >= 0 then a % b else -((-a) % b)
  }

  /** C#'s division identity, and the range of the remainder. */
  lemma TruncDivMod(a: int, b: int)
    requires b > 0
    ensures TruncDiv(a, b) * b + TruncMod(a, b) == a
    ensures a >= 0 ==> 0 <= TruncMod(a, b) < b && TruncDiv(a, b) >= 0
    ensures a < 0 ==> -b < TruncMod(a, b) <= 0 && TruncDiv(a, b) <= 0
  {
  }

  function DigitChar(d: int): (c: char)
    requires 0 <= d < 10
    ensures '0' <= c <= '9'
  {
    "0123456789"[d]
  }

  predicate IsDigit(c: char) { '0' <= c <= '9' }

  predicate AllDigits(s: string)
  {
    forall i :: 0 <= i < |s| ==> IsDigit(s[i])
  }

  /** The decimal digits of n, without leading zeros. */
  function Digits(n: nat): (r: string)
    ensures |r| >= 1 && AllDigits(r)
  {
    if n < 10 then [DigitChar(n)] else Digits(n / 10) + [DigitChar(n % 10)]
  }

  /** The number a string of decimal digits denotes. */
  function DigitsValue(s: string): nat
    requires AllDigits(s)
  {
    if s == [] then 0
    else
      assert IsDigit(s[|s| - 1]);
      DigitsValue(s[..|s| - 1]) * 10 + (s[|s| - 1] as int - '0' as int)
  }

  /** The "D" format of an int: its digits, after '-' when it is negative. */
  function FormatInt(n: int): (r: string)
    ensures forall i :: 0 <= i < |r| ==> IsDigit(r[i]) || r[i] == '-'
  {
    if n < 0 then "-" + Digits(-n) else Digits(n)
  }

  datatype Number = Number(value: int) | NotANumber

  /** Read an optionally negative decimal integer. */
  function ParseInt(s: string): Number
  {
    if |s| >= 2 && s[0] == '-' && AllDigits(s[1..]) then Number(-(DigitsValue(s[1..]) as int))
    else if |s| >= 1 && AllDigits(s) then Number(DigitsValue(s))
    else NotANumber
  }

  lemma {:induction false} DigitsRoundTrip(n: nat)
    ensures DigitsValue(Digits(n)) == n
  {
    var r := Digits(n);
    if n >= 10 {
      DigitsRoundTrip(n / 10);
      assert r[..|r| - 1] == Digits(n / 10);
    }
  }

  /** Every int reads back from its "D" format. */
  lemma FormatIntRoundTrip(n: int)
    ensures ParseInt(FormatInt(n)) == Number(n)
  {
    if n < 0 {
      DigitsRoundTrip(-n);
      assert FormatInt(n)[1..] == Digits(-n);
    } else {
      DigitsRoundTrip(n);
    }
  }

  /**
   * timeFormat, on the int the float burn time is cast to: whole minutes and remaining seconds,
   * as C#'s `/` and `%` give them; the label reads back as exactly those two numbers.
   */
  function TimeFormat(t: Int32): (r: string)
    ensures ParseTime(r) == Reading(TruncDiv(t, 60), TruncMod(t, 60))
  {
    LabelReadsBack(TruncDiv(t, 60), TruncMod(t, 60));
    FormatInt(TruncDiv(t, 60)) + "m " + FormatInt(TruncMod(t, 60)) + "s"
  }

  /** The minutes and seconds a label shows. */
  datatype Reading = Reading(minutes: int, seconds: int) | Unreadable

  /** The position of the first c in s, or |s|. */
  function IndexOf(s: string, c: char): (r: nat)
    ensures r <= |s| && (r < |s| ==> s[r] == c)
    ensures forall i :: 0 <= i < r ==> s[i] != c
  {
    if s == [] then 0 else if s[0] == c then 0 else 1 + IndexOf(s[1..], c)
  }

  /** Read a label of the form "<int>m <int>s". */
  function ParseTime(s: string): Reading
  {
    var k := IndexOf(s, 'm');
    if k + 3 <= |s| && s[k + 1] == ' ' && s[|s| - 1] == 's' then
      match (ParseInt(s[..k]), ParseInt(s[k + 2..|s| - 1]))
      case (Number(a), Number(b)) => Reading(a, b)
      case _ => Unreadable
    else Unreadable
  }

  lemma {:induction false} IndexOfPrefix(a: string, c: char, rest: string)
    requires forall i :: 0 <= i < |a| ==> a[i] != c
    ensures IndexOf(a + [c] + rest, c) == |a|
  {
    if a != [] {
      assert (a + [c] + rest)[1..] == a[1..] + [c] + rest;
      IndexOfPrefix(a[1..], c, rest);
    }
  }

  /** Any label "<x>m <y>s" reads back as x minutes and y seconds. */
  lemma LabelReadsBack(x: int, y: int)
    ensures ParseTime(FormatInt(x) + "m " + FormatInt(y) + "s") == Reading(x, y)
  {
    var a, b := FormatInt(x), FormatInt(y);
    var s := a + "m " + b + "s";
    assert s == a + ['m'] + ([' '] + b + ['s']);
    IndexOfPrefix(a, 'm', [' '] + b + ['s']);
    assert s[..|a|] == a;
    assert s[|a| + 2..|s| - 1] == b;
    FormatIntRoundTrip(x);
    FormatIntRoundTrip(y);
  }

  /** The minutes and seconds the label shows make t again. */
  lemma TimeFormatRoundTrip(t: Int32)
    ensures var r := ParseTime(TimeFormat(t));
            r.Reading? && r.minutes * 60 + r.seconds == t
  {
    TruncDivMod(t, 60);
  }

  /** A burn time that is not negative shows whole minutes and 0 to 59 seconds. */
  lemma TimeFormatSeconds(t: Int32)
    requires t >= 0
    ensures var r := ParseTime(TimeFormat(t));
            r.Reading? && r.minutes == t / 60 && 0 <= r.seconds < 60
  {
    TimeFormatRoundTrip(t);
  }
}

/**
 * Universe levels, level shifts and record labels of the language
 * (src/syntax/mod.rs).
 *
 * `Level` and `LevelShift` wrap a Rust `u32`. Rust's `+` and `+=` on `u32`
 * panic on overflow in a debug build, so every addition here requires that
 * the sum stays below 2^32.
 */
module Syntax {

  /** One more than the largest `u32`. */
  const U32_LIMIT: int := 0x1_0000_0000

  newtype u32 = x: int | 0 <= x < 0x1_0000_0000

  /** A universe level. */
  datatype Level = Level(value: u32)

  /** A shift in universe level. */
  datatype LevelShift = LevelShift(value: u32)

  /** `Level::succ`: the next universe level. */
  function Succ(l: Level): (r: Level)
    requires l.value as int + 1 < U32_LIMIT
    ensures r.value as int == l.value as int + 1
  {
    Level(l.value + 1)
  }

  /** `From<u32> for Level`. */
  function LevelFromU32(n: u32): (l: Level)
    ensures l.value == n
  {
    Level(n)
  }

  /** `From<u32> for LevelShift`. */
  function LevelShiftFromU32(n: u32): (s: LevelShift)
    ensures s.value == n
  {
    LevelShift(n)
  }

  /** `Add for LevelShift`: shifts compose by adding their amounts. */
  function AddShifts(a: LevelShift, b: LevelShift): (r: LevelShift)
    requires a.value as int + b.value as int < U32_LIMIT
    ensures r.value as int == a.value as int + b.value as int
  {
    LevelShift(a.value + b.value)
  }

  /** `Add<LevelShift> for Level`: raise a level by a shift. */
  function ShiftLevel(l: Level, s: LevelShift): (r: Level)
    requires l.value as int + s.value as int < U32_LIMIT
    ensures r.value as int == l.value as int + s.value as int
  {
    Level(l.value + s.value)
  }

  /** Converting a number to a level and reading it back is the identity, both ways. */
  lemma LevelFromU32RoundTrip(l: Level, n: u32)
    ensures LevelFromU32(l.value) == l
    ensures LevelFromU32(n).value == n
  {
  }

  /** The successor of a level is the level raised by a shift of one. */
  lemma SuccIsShiftByOne(l: Level)
    requires l.value as int + 1 < U32_LIMIT
    ensures Succ(l) == ShiftLevel(l, LevelShift(1))
    ensures l.value < Succ(l).value
  {
  }

  lemma AddShiftsCommutative(a: LevelShift, b: LevelShift)
    requires a.value as int + b.value as int < U32_LIMIT
    ensures AddShifts(a, b) == AddShifts(b, a)
  {
  }

  lemma AddShiftsAssociative(a: LevelShift, b: LevelShift, c: LevelShift)
    requires a.value as int + b.value as int + c.value as int < U32_LIMIT
    ensures AddShifts(AddShifts(a, b), c) == AddShifts(a, AddShifts(b, c))
  {
  }

  /** The zero shift is a unit for both additions. */
  lemma ZeroShiftIsUnit(l: Level, s: LevelShift)
    ensures ShiftLevel(l, LevelShift(0)) == l
    ensures AddShifts(s, LevelShift(0)) == s
  {
  }

  /** Shifting a level twice is shifting it once by the sum of the shifts. */
  lemma ShiftLevelTwice(l: Level, a: LevelShift, b: LevelShift)
    requires l.value as int + a.value as int + b.value as int < U32_LIMIT
    ensures ShiftLevel(ShiftLevel(l, a), b) == ShiftLevel(l, AddShifts(a, b))
  {
  }

  /** The receiver of `LevelShift += LevelShift`: a place holding a shift. */
  class LevelShiftPlace {
    var current: LevelShift

    constructor (init: LevelShift)
      ensures current == init
    {
      current := init;
    }

    /** `AddAssign for LevelShift`: leaves the same value as `+`. */
    method AddAssign(other: LevelShift)
      requires current.value as int + other.value as int < U32_LIMIT
      modifies this
      ensures current == AddShifts(old(current), other)
    {
      current := LevelShift(current.value + other.value);
    }
  }

  /** The receiver of `Level += LevelShift`: a place holding a level. */
  class LevelPlace {
    var current: Level

    constructor (init: Level)
      ensures current == init
    {
      current := init;
    }

    /** `AddAssign<LevelShift> for Level`: leaves the same value as `+`. */
    method AddAssign(other: LevelShift)
      requires current.value as int + other.value as int < U32_LIMIT
      modifies this
      ensures current == ShiftLevel(old(current), other)
    {
      current := Level(current.value + other.value);
    }
  }

  /**
   * A record field name. Labels derive their equality and ordering from the
   * wrapped string.
   */
  datatype Label = Label(name: string)

  /** `From<String> for Label`. */
  function LabelFromString(s: string): (l: Label)
    ensures l.name == s
  {
    Label(s)
  }

  datatype Ordering = Less | Equal | Greater

  /**
   * `Ord for String`: lexicographic comparison, a proper prefix coming
   * first. Rust compares the UTF-8 bytes, which orders characters by code
   * point, as Dafny's `<` on `char` does.
   */
  function CompareStrings(a: string, b: string): Ordering
    decreases |a|
  {
    if |a| == 0 then (if |b| == 0 then Equal else Less)
    else if |b| == 0 then Greater
    else if a[0] < b[0] then Less
    else if b[0] < a[0] then Greater
    else CompareStrings(a[1..], b[1..])
  }

  lemma {:induction false} CompareStringsEqual(a: string, b: string)
    ensures CompareStrings(a, b) == Equal <==> a == b
    decreases |a|
  {
    if |a| > 0 && |b| > 0 && a[0] == b[0] {
      CompareStringsEqual(a[1..], b[1..]);
      assert a == [a[0]] + a[1..] && b == [b[0]] + b[1..];
    }
  }

  lemma {:induction false} CompareStringsAntisymmetric(a: string, b: string)
    ensures CompareStrings(a, b) == Less <==> CompareStrings(b, a) == Greater
    decreases |a|
  {
    if |a| > 0 && |b| > 0 && a[0] == b[0] {
      CompareStringsAntisymmetric(a[1..], b[1..]);
    }
  }

  lemma {:induction false} CompareStringsTransitive(a: string, b: string, c: string)
    requires CompareStrings(a, b) == Less && CompareStrings(b, c) == Less
    ensures CompareStrings(a, c) == Less
    decreases |a|
  {
    if |a| > 0 && |b| > 0 && |c| > 0 && a[0] == b[0] && b[0] == c[0] {
      CompareStringsTransitive(a[1..], b[1..], c[1..]);
    }
  }

  /** Derived `Ord for Label`: the order of the wrapped strings. */
  function CompareLabels(a: Label, b: Label): (o: Ordering)
    ensures o == Equal <==> a == b
  {
    CompareStringsEqual(a.name, b.name);
    CompareStrings(a.name, b.name)
  }

  /** Label comparison is a total order: antisymmetric and transitive. */
  lemma LabelOrderIsTotal(a: Label, b: Label, c: Label)
    ensures CompareLabels(a, b) == Less <==> CompareLabels(b, a) == Greater
    ensures CompareLabels(a, b) == Less && CompareLabels(b, c) == Less ==> CompareLabels(a, c) == Less
  {
    CompareStringsAntisymmetric(a.name, b.name);
    if CompareLabels(a, b) == Less && CompareLabels(b, c) == Less {
      CompareStringsTransitive(a.name, b.name, c.name);
    }
  }
}

/**
 * The page's static configuration: the target-time table, the units of the
 * sidebar and the generated list of levels with its default choice.
 */
module Catalog {
  import opened Options

  /** The two target times of one drill in seconds: maru (○) and the stricter niju_maru (◎). */
  datatype Target = Target(maru: nat, nijuMaru: nat)

  const Addition: string := "たし算"
  const Subtraction: string := "ひき算"
  const Multiplication: string := "かけ算"
  const Division: string := "わり算"

  /** The units offered by the sidebar, in display order. */
  const Units: seq<string> := [Addition, Subtraction, Multiplication, Division]

  /** TARGET_TIMES: unit -> level -> targets. */
  const TargetTimes: map<string, map<string, Target>> :=
    map[Addition := map["4-1" := Target(80, 50), "4-2" := Target(90, 60)],
        Subtraction := map["4-1" := Target(85, 55)]]

  /** The drills that TARGET_TIMES lists. */
  predicate HasTargets(unit: string, level: string)
  {
    || (unit == Addition && (level == "4-1" || level == "4-2"))
    || (unit == Subtraction && level == "4-1")
  }

  /**
   * TARGET_TIMES.get(unit, {}).get(level): a missing unit behaves like a unit
   * with no levels. Only three drills have targets, and in each the ◎ time is
   * the stricter one.
   */
  function TargetFor(unit: string, level: string): (r: Option<Target>)
    ensures r.Some? <==> HasTargets(unit, level)
    ensures r.Some? ==> 0 < r.value.nijuMaru < r.value.maru
    ensures unit == Addition && level == "4-1" ==> r == Some(Target(80, 50))
  {
    var levels := if unit in TargetTimes then TargetTimes[unit] else map[];
    if level in levels then Some(levels[level]) else None
  }

  /** The character of a decimal digit. */
  function DigitChar(d: nat): char
    requires d < 10
  {
    (48 + d) as char
  }

  /** str(n): the decimal digits of n, most significant first. */
  function Decimal(n: nat): (s: string)
    ensures |s| >= 1
    ensures n < 10 <==> |s| == 1
    ensures forall k | 0 <= k < |s| :: '0' <= s[k] <= '9'
  {
    if n < 10 then [DigitChar(n)] else Decimal(n / 10) + [DigitChar(n % 10)]
  }

  /** The number a string of decimal digits denotes, most significant digit first. */
  function DigitsValue(s: string): int
  {
    if s == [] then 0 else DigitsValue(s[..|s| - 1]) * 10 + (s[|s| - 1] as int - 48)
  }

  /** The digits of Decimal(n) spell n. */
  lemma {:induction false} DecimalValue(n: nat)
    ensures DigitsValue(Decimal(n)) == n
  {
    if n >= 10 {
      DecimalValue(n / 10);
      var s := Decimal(n);
      assert s[..|s| - 1] == Decimal(n / 10);
    }
  }

  /** Different numbers print differently. */
  lemma DecimalInjective(a: nat, b: nat)
    requires Decimal(a) == Decimal(b)
    ensures a == b
  {
    DecimalValue(a);
    DecimalValue(b);
  }

  /** f"{i}-{j}" */
  function LevelName(i: nat, j: nat): (r: string)
    ensures |r| == |Decimal(i)| + 1 + |Decimal(j)| && r[|Decimal(i)|] == '-'
  {
    Decimal(i) + "-" + Decimal(j)
  }

  /** [f"{i}-{j}" for j in range(j, stop)] for one fixed i. */
  function LevelsOfMajor(i: nat, j: nat, stop: nat): (r: seq<string>)
    decreases stop - j
    ensures j <= stop ==> |r| == stop - j
    ensures forall k | 0 <= k < |r| :: r[k] == LevelName(i, j + k)
  {
    if j >= stop then [] else [LevelName(i, j)] + LevelsOfMajor(i, j + 1, stop)
  }

  /** [f"{i}-{j}" for i in range(i, stop) for j in range(1, 3)] */
  function LevelsFrom(i: nat, stop: nat): (r: seq<string>)
    decreases stop - i
    ensures i <= stop ==> |r| == 2 * (stop - i)
  {
    if i >= stop then [] else LevelsOfMajor(i, 1, 3) + LevelsFrom(i + 1, stop)
  }

  /**
   * Every drill with targets belongs to a unit the sidebar offers, and of the
   * four offered units only addition and subtraction have any.
   */
  lemma TargetsOnlyForListedUnits(unit: string, level: string)
    requires TargetFor(unit, level).Some?
    ensures unit in Units && unit != Multiplication && unit != Division
  {
    assert Units[0] == Addition && Units[1] == Subtraction;
  }

  /** The sidebar's level list; it is the same for every unit. */
  function Levels(): (r: seq<string>)
    ensures |r| == 20
  {
    LevelsFrom(1, 11)
  }

  /** The level preselected when it is offered. */
  const DefaultLevel: string := "4-1"

  /** list.index: the position of the first occurrence of x. */
  function IndexOf<T(==)>(s: seq<T>, x: T): (r: nat)
    requires x in s
    ensures r < |s| && s[r] == x && x !in s[..r]
  {
    if s[0] == x then 0 else IndexOf(s[1..], x) + 1
  }

  /** levels.index("4-1") if "4-1" in levels else 0 */
  function DefaultLevelIndex(levels: seq<string>): (r: nat)
    ensures DefaultLevel in levels ==> r < |levels| && levels[r] == DefaultLevel && DefaultLevel !in levels[..r]
    ensures DefaultLevel !in levels ==> r == 0
  {
    if DefaultLevel in levels then IndexOf(levels, DefaultLevel) else 0
  }

  /** The level list holds, in order, i-1 and i-2 for each i from the start up to stop - 1. */
  lemma {:induction false} LevelsFromAt(i: nat, stop: nat, k: nat)
    requires k < 2 * (stop - i)
    decreases stop - i
    ensures LevelsFrom(i, stop)[k] == LevelName(i + k / 2, 1 + k % 2)
  {
    var head := LevelsOfMajor(i, 1, 3);
    var tail := LevelsFrom(i + 1, stop);
    assert LevelsFrom(i, stop) == head + tail;
    if k < 2 {
      assert (head + tail)[k] == head[k];
      assert k / 2 == 0 && k % 2 == k;
    } else {
      var m := k - 2;
      LevelsFromAt(i + 1, stop, m);
      assert i + k / 2 == (i + 1) + m / 2 && k % 2 == m % 2;
      assert (head + tail)[k] == tail[m];
    }
  }

  /** Twenty levels, 1-1, 1-2, 2-1, ..., 10-2. */
  lemma LevelsAt(k: nat)
    ensures |Levels()| == 20
    ensures k < 20 ==> Levels()[k] == LevelName(1 + k / 2, 1 + k % 2)
  {
    if k < 20 {
      LevelsFromAt(1, 11, k);
    }
  }

  /** Among the generated names only 4-1 spells "4-1". */
  lemma LevelNameIsDefault(i: nat, j: nat)
    requires 1 <= i <= 10 && 1 <= j <= 2
    ensures LevelName(i, j) == DefaultLevel <==> i == 4 && j == 1
  {
    if i < 10 {
      assert LevelName(i, j) == [DigitChar(i), '-', DigitChar(j)];
      if LevelName(i, j) == DefaultLevel {
        assert DigitChar(i) == '4' && DigitChar(j) == '1';
      }
    } else {
      assert |Decimal(i)| == 2;
      assert |LevelName(i, j)| == 4;
    }
  }

  /** The sidebar opens on level 4-1, the seventh entry of the list. */
  lemma DefaultLevelOfSidebar()
    ensures DefaultLevel in Levels()
    ensures DefaultLevelIndex(Levels()) == 6
  {
    var levels := Levels();
    LevelsAt(6);
    LevelNameIsDefault(4, 1);
    assert levels[6] == DefaultLevel;
    forall k | 0 <= k < 6
      ensures levels[k] != DefaultLevel
    {
      LevelsAt(k);
      LevelNameIsDefault(1 + k / 2, 1 + k % 2);
    }
  }
}

/**
  The stress levels: static bands with an inclusive range, an image and a label,
  and the first-match classification the app uses to pick the band for a sample.
 */
module Levels {
  import opened Wrappers

  datatype Level = Level(min: int, max: int, image: string, caption: string)

  /** The table the app installs at startup. */
  const ShippedLevels: seq<Level> := [
    Level(0, 200, "level0.png", "Relaxed"),
    Level(201, 400, "level1.png", "Light Pressure"),
    Level(401, 600, "level2.png", "Medium Pressure"),
    Level(601, 700, "level3.png", "Heavy Pressure"),
    Level(701, 1000, "level4.png", "Maximum Squeeze!")
  ]

  /** `level["min"] <= value <= level["max"]`. */
  predicate Holds(level: Level, v: int) {
    level.min <= v <= level.max
  }

  /**
    The index of the first band whose inclusive range holds `v`, or `None` when
    no band does.
   */
  function Classify(levels: seq<Level>, v: int): (r: Option<nat>)
    ensures r.Some? ==> r.value < |levels| && Holds(levels[r.value], v)
    ensures r.Some? ==> forall j :: 0 <= j < r.value ==> !Holds(levels[j], v)
    ensures r.None? <==> forall j :: 0 <= j < |levels| ==> !Holds(levels[j], v)
  {
    if levels == [] then None
    else if Holds(levels[0], v) then Some(0)
    else match Classify(levels[1..], v)
      case Some(i) => Some(i + 1)
      case None => None
  }

  /** Any band that holds `v` with no earlier band holding it is the one chosen. */
  lemma ClassifyFirst(levels: seq<Level>, v: int, i: nat)
    requires i < |levels| && Holds(levels[i], v)
    requires forall j :: 0 <= j < i ==> !Holds(levels[j], v)
    ensures Classify(levels, v) == Some(i)
  {
  }

  /** Every band is non-empty and lies strictly below the next one. */
  predicate Ordered(levels: seq<Level>) {
    (forall i :: 0 <= i < |levels| ==> levels[i].min <= levels[i].max)
    && (forall i :: 0 <= i < |levels| - 1 ==> levels[i].max < levels[i + 1].min)
  }

  /** In an ordered table a later band starts above the end of every earlier one. */
  lemma {:induction false} OrderedBelow(levels: seq<Level>, i: nat, j: nat)
    requires Ordered(levels)
    requires i < j < |levels|
    ensures levels[i].max < levels[j].min
    decreases j - i
  {
    if i + 1 < j {
      OrderedBelow(levels, i + 1, j);
    }
  }

  /** The bands of an ordered table are pairwise disjoint. */
  lemma OrderedDisjoint(levels: seq<Level>, i: nat, j: nat, v: int)
    requires Ordered(levels)
    requires i < |levels| && j < |levels| && i != j
    ensures !(Holds(levels[i], v) && Holds(levels[j], v))
  {
    if i < j { OrderedBelow(levels, i, j); } else { OrderedBelow(levels, j, i); }
  }

  /** In an ordered table the first match is the only match. */
  lemma OrderedClassify(levels: seq<Level>, v: int, i: nat)
    requires Ordered(levels)
    requires i < |levels| && Holds(levels[i], v)
    ensures Classify(levels, v) == Some(i)
  {
    forall j | 0 <= j < i
      ensures !Holds(levels[j], v)
    {
      OrderedDisjoint(levels, j, i, v);
    }
  }

  lemma ShippedOrdered()
    ensures Ordered(ShippedLevels)
  {
  }

  /**
    With the shipped table every integer 0..1000 lies in exactly one band, and a
    value outside that range lies in none.
   */
  lemma ShippedPartition(v: int)
    ensures (exists i :: 0 <= i < |ShippedLevels| && Holds(ShippedLevels[i], v)) <==> 0 <= v <= 1000
    ensures forall i, j ::
      0 <= i < |ShippedLevels| && 0 <= j < |ShippedLevels| && Holds(ShippedLevels[i], v) && Holds(ShippedLevels[j], v)
      ==> i == j
  {
    ShippedOrdered();
    forall i, j | 0 <= i < |ShippedLevels| && 0 <= j < |ShippedLevels| && i != j
      ensures !(Holds(ShippedLevels[i], v) && Holds(ShippedLevels[j], v))
    {
      OrderedDisjoint(ShippedLevels, i, j, v);
    }
    if 0 <= v <= 200 { assert Holds(ShippedLevels[0], v); }
    else if 201 <= v <= 400 { assert Holds(ShippedLevels[1], v); }
    else if 401 <= v <= 600 { assert Holds(ShippedLevels[2], v); }
    else if 601 <= v <= 700 { assert Holds(ShippedLevels[3], v); }
    else if 701 <= v <= 1000 { assert Holds(ShippedLevels[4], v); }
  }

  /** The band the shipped table gives each value. */
  lemma ShippedClassify(v: int)
    ensures Classify(ShippedLevels, v) ==
      if v < 0 || v > 1000 then None
      else if v <= 200 then Some(0)
      else if v <= 400 then Some(1)
      else if v <= 600 then Some(2)
      else if v <= 700 then Some(3)
      else Some(4)
  {
    ShippedOrdered();
    if v < 0 || v > 1000 {
    } else if v <= 200 { OrderedClassify(ShippedLevels, v, 0); }
    else if v <= 400 { OrderedClassify(ShippedLevels, v, 1); }
    else if v <= 600 { OrderedClassify(ShippedLevels, v, 2); }
    else if v <= 700 { OrderedClassify(ShippedLevels, v, 3); }
    else { OrderedClassify(ShippedLevels, v, 4); }
  }
}

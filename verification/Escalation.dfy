/** How far a provider is stepped along its ladder: hysteresis over the share deficit, then brakes. */
module Escalation {
  import opened Wrappers

  /** `Escalation`: thresholds in percentage points of turn share. */
  datatype Rules = Rules(
    enabled: bool,
    steps: seq<int>,
    release: int,
    minTurns: nat,
    windowHold: int,
    windowDown: int,
    budgetHold: real,
    budgetDown: real)

  const MAX_LADDER_STEPS := 3
  const DEFAULT := Rules(false, [5, 12], 3, 10, 80, 90, 0.8, 0.95)

  predicate StepsOrdered(steps: seq<int>) {
    && 1 <= |steps| <= MAX_LADDER_STEPS
    && (forall k :: 0 <= k < |steps| ==> 1 <= steps[k] <= 100)
    && (forall k :: 0 < k < |steps| ==> steps[k - 1] < steps[k])
  }

  /** `Escalation._ordered` and the field bounds. */
  predicate Ordered(r: Rules) {
    && StepsOrdered(r.steps)
    && 0 <= r.release <= 50 && r.release < r.steps[0]
    && r.minTurns <= 100_000
    && 1 <= r.windowHold <= r.windowDown <= 100
    && 0.0 < r.budgetHold <= r.budgetDown <= 1.0
  }

  lemma BadStep(r: Rules, k: nat)
    requires k < |r.steps|
    requires r.steps[k] < 1 || r.steps[k] > 100 || (k > 0 && r.steps[k] <= r.steps[k - 1])
    ensures !Ordered(r)
  {
  }

  /** One to three thresholds from 1 to 100, strictly ascending, the release below the first. */
  lemma StepsAtTheirBounds()
    ensures Ordered(DEFAULT.(steps := [1], release := 0)) && Ordered(DEFAULT.(steps := [1, 2, 100], release := 0))
    ensures !Ordered(DEFAULT.(steps := [])) && !Ordered(DEFAULT.(steps := [5, 12, 13, 14]))
    ensures !Ordered(DEFAULT.(steps := [0, 12])) && !Ordered(DEFAULT.(steps := [5, 101]))
    ensures !Ordered(DEFAULT.(steps := [5, 5]))
    ensures Ordered(DEFAULT.(steps := [51], release := 50)) && !Ordered(DEFAULT.(steps := [60], release := 51))
  {
    BadStep(DEFAULT.(steps := [0, 12]), 0);
    BadStep(DEFAULT.(steps := [5, 101]), 1);
    BadStep(DEFAULT.(steps := [5, 5]), 1);
  }

  /** Every other bound is inclusive where it says so, and what is beyond it is refused. */
  lemma RulesAtTheirBounds()
    ensures Ordered(DEFAULT.(release := 4)) && !Ordered(DEFAULT.(release := 5)) && !Ordered(DEFAULT.(release := -1))
    ensures Ordered(DEFAULT.(minTurns := 100_000)) && !Ordered(DEFAULT.(minTurns := 100_001))
    ensures Ordered(DEFAULT.(windowHold := 1)) && !Ordered(DEFAULT.(windowHold := 0))
    ensures Ordered(DEFAULT.(windowHold := 90)) && !Ordered(DEFAULT.(windowHold := 91))
    ensures Ordered(DEFAULT.(windowDown := 100)) && !Ordered(DEFAULT.(windowDown := 101))
    ensures Ordered(DEFAULT.(budgetHold := 0.01)) && !Ordered(DEFAULT.(budgetHold := 0.0))
    ensures Ordered(DEFAULT.(budgetHold := 0.95)) && !Ordered(DEFAULT.(budgetHold := 0.96))
    ensures Ordered(DEFAULT.(budgetDown := 1.0)) && !Ordered(DEFAULT.(budgetDown := 1.01))
  {
    assert StepsOrdered([5, 12]);
    hide StepsOrdered;
  }

  /** Reading the rules: field by field, then `_ordered`. */
  method CheckRules(r: Rules) returns (ok: bool)
    ensures ok <==> Ordered(r)
  {
    if |r.steps| < 1 || |r.steps| > 3 || r.release < 0 || r.release > 50 || r.minTurns > 100_000 {
      return false;
    }
    if r.windowHold < 1 || r.windowHold > 100 || r.windowDown < 1 || r.windowDown > 100 {
      return false;
    }
    if r.budgetHold <= 0.0 || r.budgetHold > 1.0 || r.budgetDown <= 0.0 || r.budgetDown > 1.0 {
      return false;
    }
    var i := 0;
    while i < |r.steps|
      invariant 0 <= i <= |r.steps|
      invariant forall k :: 0 <= k < i ==> 1 <= r.steps[k] <= 100
    {
      if r.steps[i] < 1 || r.steps[i] > 100 {
        return false;
      }
      i := i + 1;
    }
    i := 1;
    while i < |r.steps|
      invariant 1 <= i <= |r.steps|
      invariant forall k :: 0 < k < i ==> r.steps[k - 1] < r.steps[k]
    {
      if r.steps[i] <= r.steps[i - 1] {
        return false;
      }
      i := i + 1;
    }
    if r.release >= r.steps[0] || r.windowDown < r.windowHold || r.budgetDown < r.budgetHold {
      return false;
    }
    ok := true;
  }

  // -- the level ------------------------------------------------------------------------------

  function Rising(distance: real, steps: seq<int>): (n: nat)
    ensures n <= |steps|
  {
    if steps == [] then 0
    else Rising(distance, steps[..|steps| - 1]) + (if distance >= steps[|steps| - 1] as real then 1 else 0)
  }

  /** The highest of the first `k` levels whose threshold, less the release, is still met. */
  function Holding(distance: real, k: nat, steps: seq<int>, release: int): (n: nat)
    requires k <= |steps|
    ensures n <= k
  {
    if k == 0 then 0
    else if distance >= (steps[k - 1] - release) as real then k
    else Holding(distance, k - 1, steps, release)
  }

  /** `_magnitude`. */
  function Magnitude(distance: real, held: nat, steps: seq<int>, release: int): (level: nat)
    ensures level <= |steps|
  {
    var rising := Rising(distance, steps);
    var holding := Holding(distance, if held < |steps| then held else |steps|, steps, release);
    if rising > holding then rising else holding
  }

  predicate Ascending(steps: seq<int>) {
    forall i, j :: 0 <= i < j < |steps| ==> steps[i] < steps[j]
  }

  lemma {:induction false} OrderedIsAscending(steps: seq<int>, i: nat, j: nat)
    requires forall k :: 0 < k < |steps| ==> steps[k - 1] < steps[k]
    requires i < j < |steps|
    ensures steps[i] < steps[j]
  {
    if i + 1 < j {
      OrderedIsAscending(steps, i, j - 1);
    }
  }

  lemma {:induction false} RisingCounts(distance: real, steps: seq<int>, k: nat)
    requires Ascending(steps) && 1 <= k <= |steps|
    ensures Rising(distance, steps) >= k <==> distance >= steps[k - 1] as real
    decreases |steps|
  {
    var front := steps[..|steps| - 1];
    if k < |steps| {
      RisingCounts(distance, front, k);
    } else if k > 1 {
      RisingCounts(distance, front, k - 1);
    }
  }

  lemma {:induction false} HoldingHolds(distance: real, held: nat, steps: seq<int>, release: int, k: nat)
    requires Ascending(steps) && held <= |steps| && 1 <= k <= |steps|
    ensures Holding(distance, held, steps, release) >= k
            <==> k <= held && distance >= (steps[k - 1] - release) as real
    decreases held
  {
    if held > 0 {
      if distance >= (steps[held - 1] - release) as real {
        assert k < held ==> steps[k - 1] < steps[held - 1];
      } else {
        HoldingHolds(distance, held - 1, steps, release, k);
      }
    }
  }

  /** The level is a stack of independent Schmitt triggers: threshold k is met exactly when the
      distance reaches it, or it was held and the distance is not yet the release back inside. */
  lemma SchmittTrigger(distance: real, held: nat, steps: seq<int>, release: int, k: nat)
    requires Ascending(steps) && 1 <= k <= |steps|
    ensures Magnitude(distance, held, steps, release) >= k
            <==> distance >= steps[k - 1] as real
                 || (held >= k && distance >= (steps[k - 1] - release) as real)
  {
    RisingCounts(distance, steps, k);
    HoldingHolds(distance, if held < |steps| then held else |steps|, steps, release, k);
  }

  /** Reading the same distance again does not move the level. */
  lemma MagnitudeIsIdempotent(distance: real, held: nat, steps: seq<int>, release: int)
    requires Ascending(steps) && release >= 0
    ensures var level := Magnitude(distance, held, steps, release);
            Magnitude(distance, level, steps, release) == level
  {
    var level := Magnitude(distance, held, steps, release);
    var again := Magnitude(distance, level, steps, release);
    if level > 0 {
      SchmittTrigger(distance, held, steps, release, level);
      SchmittTrigger(distance, level, steps, release, level);
    }
    if again > 0 {
      SchmittTrigger(distance, held, steps, release, again);
      SchmittTrigger(distance, level, steps, release, again);
    }
  }

  /** A larger distance or a higher held level never gives a lower one. */
  lemma MagnitudeIsMonotone(d1: real, d2: real, h1: nat, h2: nat, steps: seq<int>, release: int)
    requires Ascending(steps) && d1 <= d2 && h1 <= h2
    ensures Magnitude(d1, h1, steps, release) <= Magnitude(d2, h2, steps, release)
  {
    var k := Magnitude(d1, h1, steps, release);
    if k > 0 {
      SchmittTrigger(d1, h1, steps, release, k);
      SchmittTrigger(d2, h2, steps, release, k);
    }
  }

  /** The levels read over a run of distances, each from the one before. */
  function Levels(distances: seq<real>, start: nat, steps: seq<int>, release: int): (levels: seq<nat>)
    ensures |levels| == |distances| + 1
  {
    if distances == [] then [start]
    else
      var levels := Levels(distances[..|distances| - 1], start, steps, release);
      levels + [Magnitude(distances[|distances| - 1], levels[|levels| - 1], steps, release)]
  }

  lemma {:induction false} LevelsStep(distances: seq<real>, start: nat, steps: seq<int>, release: int, i: nat)
    requires i < |distances|
    ensures var l := Levels(distances, start, steps, release);
            l[0] == start && l[i + 1] == Magnitude(distances[i], l[i], steps, release)
    decreases |distances|
  {
    var front := distances[..|distances| - 1];
    if front != [] {
      LevelsStep(front, start, steps, release, if i < |front| then i else 0);
    }
  }

  /** Threshold k flips at step i of a run. */
  predicate Flips(levels: seq<nat>, k: nat, i: nat)
    requires i + 1 < |levels|
  {
    (levels[i] >= k) != (levels[i + 1] >= k)
  }

  /** No flapping: while the signal stays within a span of `release` points, each threshold flips
      at most once, whatever the level was to begin with. */
  lemma FlipsAtMostOnce(distances: seq<real>, start: nat, steps: seq<int>, release: int, k: nat,
      i: nat, j: nat)
    requires Ascending(steps) && 1 <= k <= |steps| && i < j < |distances|
    requires forall a, b :: 0 <= a < |distances| && 0 <= b < |distances| ==>
               distances[a] - distances[b] <= release as real
    ensures var l := Levels(distances, start, steps, release);
            !(Flips(l, k, i) && Flips(l, k, j))
  {
    var l := Levels(distances, start, steps, release);
    var on := steps[k - 1] as real;
    LevelsStep(distances, start, steps, release, i);
    SchmittTrigger(distances[i], l[i], steps, release, k);
    if Flips(l, k, i) {
      if l[i + 1] >= k {
        assert distances[i] >= on;
        StaysOn(distances, start, steps, release, k, i, j);
        StaysOn(distances, start, steps, release, k, i, j + 1);
      } else {
        assert distances[i] < (steps[k - 1] - release) as real;
        StaysOff(distances, start, steps, release, k, i, j);
        StaysOff(distances, start, steps, release, k, i, j + 1);
      }
    }
  }

  lemma {:induction false} StaysOn(distances: seq<real>, start: nat, steps: seq<int>, release: int, k: nat,
      i: nat, j: nat)
    requires Ascending(steps) && 1 <= k <= |steps| && i < j <= |distances|
    requires forall a, b :: 0 <= a < |distances| && 0 <= b < |distances| ==>
               distances[a] - distances[b] <= release as real
    requires distances[i] >= steps[k - 1] as real
    ensures Levels(distances, start, steps, release)[j] >= k
    decreases j
  {
    var l := Levels(distances, start, steps, release);
    LevelsStep(distances, start, steps, release, j - 1);
    SchmittTrigger(distances[j - 1], l[j - 1], steps, release, k);
    if i < j - 1 {
      StaysOn(distances, start, steps, release, k, i, j - 1);
      assert distances[i] - distances[j - 1] <= release as real;
    }
  }

  lemma {:induction false} StaysOff(distances: seq<real>, start: nat, steps: seq<int>, release: int, k: nat,
      i: nat, j: nat)
    requires Ascending(steps) && 1 <= k <= |steps| && i < j <= |distances|
    requires forall a, b :: 0 <= a < |distances| && 0 <= b < |distances| ==>
               distances[a] - distances[b] <= release as real
    requires distances[i] < (steps[k - 1] - release) as real && release >= 0
    ensures Levels(distances, start, steps, release)[j] < k
    decreases j
  {
    var l := Levels(distances, start, steps, release);
    LevelsStep(distances, start, steps, release, j - 1);
    SchmittTrigger(distances[j - 1], l[j - 1], steps, release, k);
    assert distances[j - 1] - distances[i] <= release as real;
    if i < j - 1 {
      StaysOff(distances, start, steps, release, k, i, j - 1);
    }
  }

  // -- brakes -----------------------------------------------------------------------------------

  /** What one read of the pool says about a provider. */
  datatype Signal = Signal(
    steerable: bool,
    tracked: bool,
    deficit: Option<real>,
    sampleTurns: nat,
    available: bool,
    windowPercent: Option<real>,
    budgetRatio: Option<real>)

  /** The level before brakes, signed: above the base when under target, below when over. */
  function Unbraked(r: Rules, s: Signal, previous: int): (level: int)
    requires s.deficit.Some?
    ensures -|r.steps| <= level <= |r.steps|
  {
    var d := s.deficit.value;
    if s.sampleTurns < r.minTurns then 0
    else if d > 0.0 then Magnitude(d, if previous > 0 then previous else 0, r.steps, r.release)
    else if d < 0.0 then 0 - Magnitude(-d, if previous < 0 then -previous else 0, r.steps, r.release)
    else 0
  }

  /** The level before brakes follows the deficit: nothing without enough turns or a deficit, above the
      base when under target and below it when over, each by the same stack of thresholds over the
      distance, of which only what was held on the same side counts. */
  lemma UnbrakedFollowsDeficit(r: Rules, s: Signal, previous: int, k: nat)
    requires s.deficit.Some? && Ascending(r.steps) && 1 <= k <= |r.steps|
    ensures var d, level := s.deficit.value, Unbraked(r, s, previous);
            && (s.sampleTurns < r.minTurns || d == 0.0 ==> level == 0)
            && (level > 0 ==> d > 0.0) && (level < 0 ==> d < 0.0)
            && (s.sampleTurns >= r.minTurns && d > 0.0 ==>
                  (level >= k <==> d >= r.steps[k - 1] as real
                                   || (previous >= k && d >= (r.steps[k - 1] - r.release) as real)))
            && (s.sampleTurns >= r.minTurns && d < 0.0 ==>
                  (-level >= k <==> -d >= r.steps[k - 1] as real
                                    || (-previous >= k && -d >= (r.steps[k - 1] - r.release) as real)))
  {
    var d := s.deficit.value;
    if d > 0.0 {
      SchmittTrigger(d, if previous > 0 then previous else 0, r.steps, r.release, k);
    } else if d < 0.0 {
      SchmittTrigger(-d, if previous < 0 then -previous else 0, r.steps, r.release, k);
    }
  }

  /** Over target is under target seen in a mirror. */
  lemma UnbrakedIsSymmetric(r: Rules, s: Signal, previous: int)
    requires s.deficit.Some?
    ensures Unbraked(r, s.(deficit := Some(-s.deficit.value)), -previous) == -Unbraked(r, s, previous)
  {
    assert s.deficit.value == -(-s.deficit.value);
  }

  /** Each brake caps the level by what it is evidence of: a unit below the base when usage or a budget is
      over its upper bound, the base when one is over its lower bound or the provider is not available. */
  lemma BrakesExactly(r: Rules, s: Signal)
    ensures -1 in Brakes(r, s) <==>
            || (s.windowPercent.Some? && s.windowPercent.value >= r.windowDown as real)
            || (s.budgetRatio.Some? && s.budgetRatio.value >= r.budgetDown)
    ensures 0 in Brakes(r, s) <==>
            || !s.available
            || (s.windowPercent.Some? && r.windowHold as real <= s.windowPercent.value < r.windowDown as real)
            || (s.budgetRatio.Some? && r.budgetHold <= s.budgetRatio.value < r.budgetDown)
  {
  }

  /** The caps in force, in the order they are collected. */
  function Brakes(r: Rules, s: Signal): (caps: seq<int>)
    ensures forall c :: c in caps ==> -1 <= c <= 0
  {
    (if s.available then [] else [0]) +
    (if s.windowPercent == None then []
     else if s.windowPercent.value >= r.windowDown as real then [-1]
     else if s.windowPercent.value >= r.windowHold as real then [0]
     else []) +
    (if s.budgetRatio == None then []
     else if s.budgetRatio.value >= r.budgetDown then [-1]
     else if s.budgetRatio.value >= r.budgetHold then [0]
     else [])
  }

  /** `sorted(brakes)`: insertion into an ascending list. */
  function Inserted(c: int, caps: seq<int>): (sorted: seq<int>) {
    if caps == [] then [c]
    else if c <= caps[0] then [c] + caps
    else [caps[0]] + Inserted(c, caps[1..])
  }

  function Sorted(caps: seq<int>): seq<int> {
    if caps == [] then [] else Inserted(caps[0], Sorted(caps[1..]))
  }

  predicate Increasing(caps: seq<int>) {
    forall i, j :: 0 <= i < j < |caps| ==> caps[i] <= caps[j]
  }

  lemma {:induction false} InsertedIsSorted(c: int, caps: seq<int>)
    requires Increasing(caps)
    ensures Increasing(Inserted(c, caps))
    ensures forall x :: x in Inserted(c, caps) <==> x == c || x in caps
    decreases |caps|
  {
    if caps != [] && c > caps[0] {
      var rest := Inserted(c, caps[1..]);
      InsertedIsSorted(c, caps[1..]);
      forall x | x in rest ensures caps[0] <= x {
      }
      var all := [caps[0]] + rest;
      forall i, j | 0 <= i < j < |all| ensures all[i] <= all[j] {
        assert all[j] == rest[j - 1] && rest[j - 1] in rest;
      }
    }
  }

  lemma {:induction false} SortedIsSorted(caps: seq<int>)
    ensures Increasing(Sorted(caps))
    ensures forall x :: x in Sorted(caps) <==> x in caps
    decreases |caps|
  {
    if caps != [] {
      SortedIsSorted(caps[1..]);
      InsertedIsSorted(caps[0], Sorted(caps[1..]));
    }
  }

  /** Whether a provider is stepped at all. */
  predicate Steered(r: Rules, s: Signal) {
    r.enabled && s.steerable && s.tracked && s.deficit.Some?
  }

  /** `_escalation`: the first sorted cap below the level wins, and that is the least of them all:
      the level becomes its minimum with every cap, and stays within the number of steps. */
  method Level(r: Rules, s: Signal, previous: int) returns (level: int)
    ensures !Steered(r, s) ==> level == 0
    ensures Steered(r, s) ==>
              && level <= Unbraked(r, s, previous)
              && (forall c :: c in Brakes(r, s) ==> level <= c)
              && (level == Unbraked(r, s, previous) || level in Brakes(r, s))
    ensures Ordered(r) ==> -|r.steps| <= level <= |r.steps|
  {
    if !Steered(r, s) {
      return 0;
    }
    level := Unbraked(r, s, previous);
    var caps := Sorted(Brakes(r, s));
    SortedIsSorted(Brakes(r, s));
    hide Brakes, Unbraked, Sorted, Ordered;
    var i := 0;
    while i < |caps|
      invariant 0 <= i <= |caps|
      invariant forall k :: 0 <= k < i ==> level <= caps[k]
    {
      if level > caps[i] {
        assert caps[i] in caps;
        return caps[i];
      }
      i := i + 1;
    }
  }

  // -- ladders ------------------------------------------------------------------------------------

  datatype Selection = Selection(model: Option<string>, effort: Option<string>)

  datatype Ladder = Ladder(below: seq<Selection>, above: seq<Selection>)

  /** `step_selection` for one role and provider; an absent selection is the empty one. */
  function StepSelection(selection: Option<Selection>, ladder: Option<Ladder>, level: int)
    : (r: (Selection, int))
  {
    var base := if selection.Some? then selection.value else Selection(None, None);
    if ladder == None || level == 0 then (base, 0)
    else if level > 0 then
      var above := ladder.value.above;
      var reached := if level < |above| then level else |above|;
      if reached > 0 then (above[reached - 1], reached) else (base, 0)
    else
      var below := ladder.value.below;
      var reached := if -level < |below| then -level else |below|;
      if reached > 0 then (below[reached - 1], -reached) else (base, 0)
  }

  /** A step never reaches past its ladder or past what was asked, never changes direction, and is
      where the level says unless the ladder ends first. */
  lemma StepStaysOnLadder(selection: Option<Selection>, ladder: Option<Ladder>, level: int)
    ensures var (chosen, reached) := StepSelection(selection, ladder, level);
            && (level >= 0 ==> 0 <= reached <= level)
            && (level <= 0 ==> level <= reached <= 0)
            && (ladder == None ==> reached == 0)
            && (ladder.Some? ==> -|ladder.value.below| <= reached <= |ladder.value.above|)
            && (reached > 0 ==> chosen == ladder.value.above[reached - 1])
            && (reached < 0 ==> chosen == ladder.value.below[-reached - 1])
            && (reached == 0 ==> chosen == selection.GetOr(Selection(None, None)))
            && (ladder.Some? && -|ladder.value.below| <= level <= |ladder.value.above| ==> reached == level)
  {
  }

  /** A higher level never reaches a lower step. */
  lemma StepIsMonotone(selection: Option<Selection>, ladder: Option<Ladder>, l1: int, l2: int)
    requires l1 <= l2
    ensures StepSelection(selection, ladder, l1).1 <= StepSelection(selection, ladder, l2).1
  {
  }
}

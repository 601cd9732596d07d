/** The key lookup budget of one source (apps/ssh-gateway/src/admission.ts), counted in sixty-
    thousandths of a lookup so that refilling by the millisecond is exact. */
module TokenBucket {
  /** One lookup, in the units counted. */
  const LOOKUP := 60_000

  function Full(budget: nat): nat {
    budget * LOOKUP
  }

  function Min(a: int, b: int): int {
    if a < b then a else b
  }

  /** The level after so many milliseconds. */
  function Refilled(level: int, elapsed: nat, budget: nat): int {
    Min(Full(budget), level + elapsed * budget)
  }

  lemma {:induction false} RefillTwice(level: int, a: nat, b: nat, budget: nat)
    ensures Refilled(Refilled(level, a, budget), b, budget) == Refilled(level, a + b, budget)
  {
    assert (a + b) * budget == a * budget + b * budget;
    assert b * budget >= 0;
  }

  lemma {:induction false} RefillFull(elapsed: nat, budget: nat)
    ensures Refilled(Full(budget), elapsed, budget) == Full(budget)
  {
    assert elapsed * budget >= 0;
  }

  /** What happens to a source's bucket: a lookup taken, a take refused, a lookup given back, or
      nothing but time. A sweep forgets the bucket and an admission makes it anew; since only a full
      one is forgotten, and a new one is full, neither is a change of level. */
  datatype Use = Taken | TakeRefused | Refunded | Nothing
  datatype Step = Step(elapsed: nat, use: Use)

  /** A level once used. */
  function Used(level: int, use: Use, budget: nat): int {
    match use
    case Taken => level - LOOKUP
    case Refunded => Min(Full(budget), level + LOOKUP)
    case TakeRefused => level
    case Nothing => level
  }

  /** A take succeeds exactly when a whole lookup is left. */
  predicate UseOk(level: int, use: Use) {
    (use == Taken ==> level >= LOOKUP) && (use == TakeRefused ==> level < LOOKUP)
  }

  function LevelAfter(level: int, steps: seq<Step>, budget: nat): int {
    if steps == [] then level
    else
      var s := steps[|steps| - 1];
      Used(Refilled(LevelAfter(level, steps[..|steps| - 1], budget), s.elapsed, budget), s.use, budget)
  }

  ghost predicate TakesOk(level: int, steps: seq<Step>, budget: nat) {
    steps == []
    || var s := steps[|steps| - 1];
       && TakesOk(level, steps[..|steps| - 1], budget)
       && UseOk(Refilled(LevelAfter(level, steps[..|steps| - 1], budget), s.elapsed, budget), s.use)
  }

  function NetTakes(steps: seq<Step>): int {
    if steps == [] then 0
    else
      NetTakes(steps[..|steps| - 1])
      + match steps[|steps| - 1].use case Taken => 1 case Refunded => -1 case TakeRefused => 0 case Nothing => 0
  }

  function Elapsed(steps: seq<Step>): nat {
    if steps == [] then 0 else Elapsed(steps[..|steps| - 1]) + steps[|steps| - 1].elapsed
  }

  lemma {:induction false} LevelInRange(level: int, steps: seq<Step>, budget: nat)
    requires 0 <= level <= Full(budget) && TakesOk(level, steps, budget)
    ensures 0 <= LevelAfter(level, steps, budget) <= Full(budget)
  {
    if steps != [] {
      LevelInRange(level, steps[..|steps| - 1], budget);
      assert steps[|steps| - 1].elapsed * budget >= 0;
    }
  }

  /** A window of the steps, by the level at its start. */
  lemma {:induction false} Split(level: int, before: seq<Step>, after: seq<Step>, budget: nat)
    ensures LevelAfter(level, before + after, budget) == LevelAfter(LevelAfter(level, before, budget), after, budget)
    ensures TakesOk(level, before + after, budget)
            <==> TakesOk(level, before, budget) && TakesOk(LevelAfter(level, before, budget), after, budget)
    ensures NetTakes(before + after) == NetTakes(before) + NetTakes(after)
    ensures Elapsed(before + after) == Elapsed(before) + Elapsed(after)
  {
    if after == [] {
      assert before + after == before;
    } else {
      var n := |after| - 1;
      assert (before + after)[..|before + after| - 1] == before + after[..n];
      Split(level, before, after[..n], budget);
    }
  }

  lemma {:induction false} ElapsedGrows(steps: seq<Step>, budget: nat)
    requires steps != []
    ensures Elapsed(steps) * budget == Elapsed(steps[..|steps| - 1]) * budget + steps[|steps| - 1].elapsed * budget
  {
  }

  /** In any window, the level left and lookups taken less lookups given back come to no more than the
      level at its start and what the elapsed time refills. */
  lemma {:induction false} WindowSpends(level: int, steps: seq<Step>, budget: nat)
    ensures NetTakes(steps) * LOOKUP + LevelAfter(level, steps, budget) <= level + Elapsed(steps) * budget
  {
    if steps != [] {
      WindowSpends(level, steps[..|steps| - 1], budget);
      ElapsedGrows(steps, budget);
    }
  }

  /** So from one operation to another they come to no more than the budget and what the time between
      the two refills. */
  lemma {:induction false} WindowBound(level: int, steps: seq<Step>, budget: nat)
    requires 0 <= level <= Full(budget) && TakesOk(level, steps, budget) && steps != []
    ensures NetTakes(steps) * LOOKUP <= Full(budget) + Elapsed(steps[1..]) * budget
  {
    var first, rest := steps[..1], steps[1..];
    assert steps == first + rest;
    Split(level, first, rest, budget);
    LevelInRange(level, steps, budget);
    WindowSpends(LevelAfter(level, first, budget), rest, budget);
    FirstSpends(level, steps[0], budget);
  }

  lemma {:induction false} FirstSpends(level: int, s: Step, budget: nat)
    ensures NetTakes([s]) * LOOKUP + LevelAfter(level, [s], budget) <= Full(budget)
  {
    assert [s][..0] == [];
    assert NetTakes([s]) == match s.use case Taken => 1 case Refunded => -1 case TakeRefused => 0 case Nothing => 0;
  }

  /** The bound on any window of a longer history. */
  lemma {:induction false} AnyWindowBound(level: int, steps: seq<Step>, i: nat, j: nat, budget: nat)
    requires 0 <= level <= Full(budget) && TakesOk(level, steps, budget) && i < j <= |steps|
    ensures NetTakes(steps[i..j]) * LOOKUP <= Full(budget) + Elapsed(steps[i + 1..j]) * budget
  {
    assert steps == steps[..j] + steps[j..] && steps[..j] == steps[..i] + steps[i..j];
    Split(level, steps[..j], steps[j..], budget);
    Split(level, steps[..i], steps[i..j], budget);
    LevelInRange(level, steps[..i], budget);
    WindowBound(LevelAfter(level, steps[..i], budget), steps[i..j], budget);
    assert steps[i..j][1..] == steps[i + 1..j];
  }

  /** While nothing is taken, the level is at least what the time since refills, up to the budget. */
  lemma {:induction false} RestRefills(level: int, steps: seq<Step>, budget: nat)
    requires 0 <= level <= Full(budget) && forall k | 0 <= k < |steps| :: steps[k].use != Taken
    ensures Min(Full(budget), level + Elapsed(steps) * budget) <= LevelAfter(level, steps, budget) <= Full(budget)
  {
    if steps != [] {
      RestRefills(level, steps[..|steps| - 1], budget);
      ElapsedGrows(steps, budget);
      assert Elapsed(steps[..|steps| - 1]) * budget >= 0 && steps[|steps| - 1].elapsed * budget >= 0;
    }
  }

  /** A minute in which nothing is taken leaves a full budget, whatever was left of it. */
  lemma {:induction false} MinuteRefills(level: int, steps: seq<Step>, rest: nat, budget: nat)
    requires 0 <= level <= Full(budget) && (forall k | 0 <= k < |steps| :: steps[k].use != Taken)
    requires Elapsed(steps) + rest >= 60_000
    ensures Refilled(LevelAfter(level, steps, budget), rest, budget) == budget * 60_000
  {
    RestRefills(level, steps, budget);
    assert (Elapsed(steps) + rest) * budget >= 60_000 * budget by { Grows(60_000, Elapsed(steps) + rest, budget); }
    assert (Elapsed(steps) + rest) * budget == Elapsed(steps) * budget + rest * budget;
    assert rest * budget >= 0;
  }

  lemma {:induction false} Grows(a: nat, b: nat, budget: nat)
    requires a <= b
    ensures a * budget <= b * budget
  {
    assert b * budget == a * budget + (b - a) * budget && (b - a) * budget >= 0;
  }

  /** A full budget serves exactly as many lookups at once as it is for. */
  lemma {:induction false} FullBudgetServes(takes: seq<Step>, budget: nat)
    requires forall k | 0 <= k < |takes| :: takes[k] == Step(0, Taken)
    ensures TakesOk(budget * 60_000, takes, budget) <==> |takes| <= budget
    ensures |takes| <= budget ==> LevelAfter(budget * 60_000, takes, budget) == (budget - |takes|) * 60_000
  {
    if takes != [] { FullBudgetServes(takes[..|takes| - 1], budget); }
  }
}

/**
  The marker entity's show/hide hysteresis (EntityContainer in
  ViewController.swift).  A counter in [0, MaxThreshold] is reset to the
  maximum on every detection and counts down on every miss; the entity is
  enabled exactly while the counter is positive, so a few missed frames do
  not make the marker flicker.
*/
module Hysteresis {
  import opened Geometry

  /** `maxThreshold`. */
  const MaxThreshold: int := 5

  /** What the frame handler reports to the entity: `found()` or `notFound()`. */
  datatype Signal = Hit | Miss

  predicate InRange(threshold: int) {
    0 <= threshold <= MaxThreshold
  }

  /** The `didSet` rule: the entity is enabled exactly when the counter is positive. */
  predicate Visible(threshold: int) {
    threshold > 0
  }

  function Max0(n: int): nat {
    if n > 0 then n else 0
  }

  /** The counter after one call: `found()` resets it, `notFound()` counts down unless already at 0. */
  function Step(threshold: int, s: Signal): (r: int)
    ensures InRange(threshold) ==> InRange(r)
    ensures s == Hit ==> r == MaxThreshold && Visible(r)
    ensures s == Miss && threshold > 0 ==> r == threshold - 1
    ensures s == Miss && threshold <= 0 ==> r == threshold
  {
    match s
    case Hit => MaxThreshold
    case Miss => if threshold > 0 then threshold - 1 else threshold
  }

  /** The counter after the calls in `signals`, made in order from `threshold`. */
  function Run(threshold: int, signals: seq<Signal>): (r: int)
    ensures signals == [] ==> r == threshold
    ensures signals != [] && signals[|signals| - 1] == Hit ==> r == MaxThreshold
    ensures threshold >= 0 ==> r >= 0
    decreases |signals|
  {
    if signals == [] then threshold
    else Step(Run(threshold, signals[..|signals| - 1]), signals[|signals| - 1])
  }

  /** `k` consecutive `notFound()` calls. */
  function Misses(k: nat): (s: seq<Signal>)
    ensures |s| == k && forall i | 0 <= i < k :: s[i] == Miss
  {
    seq(k, _ => Miss)
  }

  /** Whatever the calls, a counter that starts in range stays in range. */
  lemma {:induction false} RunInRange(threshold: int, signals: seq<Signal>)
    requires InRange(threshold)
    ensures InRange(Run(threshold, signals))
    decreases |signals|
  {
    if signals != [] {
      RunInRange(threshold, signals[..|signals| - 1]);
    }
  }

  /** With no `found()` at all, each miss takes one off the counter until it reaches 0. */
  lemma {:induction false} RunOnlyMisses(threshold: int, signals: seq<Signal>)
    requires threshold >= 0
    requires forall k | 0 <= k < |signals| :: signals[k] == Miss
    ensures Run(threshold, signals) == Max0(threshold - |signals|)
    decreases |signals|
  {
    if signals != [] {
      RunOnlyMisses(threshold, signals[..|signals| - 1]);
    }
  }

  /**
    The counter depends only on the misses since the last `found()`: if
    `signals[j]` is the last hit, the counter is MaxThreshold minus the number
    of calls after it, floored at 0, whatever the history before it.
  */
  lemma {:induction false} RunAfterLastHit(threshold: int, signals: seq<Signal>, j: nat)
    requires j < |signals| && signals[j] == Hit
    requires forall k | j < k < |signals| :: signals[k] == Miss
    ensures Run(threshold, signals) == Max0(MaxThreshold - (|signals| - 1 - j))
    decreases |signals|
  {
    if j < |signals| - 1 {
      RunAfterLastHit(threshold, signals[..|signals| - 1], j);
    }
  }

  /**
    After a `found()`, the entity stays enabled through MaxThreshold - 1
    consecutive `notFound()` calls and is disabled by exactly the
    MaxThreshold-th one; further misses keep the counter at 0.
  */
  lemma HitThenMisses(threshold: int, k: nat)
    ensures Run(threshold, [Hit] + Misses(k)) == Max0(MaxThreshold - k)
    ensures Visible(Run(threshold, [Hit] + Misses(k))) <==> k < MaxThreshold
  {
    RunAfterLastHit(threshold, [Hit] + Misses(k), 0);
  }

  /** A snapshot of an EntityContainer's fields. */
  datatype EntityState = EntityState(threshold: int, isEnabled: bool, position: Vec3, history: seq<Signal>)

  /** The RealityKit entity carrying the bread marker: its counter, enabled flag and position. */
  class EntityContainer {
    var threshold: int
    var isEnabled: bool
    var position: Vec3
    /** The `found()` / `notFound()` calls made so far, oldest first. */
    ghost var history: seq<Signal>

    /** The counter is in range, `isEnabled` follows it, and it is what the calls made so far produce. */
    ghost predicate Valid()
      reads this
    {
      InRange(threshold) && isEnabled == Visible(threshold) && threshold == Run(0, history)
    }

    ghost function State(): EntityState
      reads this
    {
      EntityState(threshold, isEnabled, position, history)
    }

    /** A new container as the lazy initialiser leaves it: counter 0, entity disabled. */
    constructor ()
      ensures Valid()
      ensures threshold == 0 && !isEnabled && history == []
      ensures position == Vec3(0.0, 0.0, 0.0)
    {
      threshold := 0;
      isEnabled := false;
      position := Vec3(0.0, 0.0, 0.0);
      history := [];
    }

    /** Assignment to `threshold`, with its `didSet` observer. */
    method SetThreshold(t: int)
      modifies this
      ensures threshold == t && isEnabled == Visible(t)
      ensures position == old(position) && history == old(history)
    {
      threshold := t;
      isEnabled := threshold > 0;
    }

    /** `notFound()`: one step down, unless the counter is already 0. */
    method NotFound()
      requires Valid()
      modifies this
      ensures Valid()
      ensures history == old(history) + [Miss]
      ensures old(threshold) == 0 ==> threshold == 0 && isEnabled == old(isEnabled)
      ensures old(threshold) > 0 ==> threshold == old(threshold) - 1
      ensures isEnabled <==> threshold > 0
      ensures position == old(position)
    {
      history := history + [Miss];
      if !(threshold > 0) {
        return;
      }
      SetThreshold(threshold - 1);
    }

    /** `found()`: the counter goes to MaxThreshold whatever it was, so the entity is enabled. */
    method Found()
      requires Valid()
      modifies this
      ensures Valid()
      ensures history == old(history) + [Hit]
      ensures threshold == MaxThreshold && isEnabled
      ensures position == old(position)
    {
      history := history + [Hit];
      SetThreshold(MaxThreshold);
    }
  }
}

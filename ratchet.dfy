/**
 * The ratchet behind `applySliderVolume`: the platform only offers relative
 * raise/lower steps, so an absolute target is reached by a bounded run of
 * guarded steps. These functions are the specification the service's loop
 * is proved against; the lemmas state what the run guarantees.
 */
module Ratchet {
  import opened Audio
  import opened Numbers

  /** The overshoot guard: the freshly read level is already at or past the target. */
  predicate Reached(now: int, safe: int, d: Direction) {
    (d == Raise && now >= safe) || (d == Lower && now <= safe)
  }

  /**
   * `n` iterations of the `repeat` loop: each re-reads the level, skips when
   * the guard holds, and otherwise issues one step. A step that throws is
   * caught and only that iteration is skipped.
   */
  function Iterate(a: AudioState, s: Stream, safe: int, d: Direction, n: nat): (r: AudioState)
    requires a.Valid()
    ensures r.Valid()
    decreases n
  {
    if n == 0 then a
    else Iterate(if Reached(a.levels.Of(s), safe, d) then a else Step(a, s, d), s, safe, d, n - 1)
  }

  /** One iteration of the loop, unfolded. */
  lemma IterateStep(a: AudioState, s: Stream, safe: int, d: Direction, n: nat)
    requires a.Valid() && 0 < n
    ensures Iterate(a, s, safe, d, n) == Iterate(if Reached(a.levels.Of(s), safe, d) then a else Step(a, s, d), s, safe, d, n - 1)
  {
  }

  /** Raising a ringer or notification level first leaves silent/do-not-disturb mode. */
  predicate LeavesSilentMode(a: AudioState, s: Stream, target: int) {
    target > 0 && (s == Ring || s == Notification) && a.policyAccess && a.ringer != Normal
  }

  /** The state after the optional silent-mode exit: ringer normal and the call logged, or unchanged. */
  function ExitSilent(a: AudioState, s: Stream, target: int): (r: AudioState)
    requires a.Valid()
    ensures r.Valid()
  {
    if LeavesSilentMode(a, s, target) then a.(ringer := Normal, log := a.log + [RingerToNormal]) else a
  }

  function DirectionOf(delta: int): Direction {
    if delta > 0 then Raise else Lower
  }

  /** `applySliderVolume(s, target)` on the platform state `a`. */
  function ApplySlider(a: AudioState, s: Stream, target: int): (r: AudioState)
    requires a.Valid()
    ensures r.Valid()
  {
    var safe := Clamp(target, 0, a.maxes.Of(s));
    var delta := safe - a.levels.Of(s);
    if delta == 0 then a
    else
      var a1 := ExitSilent(a, s, target);
      Iterate(a1, s, safe, DirectionOf(delta), Abs(delta))
  }

  /** `ApplySlider` when the level must move: the optional silent-mode exit, then the loop. */
  lemma ApplySliderUnfold(a: AudioState, s: Stream, target: int)
    requires a.Valid() && Clamp(target, 0, a.maxes.Of(s)) != a.levels.Of(s)
    ensures var safe := Clamp(target, 0, a.maxes.Of(s));
      var delta := safe - a.levels.Of(s);
      var a1 := ExitSilent(a, s, target);
      ApplySlider(a, s, target) == Iterate(a1, s, safe, DirectionOf(delta), Abs(delta))
  {
  }

  /** The number of iterations `repeat` runs: |clamp(target) - current|. */
  function StepsNeeded(a: AudioState, s: Stream, target: int): nat
    requires a.Valid()
  {
    Abs(Clamp(target, 0, a.maxes.Of(s)) - a.levels.Of(s))
  }

  /** The answers the next `n` adjust calls receive. */
  function Schedule(script: seq<StepOutcome>, n: nat): (o: seq<StepOutcome>)
    ensures |o| == n
  {
    if n == 0 then [] else [NextOutcome(script)] + Schedule(Rest(script), n - 1)
  }

  function CountMoved(o: seq<StepOutcome>): (k: nat)
    ensures k <= |o|
  {
    if o == [] then 0 else (if o[0] == Moved then 1 else 0) + CountMoved(o[1..])
  }

  ghost predicate AllAdjust(calls: seq<AudioCall>, s: Stream, d: Direction) {
    forall i :: 0 <= i < |calls| ==> calls[i] == Adjust(s, d)
  }

  /**
   * A run only ever adds adjust calls for its own stream and direction, at
   * most one per iteration, and touches no other stream, the ringer mode or
   * the maxima.
   */
  lemma {:induction false} IterateFrame(a: AudioState, s: Stream, safe: int, d: Direction, n: nat)
    requires a.Valid()
    ensures var r := Iterate(a, s, safe, d, n);
      && r.maxes == a.maxes && r.ringer == a.ringer && r.policyAccess == a.policyAccess
      && (forall t :: t != s ==> r.levels.Of(t) == a.levels.Of(t))
      && |a.log| <= |r.log| <= |a.log| + n && r.log[..|a.log|] == a.log
      && AllAdjust(r.log[|a.log|..], s, d)
    decreases n
  {
    if n > 0 {
      var next := if Reached(a.levels.Of(s), safe, d) then a else Step(a, s, d);
      IterateFrame(next, s, safe, d, n - 1);
      var r := Iterate(next, s, safe, d, n - 1);
      assert r == Iterate(a, s, safe, d, n);
      assert r.log[..|next.log|] == next.log;
      assert r.log[..|a.log|] == next.log[..|a.log|];
      forall i | |a.log| <= i < |r.log|
        ensures r.log[i] == Adjust(s, d)
      {
        if i >= |next.log| {
          assert r.log[i] == r.log[|next.log|..][i - |next.log|];
        } else {
          assert r.log[i] == next.log[i];
        }
      }
      assert AllAdjust(r.log[|a.log|..], s, d) by {
        forall k | 0 <= k < |r.log[|a.log|..]|
          ensures r.log[|a.log|..][k] == Adjust(s, d)
        {
          assert r.log[|a.log|..][k] == r.log[|a.log| + k];
        }
      }
    }
  }

  /** Under one-level steps the level never passes the target: it stays between its start and the target. */
  lemma {:induction false} IterateNoOvershoot(a: AudioState, s: Stream, safe: int, d: Direction, n: nat)
    requires a.Valid() && 0 <= safe <= a.maxes.Of(s)
    requires d == Raise ==> a.levels.Of(s) <= safe
    requires d == Lower ==> safe <= a.levels.Of(s)
    ensures var r := Iterate(a, s, safe, d, n);
      && (d == Raise ==> a.levels.Of(s) <= r.levels.Of(s) <= safe)
      && (d == Lower ==> safe <= r.levels.Of(s) <= a.levels.Of(s))
    decreases n
  {
    if n > 0 {
      var next := if Reached(a.levels.Of(s), safe, d) then a else Step(a, s, d);
      IterateNoOvershoot(next, s, safe, d, n - 1);
    }
  }

  /**
   * When the target is at least `n` steps away, the guard never fires: all
   * `n` iterations issue a step, and the level moves by exactly the number of
   * those steps the platform let through.
   */
  lemma {:induction false} IterateCount(a: AudioState, s: Stream, safe: int, d: Direction, n: nat)
    requires a.Valid() && 0 <= safe <= a.maxes.Of(s)
    requires d == Raise ==> a.levels.Of(s) + n <= safe
    requires d == Lower ==> safe <= a.levels.Of(s) - n
    ensures var r := Iterate(a, s, safe, d, n);
      && |r.log| == |a.log| + n
      && r.levels.Of(s) == (if d == Raise then a.levels.Of(s) + CountMoved(Schedule(a.script, n))
                         else a.levels.Of(s) - CountMoved(Schedule(a.script, n)))
    decreases n
  {
    if n > 0 {
      assert !Reached(a.levels.Of(s), safe, d);
      var next := Step(a, s, d);
      IterateCount(next, s, safe, d, n - 1);
      var o := Schedule(a.script, n);
      assert o == [NextOutcome(a.script)] + Schedule(next.script, n - 1);
      assert o[1..] == Schedule(next.script, n - 1);
    }
  }

  /**
   * Idempotence at the target: when the clamped target equals the current
   * level nothing is stepped and the ringer mode is left alone.
   */
  lemma ApplyAtTargetIsNoOp(a: AudioState, s: Stream, target: int)
    requires a.Valid() && Clamp(target, 0, a.maxes.Of(s)) == a.levels.Of(s)
    ensures ApplySlider(a, s, target) == a
  {
  }

  /**
   * The calls `applySliderVolume` makes: the ringer-mode exit, exactly when
   * its conditions hold and the level must move, and strictly before any
   * step; then at most |clamp(target) - current| steps, all on the stream and
   * all in the direction of the sign of the difference.
   */
  lemma ApplyCalls(a: AudioState, s: Stream, target: int)
    requires a.Valid()
    ensures var r := ApplySlider(a, s, target);
      var delta := Clamp(target, 0, a.maxes.Of(s)) - a.levels.Of(s);
      var exit := if delta != 0 && LeavesSilentMode(a, s, target) then [RingerToNormal] else [];
      |a.log| + |exit| <= |r.log| <= |a.log| + |exit| + Abs(delta)
    ensures var r := ApplySlider(a, s, target);
      var delta := Clamp(target, 0, a.maxes.Of(s)) - a.levels.Of(s);
      var exit := if delta != 0 && LeavesSilentMode(a, s, target) then [RingerToNormal] else [];
      && |a.log| + |exit| <= |r.log|
      && r.log[..|a.log| + |exit|] == a.log + exit
      && AllAdjust(r.log[|a.log| + |exit|..], s, DirectionOf(delta))
    ensures var r := ApplySlider(a, s, target);
      var delta := Clamp(target, 0, a.maxes.Of(s)) - a.levels.Of(s);
      && r.ringer == (if delta != 0 && LeavesSilentMode(a, s, target) then Normal else a.ringer)
      && r.maxes == a.maxes
      && (forall t :: t != s ==> r.levels.Of(t) == a.levels.Of(t))
  {
    var safe := Clamp(target, 0, a.maxes.Of(s));
    var delta := safe - a.levels.Of(s);
    var r := ApplySlider(a, s, target);
    if delta == 0 {
      assert r == a;
    } else {
      var exit := if LeavesSilentMode(a, s, target) then [RingerToNormal] else [];
      var a1 := ExitSilent(a, s, target);
      assert a1.log == a.log + exit && a1.ringer == (if exit == [] then a.ringer else Normal);
      assert r == Iterate(a1, s, safe, DirectionOf(delta), Abs(delta));
      IterateFrame(a1, s, safe, DirectionOf(delta), Abs(delta));
    }
  }

  /** The final level lies between the level read at entry and the clamped target. */
  lemma ApplyNoOvershoot(a: AudioState, s: Stream, target: int)
    requires a.Valid()
    ensures var r := ApplySlider(a, s, target);
      var safe := Clamp(target, 0, a.maxes.Of(s));
      && (a.levels.Of(s) <= safe ==> a.levels.Of(s) <= r.levels.Of(s) <= safe)
      && (safe <= a.levels.Of(s) ==> safe <= r.levels.Of(s) <= a.levels.Of(s))
  {
    var safe := Clamp(target, 0, a.maxes.Of(s));
    var delta := safe - a.levels.Of(s);
    if delta != 0 {
      var a1 := ExitSilent(a, s, target);
      IterateNoOvershoot(a1, s, safe, DirectionOf(delta), Abs(delta));
    }
  }

  /**
   * Every one of the |delta| iterations issues a step (none is cut short), and
   * the final level is the entry level moved by the number of those steps
   * the platform let through; a capped or refused step costs exactly one
   * level and does not end the loop.
   */
  lemma ApplyLevel(a: AudioState, s: Stream, target: int)
    requires a.Valid()
    ensures var r := ApplySlider(a, s, target);
      var safe := Clamp(target, 0, a.maxes.Of(s));
      var delta := safe - a.levels.Of(s);
      var moved := CountMoved(Schedule(a.script, Abs(delta)));
      && r.levels.Of(s) == (if delta >= 0 then a.levels.Of(s) + moved else a.levels.Of(s) - moved)
      && |r.log| == |a.log| + (if delta != 0 && LeavesSilentMode(a, s, target) then 1 else 0) + Abs(delta)
  {
    var safe := Clamp(target, 0, a.maxes.Of(s));
    var delta := safe - a.levels.Of(s);
    if delta != 0 {
      var a1 := ExitSilent(a, s, target);
      IterateCount(a1, s, safe, DirectionOf(delta), Abs(delta));
    }
  }

  /**
   * With a platform whose every step moves one level, the final level is the
   * clamped target, reached with exactly |clamp(target) - current| steps.
   */
  lemma ApplyConverges(a: AudioState, s: Stream, target: int)
    requires a.Valid()
    requires forall i :: 0 <= i < |a.script| ==> a.script[i] == Moved
    ensures var r := ApplySlider(a, s, target);
      var safe := Clamp(target, 0, a.maxes.Of(s));
      && r.levels.Of(s) == safe
      && |r.log| == |a.log| + (if safe != a.levels.Of(s) && LeavesSilentMode(a, s, target) then 1 else 0) + Abs(safe - a.levels.Of(s))
  {
    var safe := Clamp(target, 0, a.maxes.Of(s));
    ApplyLevel(a, s, target);
    AllMovedCount(a.script, Abs(safe - a.levels.Of(s)));
  }

  lemma {:induction false} AllMovedCount(script: seq<StepOutcome>, n: nat)
    requires forall i :: 0 <= i < |script| ==> script[i] == Moved
    ensures CountMoved(Schedule(script, n)) == n
  {
    if n > 0 {
      var o := Schedule(script, n);
      assert o[1..] == Schedule(Rest(script), n - 1);
      AllMovedCount(Rest(script), n - 1);
    }
  }

  /**
   * A step that throws skips only its own iteration: if exactly one of the
   * |delta| answers is a refusal and every other step moves, the loop still
   * runs to the end and stops exactly one level short of the target.
   */
  lemma ApplyDenialSkipsOneStep(a: AudioState, s: Stream, target: int, j: nat)
    requires a.Valid()
    requires j < StepsNeeded(a, s, target)
    requires Schedule(a.script, StepsNeeded(a, s, target))[j] == Denied
    requires forall i :: 0 <= i < StepsNeeded(a, s, target) && i != j ==> Schedule(a.script, StepsNeeded(a, s, target))[i] == Moved
    ensures var r := ApplySlider(a, s, target);
      var safe := Clamp(target, 0, a.maxes.Of(s));
      r.levels.Of(s) == (if safe > a.levels.Of(s) then safe - 1 else safe + 1)
  {
    ApplyLevel(a, s, target);
    OneMissCount(Schedule(a.script, StepsNeeded(a, s, target)), j);
  }

  lemma {:induction false} OneMissCount(o: seq<StepOutcome>, j: nat)
    requires j < |o| && o[j] != Moved
    requires forall i :: 0 <= i < |o| && i != j ==> o[i] == Moved
    ensures CountMoved(o) == |o| - 1
  {
    if j > 0 {
      OneMissCount(o[1..], j - 1);
    } else {
      AllMovedSeq(o[1..]);
    }
  }

  lemma {:induction false} AllMovedSeq(o: seq<StepOutcome>)
    requires forall i :: 0 <= i < |o| ==> o[i] == Moved
    ensures CountMoved(o) == |o|
  {
    if o != [] {
      AllMovedSeq(o[1..]);
    }
  }

  /** Applying the same target twice with an obedient platform is the same as applying it once. */
  lemma ApplyTwiceIsApplyOnce(a: AudioState, s: Stream, target: int)
    requires a.Valid()
    requires forall i :: 0 <= i < |a.script| ==> a.script[i] == Moved
    ensures var r := ApplySlider(a, s, target);
      ApplySlider(r, s, target) == r
  {
    ApplyConverges(a, s, target);
    ApplyCalls(a, s, target);
  }
}

/**
 * Volume ducking of the AIMP player while a recording runs: the level is
 * lowered to 7% when the recording starts and faded back in 20 steps when it
 * stops.
 *
 * The player's session volume control is a `Mixer` whose writes can fail; a
 * `Ducker` owns the optional mixer and the stored original level.  Each write
 * and each read takes its success as a parameter.  Every method is specified
 * by a function on the abstract `DuckState`, and the properties of the
 * volume lifecycle are lemmas about those functions.
 */
module Ducking {
  import opened Options

  /** The level written while recording (`reduce_volume_percent`). */
  const ReduceVolume: real := 0.07

  /** The number of intermediate fade-in writes (`fade_steps`). */
  const FadeSteps: nat := 20

  /** One `SetMasterVolume` call: the level sent and whether the call succeeded. */
  datatype Attempt = Attempt(level: real, ok: bool)

  /** The level a mixer shows after a sequence of write attempts: the last successful one wins. */
  function Applied(level: real, ws: seq<Attempt>): real
    decreases |ws|
  {
    if ws == [] then level
    else Applied(if ws[0].ok then ws[0].level else level, ws[1..])
  }

  /** The AIMP session volume interface: its current level and every write sent to it. */
  class Mixer {
    var level: real
    var log: seq<Attempt>

    constructor (level: real)
      ensures this.level == level && log == []
    {
      this.level := level;
      log := [];
    }

    /** `GetMasterVolume()`: the current level, or nothing when the call raises. */
    method GetMasterVolume(ok: bool) returns (v: Option<real>)
      ensures v == if ok then Some(level) else None
    {
      v := if ok then Some(level) else None;
    }

    /** `SetMasterVolume(x)`: logged whether or not it succeeds; only a successful write changes the level. */
    method SetMasterVolume(x: real, ok: bool)
      modifies this
      ensures log == old(log) + [Attempt(x, ok)]
      ensures level == if ok then x else old(level)
    {
      log := log + [Attempt(x, ok)];
      if ok {
        level := x;
      }
    }
  }

  /**
   * What the ducking logic can observe: whether a mixer was found, its level
   * and write log (meaningless when absent), the stored original level and
   * the number of fade-in threads launched.
   */
  datatype DuckState = DuckState(present: bool, level: real, log: seq<Attempt>,
                                 original: Option<real>, fadeLaunches: nat)

  /** `reduce_aimp_volume`: store the current level, then write the reduced level. */
  function ReduceStep(s: DuckState, readOk: bool, writeOk: bool): DuckState {
    if !s.present || !readOk then s
    else
      var w := Attempt(ReduceVolume, writeOk);
      s.(original := Some(s.level), log := s.log + [w], level := if writeOk then ReduceVolume else s.level)
  }

  /**
   * `restore_aimp_volume`: with a mixer and a stored level, launch the fade-in;
   * if the thread cannot be started, write the stored level directly and
   * forget it only when that write succeeds.
   */
  function RestoreStep(s: DuckState, spawnOk: bool, fallbackOk: bool): DuckState {
    if !s.present || s.original.None? then s
    else if spawnOk then s.(fadeLaunches := s.fadeLaunches + 1)
    else
      var w := Attempt(s.original.value, fallbackOk);
      s.(log := s.log + [w], level := if fallbackOk then w.level else s.level,
         original := if fallbackOk then None else s.original)
  }

  /** The size of one fade step from `from` to `target`. */
  function StepSize(from: real, target: real): real {
    (target - from) / FadeSteps as real
  }

  /** The level after `k` fade steps: `step` added `k` times to `from`. */
  function Level(from: real, step: real, k: nat): real {
    if k == 0 then from else Level(from, step, k - 1) + step
  }

  /**
   * How many intermediate writes the fade loop makes from step `i` on: it
   * goes on while writes succeed and stops after the first failing one or
   * after step `FadeSteps`.
   */
  function StepsTried(stepOk: nat -> bool, i: nat): nat
    decreases FadeSteps - i
  {
    if i >= FadeSteps then i
    else if stepOk(i) then StepsTried(stepOk, i + 1)
    else i + 1
  }

  /** The intermediate writes of the fade-in: write `k` sends the level after `k + 1` steps. */
  function RampWrites(from: real, step: real, stepOk: nat -> bool): seq<Attempt> {
    seq(StepsTried(stepOk, 0), k requires 0 <= k => Attempt(Level(from, step, k + 1), stepOk(k)))
  }

  /** Every write of one fade-in: the intermediate steps, then the exact target. */
  function FadeWrites(from: real, target: real, stepOk: nat -> bool, finalOk: bool): seq<Attempt> {
    RampWrites(from, StepSize(from, target), stepOk) + [Attempt(target, finalOk)]
  }

  /** `_fade_in_volume`: the fade writes, then the stored level is forgotten whatever they did. */
  function FadeStep(s: DuckState, stepOk: nat -> bool, finalOk: bool): DuckState {
    if !s.present || s.original.None? then s
    else
      var ws := FadeWrites(ReduceVolume, s.original.value, stepOk, finalOk);
      s.(log := s.log + ws, level := Applied(s.level, ws), original := None)
  }

  /** The volume controller of the application: the mixer it found, if any, and the stored level. */
  class Ducker {
    const mixer: Mixer?
    var original: Option<real>
    var fadeLaunches: nat

    constructor (mixer: Mixer?)
      ensures this.mixer == mixer && original == None && fadeLaunches == 0
    {
      this.mixer := mixer;
      original := None;
      fadeLaunches := 0;
    }

    function State(): DuckState
      reads this, mixer
    {
      if mixer == null then DuckState(false, 0.0, [], original, fadeLaunches)
      else DuckState(true, mixer.level, mixer.log, original, fadeLaunches)
    }

    method Reduce(readOk: bool, writeOk: bool)
      modifies this, mixer
      ensures State() == ReduceStep(old(State()), readOk, writeOk)
    {
      if mixer != null {
        var v := mixer.GetMasterVolume(readOk);
        if v.Some? {
          original := v;
          mixer.SetMasterVolume(ReduceVolume, writeOk);
        }
      }
    }

    method Restore(spawnOk: bool, fallbackOk: bool)
      modifies this, mixer
      ensures State() == RestoreStep(old(State()), spawnOk, fallbackOk)
    {
      if mixer != null && original.Some? {
        if spawnOk {
          fadeLaunches := fadeLaunches + 1;
        } else {
          mixer.SetMasterVolume(original.value, fallbackOk);
          if fallbackOk {
            original := None;
          }
        }
      }
    }

    /** The body of the fade-in thread; `stepOk(i)` says whether the write of step `i` succeeds. */
    method FadeIn(stepOk: nat -> bool, finalOk: bool)
      modifies this, mixer
      ensures State() == FadeStep(old(State()), stepOk, finalOk)
    {
      if mixer == null || original.None? {
        return;
      }
      var target := original.value;
      ghost var log0, level0 := mixer.log, mixer.level;
      ghost var steps := Ramp(target, stepOk);
      mixer.SetMasterVolume(target, finalOk);
      AppliedSnoc(level0, steps, Attempt(target, finalOk));
      assert mixer.log == log0 + FadeWrites(ReduceVolume, target, stepOk, finalOk);
      original := None;
    }

    /** The loop of the fade-in: from the reduced level towards `target`, stopping at the first failed write. */
    method Ramp(target: real, stepOk: nat -> bool) returns (ghost done: seq<Attempt>)
      requires mixer != null
      modifies mixer
      ensures done == RampWrites(ReduceVolume, StepSize(ReduceVolume, target), stepOk)
      ensures mixer.log == old(mixer.log) + done && mixer.level == Applied(old(mixer.level), done)
    {
      var current := ReduceVolume;
      var step := StepSize(current, target);
      ghost var log0, level0 := mixer.log, mixer.level;
      done := [];
      var i := 0;
      var ok := true;
      while i < FadeSteps
        invariant 0 <= i <= FadeSteps && ok
        invariant current == Level(ReduceVolume, step, i)
        invariant mixer.log == log0 + done && mixer.level == Applied(level0, done)
        invariant |done| == i
        invariant forall k :: 0 <= k < i ==> done[k] == Attempt(Level(ReduceVolume, step, k + 1), stepOk(k))
        invariant StepsTried(stepOk, 0) == StepsTried(stepOk, i)
      {
        current := current + step;
        ok := stepOk(i);
        mixer.SetMasterVolume(current, ok);
        AppliedSnoc(level0, done, Attempt(current, ok));
        done := done + [Attempt(current, ok)];
        if !ok {
          assert StepsTried(stepOk, 0) == i + 1;
          break;
        }
        i := i + 1;
      }
      RampWritesExact(ReduceVolume, step, stepOk, done);
    }
  }

  // ------------------------------------------------------------------
  // Lemmas: the write sequence of one fade-in
  // ------------------------------------------------------------------

  lemma {:induction false} AppliedAppend(level: real, xs: seq<Attempt>, ys: seq<Attempt>)
    ensures Applied(level, xs + ys) == Applied(Applied(level, xs), ys)
    decreases |xs|
  {
    if xs != [] {
      var next := if xs[0].ok then xs[0].level else level;
      assert xs + ys != [] && (xs + ys)[0] == xs[0];
      assert (xs + ys)[1..] == xs[1..] + ys;
      assert Applied(level, xs + ys) == Applied(next, xs[1..] + ys);
      assert Applied(level, xs) == Applied(next, xs[1..]);
      AppliedAppend(next, xs[1..], ys);
    } else {
      assert xs + ys == ys;
    }
  }

  /** A sequence of writes with the length and the entries of `RampWrites` is `RampWrites`. */
  lemma RampWritesExact(from: real, step: real, stepOk: nat -> bool, ws: seq<Attempt>)
    requires |ws| == StepsTried(stepOk, 0)
    requires forall k :: 0 <= k < |ws| ==> ws[k] == Attempt(Level(from, step, k + 1), stepOk(k))
    ensures ws == RampWrites(from, step, stepOk)
  {
  }

  lemma AppliedOne(level: real, w: Attempt)
    ensures Applied(level, [w]) == if w.ok then w.level else level
  {
    assert [w][1..] == [];
  }

  lemma AppliedSnoc(level: real, ws: seq<Attempt>, w: Attempt)
    ensures Applied(level, ws + [w]) == if w.ok then w.level else Applied(level, ws)
  {
    AppliedAppend(level, ws, [w]);
    AppliedOne(Applied(level, ws), w);
  }

  /** A successful last write decides the level, whatever came before. */
  lemma LastWriteWins(level: real, ws: seq<Attempt>, x: real)
    ensures Applied(level, ws + [Attempt(x, true)]) == x
  {
    AppliedAppend(level, ws, [Attempt(x, true)]);
    AppliedOne(Applied(level, ws), Attempt(x, true));
  }

  /**
   * From step `i` on, the loop tries at least one and at most `FadeSteps - i`
   * steps; every step but the last tried one succeeded; and it stopped early
   * exactly when the last tried step failed.
   */
  lemma {:induction false} StepsTriedShape(stepOk: nat -> bool, i: nat)
    requires i <= FadeSteps
    ensures var n := StepsTried(stepOk, i);
      && i <= n <= FadeSteps
      && (i < FadeSteps ==> i < n)
      && (forall k :: i <= k < n - 1 ==> stepOk(k))
      && (i < n < FadeSteps ==> !stepOk(n - 1))
    decreases FadeSteps - i
  {
    if i < FadeSteps && stepOk(i) {
      StepsTriedShape(stepOk, i + 1);
    }
  }

  /**
   * The writes of one fade-in: at most `FadeSteps` intermediate writes, on
   * the line from the reduced level to the target, ending at the first
   * failing one; then one write of the exact target, made in every case.
   */
  lemma FadeWritesShape(from: real, target: real, stepOk: nat -> bool, finalOk: bool)
    ensures var ws := FadeWrites(from, target, stepOk, finalOk);
      && 2 <= |ws| <= FadeSteps + 1
      && ws[|ws| - 1] == Attempt(target, finalOk)
      && (forall k :: 0 <= k < |ws| - 1 ==> ws[k].level == Level(from, StepSize(from, target), k + 1))
      && (forall k :: 0 <= k < |ws| - 1 ==> ws[k].ok == stepOk(k))
      && (forall k :: 0 <= k < |ws| - 2 ==> ws[k].ok)
      && (|ws| < FadeSteps + 1 ==> !ws[|ws| - 2].ok)
  {
    var steps := RampWrites(from, StepSize(from, target), stepOk);
    StepsTriedShape(stepOk, 0);
    var ws := FadeWrites(from, target, stepOk, finalOk);
    forall k | 0 <= k < |steps|
      ensures ws[k] == steps[k]
    {
    }
  }

  lemma {:induction false} LevelLine(from: real, step: real, k: nat)
    ensures Level(from, step, k) == from + k as real * step
  {
    if k > 0 {
      LevelLine(from, step, k - 1);
    }
  }

  /** After `FadeSteps` steps the line reaches the target exactly. */
  lemma LevelReachesTarget(from: real, target: real)
    ensures Level(from, StepSize(from, target), FadeSteps) == target
  {
    LevelLine(from, StepSize(from, target), FadeSteps);
  }

  /** When every step succeeds, the twentieth intermediate write already reaches the target. */
  lemma FadeEndsOnTarget(from: real, target: real, stepOk: nat -> bool, finalOk: bool)
    requires forall k :: 0 <= k < FadeSteps ==> stepOk(k)
    ensures var ws := FadeWrites(from, target, stepOk, finalOk);
      |ws| == FadeSteps + 1 && ws[FadeSteps - 1].level == target
  {
    FadeWritesShape(from, target, stepOk, finalOk);
    LevelReachesTarget(from, target);
  }

  /** With a non-negative step the line rises: a later point is never below an earlier one. */
  lemma {:induction false} LevelRises(from: real, step: real, j: nat, k: nat)
    requires 0.0 <= step && j <= k
    ensures Level(from, step, j) <= Level(from, step, k)
    decreases k
  {
    if j < k {
      LevelRises(from, step, j, k - 1);
    }
  }

  /** Fading up from a lower level, every write lies between the two and they rise. */
  lemma FadeRises(from: real, target: real, stepOk: nat -> bool, finalOk: bool)
    requires from <= target
    ensures var ws := FadeWrites(from, target, stepOk, finalOk);
      && (forall k :: 0 <= k < |ws| ==> from <= ws[k].level <= target)
      && (forall k, l :: 0 <= k < l < |ws| ==> ws[k].level <= ws[l].level)
  {
    var ws := FadeWrites(from, target, stepOk, finalOk);
    var step := StepSize(from, target);
    FadeWritesShape(from, target, stepOk, finalOk);
    LevelReachesTarget(from, target);
    assert 0.0 <= step;
    assert Level(from, step, 0) == from;
    var n := |ws| - 1;
    assert ws[n].level == target;
    forall k | 0 <= k < |ws|
      ensures from <= ws[k].level <= target
    {
      if k < n {
        assert ws[k].level == Level(from, step, k + 1);
        LevelRises(from, step, 0, k + 1);
        LevelRises(from, step, k + 1, FadeSteps);
      }
    }
    forall k, l | 0 <= k < l < |ws|
      ensures ws[k].level <= ws[l].level
    {
      assert ws[k].level == Level(from, step, k + 1);
      if l < n {
        assert ws[l].level == Level(from, step, l + 1);
        LevelRises(from, step, k + 1, l + 1);
      } else {
        LevelRises(from, step, k + 1, FadeSteps);
      }
    }
  }


  // ------------------------------------------------------------------
  // Lemmas: the lifecycle of the stored level
  // ------------------------------------------------------------------

  /** Without a mixer, or with nothing stored, restoring and fading change nothing. */
  lemma RestoreWithoutOriginal(s: DuckState, spawnOk: bool, fallbackOk: bool, stepOk: nat -> bool, finalOk: bool)
    requires !s.present || s.original.None?
    ensures RestoreStep(s, spawnOk, fallbackOk) == s
    ensures FadeStep(s, stepOk, finalOk) == s
  {
  }

  /**
   * Reducing stores the level read and asks for exactly one write, of the
   * reduced level; without a mixer, or when reading the level fails, it does nothing.
   */
  lemma ReduceStores(s: DuckState, readOk: bool, writeOk: bool)
    ensures !s.present || !readOk ==> ReduceStep(s, readOk, writeOk) == s
    ensures s.present && readOk ==> var r := ReduceStep(s, readOk, writeOk);
      && r.original == Some(s.level)
      && r.log == s.log + [Attempt(ReduceVolume, writeOk)]
      && (writeOk ==> r.level == ReduceVolume)
  {
  }

  /** A fade-in always forgets the stored level, even when its final write failed. */
  lemma FadeForgets(s: DuckState, stepOk: nat -> bool, finalOk: bool)
    ensures FadeStep(s, stepOk, finalOk).original == None || FadeStep(s, stepOk, finalOk) == s
    ensures s.present && s.original.Some? ==> FadeStep(s, stepOk, finalOk).original == None
  {
  }

  /**
   * Ducking then fading back in returns the mixer to the level it had before
   * the recording, once the final write succeeds, and leaves nothing stored;
   * a level left stored by an unfinished earlier fade is overwritten by the read.
   */
  lemma DuckThenFade(s: DuckState, writeOk: bool, stepOk: nat -> bool)
    requires s.present
    ensures var r := FadeStep(RestoreStep(ReduceStep(s, true, writeOk), true, true), stepOk, true);
      r.level == s.level && r.original == None && r.fadeLaunches == s.fadeLaunches + 1
  {
    var d := RestoreStep(ReduceStep(s, true, writeOk), true, true);
    LastWriteWins(d.level, RampWrites(ReduceVolume, StepSize(ReduceVolume, s.level), stepOk), s.level);
  }

  /** The same when the fade thread cannot be started and the direct write succeeds. */
  lemma DuckThenFallback(s: DuckState, writeOk: bool)
    requires s.present
    ensures var r := RestoreStep(ReduceStep(s, true, writeOk), false, true);
      r.level == s.level && r.original == None
  {
  }

  /** Ducking twice before a restore stores the reduced level and loses the original one. */
  lemma DuckTwiceForgets(s: DuckState)
    requires s.present
    ensures ReduceStep(ReduceStep(s, true, true), true, true).original == Some(ReduceVolume)
  {
  }
}

/**
  The interactive calibration of AutoRecordSession.calibrate (auto_record.py): a state
  machine BASELINE -> WAIT -> COLLECT -> DONE over the volumes of the blocks read. The
  blocks read before an interrupt are given as a finite sequence; the threshold is saved
  only if DONE is reached.
 */
module Calibration {
  import opened Wrappers
  import opened RecordingSink
  import Engine

  datatype Phase = Baseline | Wait | Collect | Done

  /** How much louder than the baseline the block that starts the collection must be. */
  const TRIGGER_FACTOR: real := 5.0

  /**
    - baselineBlocks: blocks averaged for the background level (RATE / BLOCK_SIZE = 16);
    - collectBlocks: blocks averaged for the threshold (RATE * 0.25 / BLOCK_SIZE = 4).
   */
  datatype CalParams = CalParams(baselineBlocks: Positive, collectBlocks: Positive)

  const DEFAULT_CAL: CalParams := CalParams(Engine.RATE / Engine.BLOCK_SIZE, Engine.RATE / 4 / Engine.BLOCK_SIZE)

  function Sum(s: seq<real>): real
  {
    if s == [] then 0.0 else Sum(s[..|s| - 1]) + s[|s| - 1]
  }

  function Mean(s: seq<real>): real
    requires |s| > 0
  {
    Sum(s) / |s| as real
  }

  /** The first index at or after from whose volume is strictly above level. */
  function FirstAbove(vs: seq<real>, from: nat, level: real): (r: Option<nat>)
    ensures r.Some? ==> from <= r.value < |vs| && vs[r.value] > level
    decreases |vs| - from
  {
    if from >= |vs| then None
    else if vs[from] > level then Some(from)
    else FirstAbove(vs, from + 1, level)
  }

  /** FirstAbove finds the FIRST such index, and finds none only when there is none. */
  lemma {:induction false} FirstAboveIsFirst(vs: seq<real>, from: nat, level: real)
    ensures var r := FirstAbove(vs, from, level);
      && (r.Some? ==> forall j :: from <= j < r.value ==> vs[j] <= level)
      && (r.None? ==> forall j :: from <= j < |vs| ==> vs[j] <= level)
    decreases |vs| - from
  {
    if from < |vs| && vs[from] <= level {
      FirstAboveIsFirst(vs, from + 1, level);
    }
  }

  /** Blocks read after the first loud one do not change which one it is. */
  lemma {:induction false} FirstAboveExtend(vs: seq<real>, more: seq<real>, from: nat, level: real)
    requires FirstAbove(vs, from, level).Some?
    ensures FirstAbove(vs + more, from, level) == FirstAbove(vs, from, level)
    decreases |vs| - from
  {
    assert (vs + more)[from] == vs[from];
    if vs[from] <= level {
      FirstAboveExtend(vs, more, from + 1, level);
    }
  }

  /**
    The threshold calibration saves, if any: the baseline is the mean of the first
    baselineBlocks volumes; collection starts at the first block, from the one that
    completes the baseline on, that is louder than TRIGGER_FACTOR * baseline, and that block
    is the first of the collectBlocks volumes averaged.
   */
  function CalibrationResult(p: CalParams, vs: seq<real>): Option<real>
  {
    if |vs| < p.baselineBlocks then None
    else
      match FirstAbove(vs, p.baselineBlocks - 1, TRIGGER_FACTOR * Mean(vs[..p.baselineBlocks]))
      case None => None
      case Some(k) => if k + p.collectBlocks <= |vs| then Some(Mean(vs[k..k + p.collectBlocks])) else None
  }

  lemma SumSlice(s: seq<real>, lo: nat, hi: nat)
    requires lo <= hi < |s|
    ensures Sum(s[lo..hi + 1]) == Sum(s[lo..hi]) + s[hi]
  {
    assert s[lo..hi + 1][..hi - lo] == s[lo..hi];
  }

  /** The variables of the calibrate loop. */
  datatype Calibrator = Calibrator(phase: Phase, blockCount: nat, total: real, baseline: real, threshold: real)

  /** The BASELINE if block: count and total the block; the baselineBlocks-th ends the baseline. */
  function BaselinePart(p: CalParams, c: Calibrator, v: real): Calibrator
  {
    if c.phase != Baseline then c
    else if c.blockCount + 1 == p.baselineBlocks
    then c.(phase := Wait, blockCount := c.blockCount + 1, total := c.total + v,
            baseline := (c.total + v) / (c.blockCount + 1) as real)
    else c.(blockCount := c.blockCount + 1, total := c.total + v)
  }

  /** The WAIT if block: a block louder than TRIGGER_FACTOR times the baseline starts the collection. */
  function WaitPart(c: Calibrator, v: real): Calibrator
  {
    if c.phase == Wait && v > TRIGGER_FACTOR * c.baseline
    then c.(phase := Collect, total := 0.0, blockCount := 0)
    else c
  }

  /** The COLLECT if block: count and total the block; the collectBlocks-th sets the threshold. */
  function CollectPart(p: CalParams, c: Calibrator, v: real): Calibrator
  {
    if c.phase != Collect then c
    else if c.blockCount + 1 == p.collectBlocks
    then c.(phase := Done, blockCount := c.blockCount + 1, total := c.total + v,
            threshold := (c.total + v) / (c.blockCount + 1) as real)
    else c.(blockCount := c.blockCount + 1, total := c.total + v)
  }

  /** One block through the three if blocks of the loop body, in order; they are not exclusive. */
  function Step(p: CalParams, c: Calibrator, v: real): Calibrator
  {
    CollectPart(p, WaitPart(BaselinePart(p, c, v), v), v)
  }

  function Level(p: CalParams, vs: seq<real>): real
  {
    if |vs| >= p.baselineBlocks then TRIGGER_FACTOR * Mean(vs[..p.baselineBlocks]) else 0.0
  }

  /**
    What the loop variables mean after i of the volumes vs: the running baseline total;
    then the baseline mean; while waiting, no loud block yet from the baseline's last block
    on; while collecting and when done, the first loud block at i - blockCount and the
    running total, then the mean, of the blocks from it on.
   */
  ghost predicate Tracks(p: CalParams, vs: seq<real>, i: nat, c: Calibrator)
  {
    var B: nat, C: nat := p.baselineBlocks, p.collectBlocks;
    && i <= |vs|
    && (c.phase == Baseline ==> i < B && c.blockCount == i && c.total == Sum(vs[..i]))
    && (c.phase != Baseline ==> B <= i && c.baseline == Mean(vs[..B]))
    && (c.phase == Wait ==> FirstAbove(vs, B - 1, Level(p, vs)) == FirstAbove(vs, i, Level(p, vs)))
    && (c.phase == Collect ==> 0 < c.blockCount < C && c.blockCount <= i
                               && FirstAbove(vs, B - 1, Level(p, vs)) == Some(i - c.blockCount)
                               && c.total == Sum(vs[i - c.blockCount..i]))
    && (c.phase == Done ==> C <= i && FirstAbove(vs, B - 1, Level(p, vs)) == Some(i - C)
                            && c.threshold == Mean(vs[i - C..i]))
  }

  lemma SumOne(vs: seq<real>, i: nat)
    requires i < |vs|
    ensures Sum(vs[i..i + 1]) == vs[i]
  {
    SumSlice(vs, i, i);
    assert vs[i..i] == [];
  }

  /** A loud block in Wait starts the collection with it as its first block. */
  lemma WaitLoud(p: CalParams, vs: seq<real>, i: nat, c: Calibrator)
    requires i < |vs| && c.phase == Wait && p.baselineBlocks <= i + 1
    requires c.baseline == Mean(vs[..p.baselineBlocks])
    requires FirstAbove(vs, p.baselineBlocks - 1, Level(p, vs)) == FirstAbove(vs, i, Level(p, vs))
    requires vs[i] > Level(p, vs)
    ensures Tracks(p, vs, i + 1, Step(p, c, vs[i]))
  {
    var v := vs[i];
    assert BaselinePart(p, c, v) == c;
    assert v > TRIGGER_FACTOR * c.baseline;
    assert WaitPart(c, v) == c.(phase := Collect, total := 0.0, blockCount := 0);
    assert FirstAbove(vs, i, Level(p, vs)) == Some(i);
    SumOne(vs, i);
    if p.collectBlocks == 1 {
      LoudCollectsOne(p, vs, i, c);
    } else {
      LoudStartsCollect(p, vs, i, c);
    }
  }

  /** With one block to collect, the loud block alone is the threshold. */
  lemma LoudCollectsOne(p: CalParams, vs: seq<real>, i: nat, c: Calibrator)
    requires i < |vs| && c.phase == Wait && p.baselineBlocks <= i + 1 && p.collectBlocks == 1
    requires c.baseline == Mean(vs[..p.baselineBlocks])
    requires FirstAbove(vs, p.baselineBlocks - 1, Level(p, vs)) == Some(i)
    requires Sum(vs[i..i + 1]) == vs[i]
    ensures CollectPart(p, c.(phase := Collect, total := 0.0, blockCount := 0), vs[i])
            == c.(phase := Done, blockCount := 1, total := vs[i], threshold := vs[i] / 1 as real)
    ensures Tracks(p, vs, i + 1, c.(phase := Done, blockCount := 1, total := vs[i], threshold := vs[i] / 1 as real))
  {
    assert |vs[i..i + 1]| == 1;
    assert i + 1 - p.collectBlocks == i;
  }

  /** With more blocks to collect, the loud block is the first one totalled. */
  lemma LoudStartsCollect(p: CalParams, vs: seq<real>, i: nat, c: Calibrator)
    requires i < |vs| && c.phase == Wait && p.baselineBlocks <= i + 1 && p.collectBlocks > 1
    requires c.baseline == Mean(vs[..p.baselineBlocks])
    requires FirstAbove(vs, p.baselineBlocks - 1, Level(p, vs)) == Some(i)
    requires Sum(vs[i..i + 1]) == vs[i]
    ensures CollectPart(p, c.(phase := Collect, total := 0.0, blockCount := 0), vs[i])
            == c.(phase := Collect, blockCount := 1, total := vs[i])
    ensures Tracks(p, vs, i + 1, c.(phase := Collect, blockCount := 1, total := vs[i]))
  {
    assert (i + 1) - 1 == i;
  }

  /** A block that is not loud leaves Wait as it is. */
  lemma WaitQuiet(p: CalParams, vs: seq<real>, i: nat, c: Calibrator)
    requires i < |vs| && c.phase == Wait && p.baselineBlocks <= i + 1
    requires c.baseline == Mean(vs[..p.baselineBlocks])
    requires FirstAbove(vs, p.baselineBlocks - 1, Level(p, vs)) == FirstAbove(vs, i, Level(p, vs))
    requires vs[i] <= Level(p, vs)
    ensures Tracks(p, vs, i + 1, Step(p, c, vs[i]))
  {
    assert !(vs[i] > TRIGGER_FACTOR * c.baseline);
    assert Step(p, c, vs[i]) == c;
    assert FirstAbove(vs, i, Level(p, vs)) == FirstAbove(vs, i + 1, Level(p, vs));
  }

  /** The Wait and Collect if blocks, entered in Wait at block i. */
  lemma WaitStep(p: CalParams, vs: seq<real>, i: nat, c: Calibrator)
    requires i < |vs| && c.phase == Wait && p.baselineBlocks <= i + 1
    requires c.baseline == Mean(vs[..p.baselineBlocks])
    requires FirstAbove(vs, p.baselineBlocks - 1, Level(p, vs)) == FirstAbove(vs, i, Level(p, vs))
    ensures Tracks(p, vs, i + 1, Step(p, c, vs[i]))
  {
    if vs[i] > Level(p, vs) {
      WaitLoud(p, vs, i, c);
    } else {
      WaitQuiet(p, vs, i, c);
    }
  }

  lemma BaselineStep(p: CalParams, vs: seq<real>, i: nat, c: Calibrator)
    requires i < |vs| && Tracks(p, vs, i, c) && c.phase == Baseline
    ensures Tracks(p, vs, i + 1, Step(p, c, vs[i]))
  {
    var B: nat := p.baselineBlocks;
    SumSlice(vs, 0, i);
    assert vs[0..i + 1] == vs[..i + 1];
    if i + 1 == B {
      var c1 := c.(phase := Wait, blockCount := i + 1, total := c.total + vs[i],
                   baseline := (c.total + vs[i]) / (i + 1) as real);
      assert c1.baseline == Mean(vs[..B]);
      WaitStep(p, vs, i, c1);
    }
  }

  lemma CollectStep(p: CalParams, vs: seq<real>, i: nat, c: Calibrator)
    requires i < |vs| && Tracks(p, vs, i, c) && c.phase == Collect
    ensures Tracks(p, vs, i + 1, Step(p, c, vs[i]))
  {
    var k := i - c.blockCount;
    SumSlice(vs, k, i);
    assert |vs[k..i + 1]| == c.blockCount + 1;
  }

  /** The loop body keeps Tracks, from any phase but Done. */
  lemma StepTracks(p: CalParams, vs: seq<real>, i: nat, c: Calibrator)
    requires i < |vs| && Tracks(p, vs, i, c) && c.phase != Done
    ensures Tracks(p, vs, i + 1, Step(p, c, vs[i]))
  {
    match c.phase
    case Baseline => BaselineStep(p, vs, i, c);
    case Wait => WaitStep(p, vs, i, c);
    case Collect => CollectStep(p, vs, i, c);
  }

  /** When the loop ends, Done or out of blocks, its variables give the declarative result. */
  lemma TracksResult(p: CalParams, vs: seq<real>, i: nat, c: Calibrator)
    requires Tracks(p, vs, i, c) && (c.phase == Done || i == |vs|)
    ensures CalibrationResult(p, vs) == if c.phase == Done then Some(c.threshold) else None
  {
    if c.phase == Wait {
      assert FirstAbove(vs, i, Level(p, vs)) == None;
    }
  }

  /** The calibrate loop; the if blocks are not exclusive, so one block can advance several phases. */
  method Calibrate(p: CalParams, volumes: seq<real>) returns (saved: Option<real>)
    ensures saved == CalibrationResult(p, volumes)
  {
    var B: nat, C: nat := p.baselineBlocks, p.collectBlocks;
    var blockCount: nat := 0;
    var total := 0.0;
    var state := Baseline;
    var threshold := 0.0;
    var baseline := 0.0;
    var i := 0;
    ghost var cal := Calibrator(state, blockCount, total, baseline, threshold);
    assert volumes[..0] == [];
    while i < |volumes| && state != Done
      invariant cal == Calibrator(state, blockCount, total, baseline, threshold)
      invariant Tracks(p, volumes, i, cal)
    {
      ghost var before := cal;
      var v := volumes[i];
      if state == Baseline {
        blockCount := blockCount + 1;
        total := total + v;
        if blockCount == B {
          baseline := total / blockCount as real;
          state := Wait;
        }
      }
      ghost var afterBaseline := Calibrator(state, blockCount, total, baseline, threshold);
      assert afterBaseline == BaselinePart(p, before, v);
      if state == Wait {
        if v > TRIGGER_FACTOR * baseline {
          total := 0.0;
          blockCount := 0;
          state := Collect;
        }
      }
      ghost var afterWait := Calibrator(state, blockCount, total, baseline, threshold);
      assert afterWait == WaitPart(afterBaseline, v);
      if state == Collect {
        total := total + v;
        blockCount := blockCount + 1;
        if blockCount == C {
          threshold := total / blockCount as real;
          state := Done;
        }
      }
      assert Calibrator(state, blockCount, total, baseline, threshold) == CollectPart(p, afterWait, v);
      StepTracks(p, volumes, i, before);
      cal := Step(p, before, v);
      i := i + 1;
    }
    TracksResult(p, volumes, i, cal);
    if state == Done {
      saved := Some(threshold);
    } else {
      saved := None;
    }
  }

  /** Once calibration is done it reads no further block: later blocks cannot change the result. */
  lemma CalibrationIgnoresLaterBlocks(p: CalParams, vs: seq<real>, more: seq<real>)
    requires CalibrationResult(p, vs).Some?
    ensures CalibrationResult(p, vs + more) == CalibrationResult(p, vs)
  {
    var B: nat, C: nat := p.baselineBlocks, p.collectBlocks;
    var ws := vs + more;
    assert ws[..B] == vs[..B];
    var level := TRIGGER_FACTOR * Mean(vs[..B]);
    var k := FirstAbove(vs, B - 1, level).value;
    FirstAboveExtend(vs, more, B - 1, level);
    assert ws[k..k + C] == vs[k..k + C];
  }

  /** A threshold is saved only after at least baselineBlocks + collectBlocks - 1 blocks. */
  lemma CalibrationNeedsBlocks(p: CalParams, vs: seq<real>)
    requires CalibrationResult(p, vs).Some?
    ensures |vs| >= p.baselineBlocks + p.collectBlocks - 1
  {
  }

  lemma {:induction false} SumNonNegative(s: seq<real>)
    requires forall i :: 0 <= i < |s| ==> s[i] >= 0.0
    ensures Sum(s) >= 0.0
  {
    if s != [] {
      SumNonNegative(s[..|s| - 1]);
    }
  }

  lemma {:induction false} SumAtLeastFirst(s: seq<real>)
    requires |s| > 0 && forall i :: 0 <= i < |s| ==> s[i] >= 0.0
    ensures Sum(s) >= s[0]
  {
    if |s| > 1 {
      SumAtLeastFirst(s[..|s| - 1]);
    }
  }

  /** The mean of non-negative volumes whose first is positive is positive. */
  lemma MeanPositive(w: seq<real>)
    requires |w| > 0 && w[0] > 0.0
    requires forall i :: 0 <= i < |w| ==> w[i] >= 0.0
    ensures Mean(w) > 0.0
  {
    SumAtLeastFirst(w);
    var n := |w| as real;
    assert Sum(w) > 0.0 && n > 0.0;
    assert Mean(w) * n == Sum(w);
  }

  /**
    With non-negative volumes (an RMS is never negative) a saved threshold is positive,
    so start-up loads it in place of the default.
   */
  lemma CalibratedThresholdIsLoaded(p: CalParams, vs: seq<real>)
    requires forall i :: 0 <= i < |vs| ==> vs[i] >= 0.0
    requires CalibrationResult(p, vs).Some?
    ensures CalibrationResult(p, vs).value > 0.0
    ensures Engine.LoadThreshold(CalibrationResult(p, vs)) == CalibrationResult(p, vs).value
  {
    var B: nat, C: nat := p.baselineBlocks, p.collectBlocks;
    var base := Mean(vs[..B]);
    SumNonNegative(vs[..B]);
    assert base >= 0.0;
    var k := FirstAbove(vs, B - 1, TRIGGER_FACTOR * base).value;
    var w := vs[k..k + C];
    assert w[0] == vs[k] > 0.0;
    MeanPositive(w);
  }
}

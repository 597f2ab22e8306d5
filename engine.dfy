/**
  The Listen / Record controller of AutoRecordSession (auto_record.py), as pure functions
  on an abstract state. The class in session.dfy updates its fields step by step and
  proves that each of its methods computes one of these functions (StartRecording,
  StopRecording, ListenStep, RecordStep, CheckEnabled, BlockStep, Interrupt after
  RunBlocks); the properties of the controller are lemmas about these functions.
 */
module Engine {
  import opened Wrappers
  import opened AudioBlock
  import opened RecordingSink

  /** A recording starts once CONFIRM_COUNT of the last CONFIRM_WINDOW blocks are noisy. */
  const CONFIRM_WINDOW: nat := 3
  const CONFIRM_COUNT: nat := 2

  /** The noise threshold used when no positive calibrated value is available. */
  const DEFAULT_NOISE_THRESHOLD: real := 0.1

  /**
    The operating knobs.
    - rate: frames per second; a recording's length is its frame count divided by it.
    - channels: samples per frame; a frame is channels * SAMPLE_WIDTH bytes.
    - listenRetention: blocks kept while listening (SILENCE_LISTEN_DURATION).
    - writeLimit: a block is written only while the silence counter is below it (SILENCE_WRITE_DURATION).
    - stopLimit: the recording stops once the silence counter exceeds it (SILENCE_TRIGGER_DURATION).
   */
  datatype Config = Config(rate: Positive, channels: Positive, listenRetention: nat, writeLimit: nat, stopLimit: nat)

  const RATE: Positive := 8000
  const BLOCK_SIZE: Positive := 500
  const CHANNELS: Positive := 2

  /** The source's constants: 16 blocks kept, 32 blocks write limit, 160 blocks stop limit. */
  const DEFAULT_CONFIG: Config :=
    Config(RATE, CHANNELS, RATE / BLOCK_SIZE, 2 * RATE / BLOCK_SIZE, 10 * RATE / BLOCK_SIZE)

  function FrameBytes(cfg: Config): Positive
  {
    cfg.channels * SAMPLE_WIDTH
  }

  /** The controller's state: mode, silence counter, block queue, open recording, and what closed recordings left behind. */
  datatype State = State(isRecording: bool, silenceCount: nat, queue: seq<Block>, outFile: Option<OpenFile>, outputs: seq<Outcome>)

  const INITIAL: State := State(false, 0, [], None, [])

  /** The start-up threshold: a persisted value is used only when positive. */
  function LoadThreshold(persisted: Option<real>): (t: real)
    ensures t > 0.0
    ensures persisted.Some? && persisted.value > 0.0 ==> t == persisted.value
    ensures persisted.None? || persisted.value <= 0.0 ==> t == DEFAULT_NOISE_THRESHOLD
  {
    if persisted.Some? && persisted.value > 0.0 then persisted.value else DEFAULT_NOISE_THRESHOLD
  }

  /** A silent block (volume 0) is never noisy under a loaded threshold. */
  lemma SilenceNeverNoisy(data: seq<byte>, persisted: Option<real>)
    ensures !IsNoisy(Block(data, 0.0), LoadThreshold(persisted))
  {
  }

  // ---------------------------------------------------------------------------
  // Queue trimming and the noise confirmation test

  /** The newest n blocks of q, in their order (the oldest are popped first). */
  function Newest(q: seq<Block>, n: nat): (r: seq<Block>)
    ensures |r| == if |q| <= n then |q| else n
    ensures r == q[|q| - |r|..]
  {
    if |q| <= n then q else q[|q| - n..]
  }

  /** Popping the oldest block of an over-long queue does not change its newest n blocks. */
  lemma NewestPop(q: seq<Block>, n: nat)
    requires |q| > n
    ensures Newest(q[1..], n) == Newest(q, n)
  {
    assert q[1..][|q| - 1 - n..] == q[|q| - n..];
  }

  function NoisyCount(bs: seq<Block>, t: real): (n: nat)
    ensures n <= |bs|
  {
    if bs == [] then 0 else (if IsNoisy(bs[0], t) then 1 else 0) + NoisyCount(bs[1..], t)
  }

  /** The listening trigger: more than 2 blocks queued and 2 of the last 3 noisy. */
  predicate Triggered(q: seq<Block>, t: real)
  {
    |q| > 2 && NoisyCount(q[|q| - CONFIRM_WINDOW..], t) >= CONFIRM_COUNT
  }

  /** The trigger holds exactly when two distinct blocks among the last three are noisy. */
  lemma TriggeredIffTwoOfLastThree(q: seq<Block>, t: real)
    ensures Triggered(q, t) <==>
      |q| >= 3 && exists i, j :: |q| - 3 <= i < j < |q| && IsNoisy(q[i], t) && IsNoisy(q[j], t)
  {
    if |q| >= 3 {
      var n := |q|;
      var w := q[n - 3..];
      assert w[1..] == q[n - 2..] && w[1..][1..] == q[n - 1..] && w[1..][1..][1..] == [];
      assert NoisyCount(q[n - 1..], t) == if IsNoisy(q[n - 1], t) then 1 else 0;
      assert NoisyCount(q[n - 2..], t) == (if IsNoisy(q[n - 2], t) then 1 else 0) + NoisyCount(q[n - 1..], t);
      assert NoisyCount(w, t) ==
        (if IsNoisy(q[n - 3], t) then 1 else 0) + (if IsNoisy(q[n - 2], t) then 1 else 0)
        + (if IsNoisy(q[n - 1], t) then 1 else 0);
    }
  }

  // ---------------------------------------------------------------------------
  // The controller's operations

  /** start_recording: switch to Recording, reset the counter, ensure a recording is open. */
  function StartRecording(s: State, now: Timestamp): State
  {
    s.(isRecording := true, silenceCount := 0, outFile := EnsureOpen(s.outFile, now))
  }

  /** stop_recording: switch to Listening, close the recording, keep the newest listenRetention blocks. */
  function StopRecording(cfg: Config, s: State): (r: State)
    ensures |r.queue| <= |s.queue|
  {
    State(false, s.silenceCount, Newest(s.queue, cfg.listenRetention), None,
          s.outputs + EnsureClose(s.outFile, cfg.rate, FrameBytes(cfg)))
  }

  /** After a stop: Listening, nothing open, the newest blocks kept, at most one outcome logged. */
  lemma StopRecordingOutcome(cfg: Config, s: State)
    ensures var r := StopRecording(cfg, s);
      && !r.isRecording && r.outFile.None? && r.silenceCount == s.silenceCount
      && |r.queue| <= cfg.listenRetention && r.queue == s.queue[|s.queue| - |r.queue|..]
      && (s.outFile.None? ==> r.outputs == s.outputs)
      && (s.outFile.Some? ==> |r.outputs| == |s.outputs| + 1 && r.outputs[..|s.outputs|] == s.outputs)
  {
  }

  /** run_listen_logic, for a queue that already holds the new block. */
  function ListenStep(cfg: Config, t: real, s: State, now: Timestamp): State
  {
    var s1 := if Triggered(s.queue, t) then StartRecording(s, now) else s;
    if !s1.isRecording then s1.(queue := Newest(s1.queue, cfg.listenRetention)) else s1
  }

  /** The silence counter after one block: reset by a noisy block, else one more. */
  function NextCount(c: nat, b: Block, t: real): nat
  {
    if IsNoisy(b, t) then 0 else c + 1
  }

  /** One iteration of run_record_logic's drain loop, for block b just popped off the queue. */
  function RecordBlock(cfg: Config, t: real, s: State, b: Block): (r: State)
    ensures |r.queue| <= |s.queue|
  {
    var c := NextCount(s.silenceCount, b, t);
    var f := if c < cfg.writeLimit && s.outFile.Some?
             then Some(s.outFile.value.(blocks := s.outFile.value.blocks + [b]))
             else s.outFile;
    var s1 := s.(silenceCount := c, outFile := f);
    if c > cfg.stopLimit then StopRecording(cfg, s1) else s1
  }

  /** run_record_logic: drain the queue block by block. */
  function RecordStep(cfg: Config, t: real, s: State): State
    decreases |s.queue|
  {
    if s.queue == [] then s
    else RecordStep(cfg, t, RecordBlock(cfg, t, s.(queue := s.queue[1..]), s.queue[0]))
  }

  /** check_recording_enabled: a disabled flag stops any recording in progress. */
  function CheckEnabled(cfg: Config, s: State, enabled: bool): State
  {
    if !enabled && s.isRecording then StopRecording(cfg, s) else s
  }

  /** The body of run's loop for one block read from the device. */
  function BlockStep(cfg: Config, t: real, s: State, enabled: bool, b: Block, now: Timestamp): State
  {
    var s1 := CheckEnabled(cfg, s, enabled);
    if !enabled then s1
    else
      var s2 := s1.(queue := s1.queue + [b]);
      if !s2.isRecording then ListenStep(cfg, t, s2, now) else RecordStep(cfg, t, s2)
  }

  /** One device read: the enabled flag polled for it, the block, and the wall-clock time. */
  datatype Tick = Tick(enabled: bool, block: Block, now: Timestamp)

  function RunBlocks(cfg: Config, t: real, s: State, ticks: seq<Tick>): State
    decreases |ticks|
  {
    if ticks == [] then s
    else RunBlocks(cfg, t, BlockStep(cfg, t, s, ticks[0].enabled, ticks[0].block, ticks[0].now), ticks[1..])
  }

  /** The KeyboardInterrupt handler of run: finish the recording in progress. */
  function Interrupt(cfg: Config, s: State): State
  {
    if s.isRecording then StopRecording(cfg, s) else s
  }

  // ---------------------------------------------------------------------------
  // Reference definitions for the drain: the counter and the written blocks alone

  /** The silence counter after the blocks bs, starting from c. */
  function Counter(c: nat, bs: seq<Block>, t: real): nat
    decreases |bs|
  {
    if bs == [] then c else Counter(NextCount(c, bs[0], t), bs[1..], t)
  }

  /** The counter never exceeds limit while bs is processed from c. */
  predicate StaysAtMost(c: nat, bs: seq<Block>, t: real, limit: nat)
    decreases |bs|
  {
    bs == [] || (NextCount(c, bs[0], t) <= limit && StaysAtMost(NextCount(c, bs[0], t), bs[1..], t, limit))
  }

  /**
    The blocks of bs written to an open recording, from counter c: those whose updated
    counter is below the write limit, up to and including the block whose counter first
    exceeds the stop limit.
   */
  function WrittenUntilStop(c: nat, bs: seq<Block>, t: real, writeLimit: nat, stopLimit: nat): seq<Block>
    decreases |bs|
  {
    if bs == [] then []
    else
      var c' := NextCount(c, bs[0], t);
      (if c' < writeLimit then [bs[0]] else [])
        + (if c' > stopLimit then [] else WrittenUntilStop(c', bs[1..], t, writeLimit, stopLimit))
  }

  /** The number of silent blocks after the last noisy one. */
  function TrailingSilent(bs: seq<Block>, t: real): nat
  {
    if bs == [] then 0
    else if IsNoisy(bs[|bs| - 1], t) then 0
    else 1 + TrailingSilent(bs[..|bs| - 1], t)
  }

  function Min(a: nat, b: nat): nat { if a <= b then a else b }

  /** The most silent blocks that may follow the last noisy one in a recording. */
  function MaxTrailing(writeLimit: nat): nat { if writeLimit == 0 then 0 else writeLimit - 1 }

  lemma {:induction false} CounterSnoc(c: nat, bs: seq<Block>, b: Block, t: real)
    ensures Counter(c, bs + [b], t) == NextCount(Counter(c, bs, t), b, t)
    decreases |bs|
  {
    if bs == [] {
      assert [b][1..] == [];
    } else {
      assert (bs + [b])[1..] == bs[1..] + [b];
      CounterSnoc(NextCount(c, bs[0], t), bs[1..], b, t);
    }
  }

  lemma {:induction false} NoisyCountSnoc(bs: seq<Block>, b: Block, t: real)
    ensures NoisyCount(bs + [b], t) == NoisyCount(bs, t) + (if IsNoisy(b, t) then 1 else 0)
    decreases |bs|
  {
    if bs == [] {
      assert [b][1..] == [];
    } else {
      assert (bs + [b])[1..] == bs[1..] + [b];
      NoisyCountSnoc(bs[1..], b, t);
    }
  }

  /**
    What the silence counter means: the number of consecutive silent blocks since the
    last noisy one, or, when no block was noisy, the starting value plus all of them.
   */
  lemma {:induction false} CounterValue(c: nat, bs: seq<Block>, t: real)
    ensures Counter(c, bs, t) == if NoisyCount(bs, t) == 0 then c + |bs| else TrailingSilent(bs, t)
    decreases |bs|
  {
    if bs != [] {
      var init, last := bs[..|bs| - 1], bs[|bs| - 1];
      assert bs == init + [last];
      CounterSnoc(c, init, last, t);
      NoisyCountSnoc(init, last, t);
      CounterValue(c, init, t);
    }
  }

  /** One write decision keeps the trailing silence of the recording equal to min(counter, writeLimit - 1). */
  lemma WriteStepTrailing(blocks: seq<Block>, c: nat, b: Block, t: real, writeLimit: nat)
    requires TrailingSilent(blocks, t) == Min(c, MaxTrailing(writeLimit))
    ensures var c' := NextCount(c, b, t);
      TrailingSilent(blocks + (if c' < writeLimit then [b] else []), t) == Min(c', MaxTrailing(writeLimit))
  {
    var c' := NextCount(c, b, t);
    if c' < writeLimit {
      assert (blocks + [b])[..|blocks|] == blocks;
    } else {
      assert blocks + [] == blocks;
    }
  }

  /**
    Trailing-silence trim: whatever a drain writes, at most writeLimit - 1 silent blocks
    follow the last noisy block of the recording; while the recording goes on, exactly
    min(counter, writeLimit - 1) do.
   */
  lemma {:induction false} WrittenTrailing(blocks: seq<Block>, c: nat, bs: seq<Block>, t: real, writeLimit: nat, stopLimit: nat)
    requires TrailingSilent(blocks, t) == Min(c, MaxTrailing(writeLimit))
    ensures var w := blocks + WrittenUntilStop(c, bs, t, writeLimit, stopLimit);
      && TrailingSilent(w, t) <= MaxTrailing(writeLimit)
      && (StaysAtMost(c, bs, t, stopLimit) ==> TrailingSilent(w, t) == Min(Counter(c, bs, t), MaxTrailing(writeLimit)))
    decreases |bs|, 1
  {
    if bs == [] {
      assert blocks + [] == blocks;
    } else if NextCount(c, bs[0], t) > stopLimit {
      WrittenTrailingStop(blocks, c, bs, t, writeLimit, stopLimit);
    } else {
      WrittenTrailingGoesOn(blocks, c, bs, t, writeLimit, stopLimit);
    }
  }

  /** The first block stops the drain: it is the last one written, if at all. */
  lemma WrittenTrailingStop(blocks: seq<Block>, c: nat, bs: seq<Block>, t: real, writeLimit: nat, stopLimit: nat)
    requires TrailingSilent(blocks, t) == Min(c, MaxTrailing(writeLimit))
    requires bs != [] && NextCount(c, bs[0], t) > stopLimit
    ensures !StaysAtMost(c, bs, t, stopLimit)
    ensures TrailingSilent(blocks + WrittenUntilStop(c, bs, t, writeLimit, stopLimit), t) <= MaxTrailing(writeLimit)
  {
    var c' := NextCount(c, bs[0], t);
    var first := if c' < writeLimit then [bs[0]] else [];
    WriteStepTrailing(blocks, c, bs[0], t, writeLimit);
    assert WrittenUntilStop(c, bs, t, writeLimit, stopLimit) == first + [];
    assert first + [] == first;
  }

  /** The first block does not stop the drain: the rest of the drain decides. */
  lemma {:induction false} WrittenTrailingGoesOn(blocks: seq<Block>, c: nat, bs: seq<Block>, t: real, writeLimit: nat, stopLimit: nat)
    requires TrailingSilent(blocks, t) == Min(c, MaxTrailing(writeLimit))
    requires bs != [] && NextCount(c, bs[0], t) <= stopLimit
    ensures var w := blocks + WrittenUntilStop(c, bs, t, writeLimit, stopLimit);
      && TrailingSilent(w, t) <= MaxTrailing(writeLimit)
      && (StaysAtMost(c, bs, t, stopLimit) ==> TrailingSilent(w, t) == Min(Counter(c, bs, t), MaxTrailing(writeLimit)))
    decreases |bs|, 0
  {
    var c' := NextCount(c, bs[0], t);
    WriteStepTrailing(blocks, c, bs[0], t, writeLimit);
    var rest := WrittenUntilStop(c', bs[1..], t, writeLimit, stopLimit);
    assert StaysAtMost(c, bs, t, stopLimit) == StaysAtMost(c', bs[1..], t, stopLimit);
    assert Counter(c, bs, t) == Counter(c', bs[1..], t);
    if c' < writeLimit {
      var blocks' := blocks + [bs[0]];
      WrittenTrailing(blocks', c', bs[1..], t, writeLimit, stopLimit);
      assert WrittenUntilStop(c, bs, t, writeLimit, stopLimit) == [bs[0]] + rest;
      assert blocks + ([bs[0]] + rest) == blocks' + rest;
    } else {
      assert blocks + [] == blocks;
      WrittenTrailing(blocks, c', bs[1..], t, writeLimit, stopLimit);
      assert WrittenUntilStop(c, bs, t, writeLimit, stopLimit) == [] + rest;
      assert [] + rest == rest;
    }
  }

  // ---------------------------------------------------------------------------
  // What the drain does

  /** Draining always empties the queue. */
  lemma {:induction false} RecordStepEmptiesQueue(cfg: Config, t: real, s: State)
    ensures RecordStep(cfg, t, s).queue == []
    decreases |s.queue|
  {
    if s.queue != [] {
      RecordStepEmptiesQueue(cfg, t, RecordBlock(cfg, t, s.(queue := s.queue[1..]), s.queue[0]));
    }
  }

  /** Blocks drained after a stop are discarded: nothing is opened, written or closed. */
  lemma {:induction false} DrainIdle(cfg: Config, t: real, s: State)
    requires !s.isRecording && s.outFile.None?
    ensures var r := RecordStep(cfg, t, s);
      r.queue == [] && !r.isRecording && r.outFile.None? && r.outputs == s.outputs
    decreases |s.queue|
  {
    if s.queue != [] {
      var s1 := RecordBlock(cfg, t, s.(queue := s.queue[1..]), s.queue[0]);
      assert s.outputs + [] == s.outputs;
      DrainIdle(cfg, t, s1);
    }
  }

  /**
    Draining while recording, against the reference definitions: the recording goes on
    exactly when the counter never exceeds stopLimit; the blocks written are
    WrittenUntilStop; if it stopped, the recording holding them was closed once.
   */
  lemma {:induction false} DrainRecording(cfg: Config, t: real, s: State)
    requires s.isRecording && s.outFile.Some?
    ensures var r := RecordStep(cfg, t, s);
      var f := s.outFile.value;
      var g := f.(blocks := f.blocks + WrittenUntilStop(s.silenceCount, s.queue, t, cfg.writeLimit, cfg.stopLimit));
      && r.queue == []
      && (r.isRecording <==> StaysAtMost(s.silenceCount, s.queue, t, cfg.stopLimit))
      && (r.isRecording ==> r.outFile == Some(g) && r.outputs == s.outputs
                            && r.silenceCount == Counter(s.silenceCount, s.queue, t))
      && (!r.isRecording ==> r.outFile.None? && r.outputs == s.outputs + [Close(g, cfg.rate, FrameBytes(cfg))])
    decreases |s.queue|, 1
  {
    if s.queue == [] {
      assert s.outFile.value.blocks + [] == s.outFile.value.blocks;
    } else if NextCount(s.silenceCount, s.queue[0], t) > cfg.stopLimit {
      DrainStopsAtFirst(cfg, t, s);
    } else if NextCount(s.silenceCount, s.queue[0], t) < cfg.writeLimit {
      DrainWritesFirst(cfg, t, s);
    } else {
      DrainSkipsFirst(cfg, t, s);
    }
  }

  /** The first block drained stops the recording: it is the last one written, if at all. */
  lemma DrainStopsAtFirst(cfg: Config, t: real, s: State)
    requires s.isRecording && s.outFile.Some? && s.queue != []
    requires NextCount(s.silenceCount, s.queue[0], t) > cfg.stopLimit
    ensures var r := RecordStep(cfg, t, s);
      var f := s.outFile.value;
      var g := f.(blocks := f.blocks + WrittenUntilStop(s.silenceCount, s.queue, t, cfg.writeLimit, cfg.stopLimit));
      && r.queue == [] && !r.isRecording && !StaysAtMost(s.silenceCount, s.queue, t, cfg.stopLimit)
      && r.outFile.None? && r.outputs == s.outputs + [Close(g, cfg.rate, FrameBytes(cfg))]
  {
    var f := s.outFile.value;
    var b := s.queue[0];
    var c' := NextCount(s.silenceCount, b, t);
    var first := if c' < cfg.writeLimit then [b] else [];
    var f' := f.(blocks := f.blocks + first);
    assert f.blocks + [] == f.blocks;
    var s1 := RecordBlock(cfg, t, s.(queue := s.queue[1..]), b);
    assert s1.outputs == s.outputs + [Close(f', cfg.rate, FrameBytes(cfg))];
    DrainIdle(cfg, t, s1);
    assert WrittenUntilStop(s.silenceCount, s.queue, t, cfg.writeLimit, cfg.stopLimit) == first + [];
    assert first + [] == first;
  }

  /** The first block drained does not stop the recording and is written: the rest of the drain decides. */
  lemma {:induction false} DrainWritesFirst(cfg: Config, t: real, s: State)
    requires s.isRecording && s.outFile.Some? && s.queue != []
    requires NextCount(s.silenceCount, s.queue[0], t) <= cfg.stopLimit
    requires NextCount(s.silenceCount, s.queue[0], t) < cfg.writeLimit
    ensures var r := RecordStep(cfg, t, s);
      var f := s.outFile.value;
      var g := f.(blocks := f.blocks + WrittenUntilStop(s.silenceCount, s.queue, t, cfg.writeLimit, cfg.stopLimit));
      && r.queue == []
      && (r.isRecording <==> StaysAtMost(s.silenceCount, s.queue, t, cfg.stopLimit))
      && (r.isRecording ==> r.outFile == Some(g) && r.outputs == s.outputs
                            && r.silenceCount == Counter(s.silenceCount, s.queue, t))
      && (!r.isRecording ==> r.outFile.None? && r.outputs == s.outputs + [Close(g, cfg.rate, FrameBytes(cfg))])
    decreases |s.queue|, 0
  {
    var f := s.outFile.value;
    var b := s.queue[0];
    var c' := NextCount(s.silenceCount, b, t);
    var rest := WrittenUntilStop(c', s.queue[1..], t, cfg.writeLimit, cfg.stopLimit);
    var f' := f.(blocks := f.blocks + [b]);
    var s1 := s.(queue := s.queue[1..], silenceCount := c', outFile := Some(f'));
    assert RecordBlock(cfg, t, s.(queue := s.queue[1..]), b) == s1;
    DrainRecording(cfg, t, s1);
    assert WrittenUntilStop(s.silenceCount, s.queue, t, cfg.writeLimit, cfg.stopLimit) == [b] + rest;
    assert f.blocks + ([b] + rest) == f'.blocks + rest;
    assert f.(blocks := f.blocks + WrittenUntilStop(s.silenceCount, s.queue, t, cfg.writeLimit, cfg.stopLimit))
        == f'.(blocks := f'.blocks + rest);
  }

  /** The first block drained neither stops the recording nor is written: the rest of the drain decides. */
  lemma {:induction false} DrainSkipsFirst(cfg: Config, t: real, s: State)
    requires s.isRecording && s.outFile.Some? && s.queue != []
    requires NextCount(s.silenceCount, s.queue[0], t) <= cfg.stopLimit
    requires NextCount(s.silenceCount, s.queue[0], t) >= cfg.writeLimit
    ensures var r := RecordStep(cfg, t, s);
      var f := s.outFile.value;
      var g := f.(blocks := f.blocks + WrittenUntilStop(s.silenceCount, s.queue, t, cfg.writeLimit, cfg.stopLimit));
      && r.queue == []
      && (r.isRecording <==> StaysAtMost(s.silenceCount, s.queue, t, cfg.stopLimit))
      && (r.isRecording ==> r.outFile == Some(g) && r.outputs == s.outputs
                            && r.silenceCount == Counter(s.silenceCount, s.queue, t))
      && (!r.isRecording ==> r.outFile.None? && r.outputs == s.outputs + [Close(g, cfg.rate, FrameBytes(cfg))])
    decreases |s.queue|, 0
  {
    var b := s.queue[0];
    var c' := NextCount(s.silenceCount, b, t);
    var rest := WrittenUntilStop(c', s.queue[1..], t, cfg.writeLimit, cfg.stopLimit);
    var s1 := s.(queue := s.queue[1..], silenceCount := c');
    assert RecordBlock(cfg, t, s.(queue := s.queue[1..]), b) == s1;
    DrainRecording(cfg, t, s1);
    assert WrittenUntilStop(s.silenceCount, s.queue, t, cfg.writeLimit, cfg.stopLimit) == [] + rest;
    assert [] + rest == rest;
  }

  // ---------------------------------------------------------------------------
  // The invariant kept at the end of every per-block iteration

  predicate OutputsOk(cfg: Config, t: real, outs: seq<Outcome>)
  {
    forall i :: 0 <= i < |outs| && outs[i].Kept? ==>
      outs[i].meta.length >= MIN_RECORDING_SECONDS && TrailingSilent(outs[i].audio, t) <= MaxTrailing(cfg.writeLimit)
  }

  /**
    - a recording is open exactly while Recording;
    - while Recording the counter has not exceeded stopLimit and the open recording ends in
      min(counter, writeLimit - 1) silent blocks;
    - the queue holds at most listenRetention blocks while Listening, one more while Recording;
    - every kept recording is at least MIN_RECORDING_SECONDS long and ends in at most
      writeLimit - 1 silent blocks.
   */
  ghost predicate Inv(cfg: Config, t: real, s: State)
  {
    && (s.isRecording <==> s.outFile.Some?)
    && (s.isRecording ==> s.silenceCount <= cfg.stopLimit
                          && TrailingSilent(s.outFile.value.blocks, t) == Min(s.silenceCount, MaxTrailing(cfg.writeLimit)))
    && |s.queue| <= cfg.listenRetention + 1
    && (!s.isRecording ==> |s.queue| <= cfg.listenRetention)
    && OutputsOk(cfg, t, s.outputs)
  }

  lemma InitialInv(cfg: Config, t: real)
    ensures Inv(cfg, t, INITIAL)
  {
  }

  lemma OutputsOkAppend(cfg: Config, t: real, outs: seq<Outcome>, more: seq<Outcome>)
    requires OutputsOk(cfg, t, outs) && OutputsOk(cfg, t, more)
    ensures OutputsOk(cfg, t, outs + more)
  {
    forall i | 0 <= i < |outs + more| && (outs + more)[i].Kept?
      ensures (outs + more)[i].meta.length >= MIN_RECORDING_SECONDS
      ensures TrailingSilent((outs + more)[i].audio, t) <= MaxTrailing(cfg.writeLimit)
    {
      if i >= |outs| {
        assert (outs + more)[i] == more[i - |outs|];
      }
    }
  }

  /** Stopping a recording that satisfies the invariant leaves a Listening state that does. */
  lemma StopKeepsInv(cfg: Config, t: real, s: State)
    requires Inv(cfg, t, s) || (!s.isRecording && s.outFile.None? && OutputsOk(cfg, t, s.outputs))
    ensures Inv(cfg, t, StopRecording(cfg, s))
  {
    OutputsOkAppend(cfg, t, s.outputs, EnsureClose(s.outFile, cfg.rate, FrameBytes(cfg)));
  }

  /**
    Disabling: the block is not queued; a recording in progress is finalised as by a
    silence stop; while Listening nothing changes at all.
   */
  lemma DisabledStep(cfg: Config, t: real, s: State, b: Block, now: Timestamp)
    requires Inv(cfg, t, s)
    ensures var r := BlockStep(cfg, t, s, false, b, now);
      && !r.isRecording && r.outFile.None?
      && r.outputs == s.outputs + EnsureClose(s.outFile, cfg.rate, FrameBytes(cfg))
      && (s.isRecording ==> r.queue == Newest(s.queue, cfg.listenRetention) && r.silenceCount == s.silenceCount)
      && (!s.isRecording ==> r == s)
      && Inv(cfg, t, r)
  {
    if s.isRecording {
      StopKeepsInv(cfg, t, s);
    } else {
      assert EnsureClose(s.outFile, cfg.rate, FrameBytes(cfg)) == [];
      assert s.outputs + [] == s.outputs;
    }
  }

  /**
    Listening on a queue that holds the new block: the trigger decides the mode; on a
    trigger the queue (the pre-roll) is kept and a recording named after now is opened;
    otherwise only the newest listenRetention blocks remain.
   */
  lemma ListenStepOutcome(cfg: Config, t: real, s: State, now: Timestamp)
    requires !s.isRecording && s.outFile.None?
    ensures var r := ListenStep(cfg, t, s, now);
      && (r.isRecording <==> Triggered(s.queue, t))
      && (r.isRecording ==> r == s.(isRecording := true, silenceCount := 0, outFile := Some(OpenFile(BaseName(now), now, []))))
      && (!r.isRecording ==> r == s.(queue := Newest(s.queue, cfg.listenRetention)))
  {
  }

  /** Every per-block iteration keeps the invariant, so in particular the queue stays bounded. */
  lemma BlockStepKeepsInv(cfg: Config, t: real, s: State, enabled: bool, b: Block, now: Timestamp)
    requires Inv(cfg, t, s)
    ensures Inv(cfg, t, BlockStep(cfg, t, s, enabled, b, now))
  {
    if !enabled {
      DisabledStep(cfg, t, s, b, now);
    } else {
      var s2 := s.(queue := s.queue + [b]);
      if !s.isRecording {
        ListenStepOutcome(cfg, t, s2, now);
      } else {
        var f := s.outFile.value;
        var r := RecordStep(cfg, t, s2);
        DrainRecording(cfg, t, s2);
        WrittenTrailing(f.blocks, s.silenceCount, s2.queue, t, cfg.writeLimit, cfg.stopLimit);
        if r.isRecording {
          if s2.queue != [] {
            CounterAtMost(s.silenceCount, s2.queue, t, cfg.stopLimit);
          }
        } else {
          var g := f.(blocks := f.blocks + WrittenUntilStop(s.silenceCount, s2.queue, t, cfg.writeLimit, cfg.stopLimit));
          OutputsOkAppend(cfg, t, s.outputs, [Close(g, cfg.rate, FrameBytes(cfg))]);
        }
      }
    }
  }

  /** While the counter stays at most limit, it ends at most limit. */
  lemma {:induction false} CounterAtMost(c: nat, bs: seq<Block>, t: real, limit: nat)
    requires bs != [] && StaysAtMost(c, bs, t, limit)
    ensures Counter(c, bs, t) <= limit
    decreases |bs|
  {
    if bs[1..] != [] {
      CounterAtMost(NextCount(c, bs[0], t), bs[1..], t, limit);
    }
  }

  lemma {:induction false} RunBlocksKeepsInv(cfg: Config, t: real, s: State, ticks: seq<Tick>)
    requires Inv(cfg, t, s)
    ensures Inv(cfg, t, RunBlocks(cfg, t, s, ticks))
    decreases |ticks|
  {
    if ticks != [] {
      BlockStepKeepsInv(cfg, t, s, ticks[0].enabled, ticks[0].block, ticks[0].now);
      RunBlocksKeepsInv(cfg, t, BlockStep(cfg, t, s, ticks[0].enabled, ticks[0].block, ticks[0].now), ticks[1..]);
    }
  }

  /** The interrupt handler leaves no recording open and keeps the invariant. */
  lemma InterruptFinalizes(cfg: Config, t: real, s: State)
    requires Inv(cfg, t, s)
    ensures var r := Interrupt(cfg, s);
      !r.isRecording && r.outFile.None? && Inv(cfg, t, r)
      && r.outputs == s.outputs + EnsureClose(s.outFile, cfg.rate, FrameBytes(cfg))
  {
    if s.isRecording {
      StopKeepsInv(cfg, t, s);
    } else {
      assert s.outputs + [] == s.outputs;
    }
  }
}

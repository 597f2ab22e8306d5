/**
  AutoRecordSession (auto_record.py) as a class whose fields the methods update in place.
  AsState() is the abstract value of the fields; every method is proved to compute a
  function of module Engine or RecordingSink (RunListenLogic: ListenStep, RunRecordLogic:
  RecordStep, CheckRecordingEnabled: CheckEnabled, ProcessBlock: BlockStep, EnsureOpenFile:
  EnsureOpen, TrimQueue: Newest, CountRecentNoisy: NoisyCount; StartRecording and
  StopRecording: the functions of the same name), and Valid() is Engine.Inv of that value.
 */
module Session {
  import opened Wrappers
  import opened AudioBlock
  import opened RecordingSink
  import opened Engine

  class AutoRecordSession {
    const cfg: Config
    var threshold: real
    var isRecording: bool
    var silenceCount: nat
    var queue: seq<Block>              // data_queue: appended at the tail, popped at the head
    var outFile: Option<OpenFile>      // the open WAVE output, if any
    var outputs: seq<Outcome>          // what each closed recording left on disk, oldest first

    function AsState(): Engine.State
      reads this
    {
      Engine.State(isRecording, silenceCount, queue, outFile, outputs)
    }

    ghost predicate Valid()
      reads this
    {
      Inv(cfg, threshold, AsState())
    }

    constructor (cfg: Config)
      ensures this.cfg == cfg && threshold == DEFAULT_NOISE_THRESHOLD
      ensures AsState() == INITIAL && Valid()
    {
      this.cfg := cfg;
      threshold := DEFAULT_NOISE_THRESHOLD;
      isRecording := false;
      silenceCount := 0;
      queue := [];
      outFile := None;
      outputs := [];
    }

    /** The threshold part of start_session: a persisted value replaces the default only if positive. */
    method StartSession(persisted: Option<real>)
      modifies this`threshold
      ensures old(threshold) == DEFAULT_NOISE_THRESHOLD ==> threshold == LoadThreshold(persisted)
      ensures persisted.Some? && persisted.value > 0.0 ==> threshold == persisted.value
      ensures persisted.None? || persisted.value <= 0.0 ==> threshold == old(threshold)
      ensures old(AsState()) == INITIAL ==> Valid()
    {
      if persisted.Some? && persisted.value > 0.0 {
        threshold := persisted.value;
      }
      InitialInv(cfg, threshold);
    }

    /** ensure_open_file: a no-op when a recording is already open. */
    method EnsureOpenFile(now: Timestamp)
      modifies this`outFile
      ensures outFile == EnsureOpen(old(outFile), now)
    {
      if outFile.Some? {
        return;
      }
      outFile := Some(OpenFile(BaseName(now), now, []));
    }

    /** ensure_close_file: a no-op when no recording is open; afterwards none is. */
    method EnsureCloseFile()
      modifies this`outFile, this`outputs
      ensures outFile.None?
      ensures outputs == old(outputs) + EnsureClose(old(outFile), cfg.rate, FrameBytes(cfg))
    {
      if outFile.None? {
        assert outputs + [] == outputs;
        return;
      }
      var f := outFile.value;
      var frames := FrameCount(f.blocks, FrameBytes(cfg));
      var length := RecordingLength(frames, cfg.rate);
      if length >= MIN_RECORDING_SECONDS {
        outputs := outputs + [Kept(Meta(WavName(f.baseName), f.baseName, JsonName(f.baseName), f.openTime, length), f.blocks)];
      } else {
        outputs := outputs + [Removed(TempName(f.baseName))];
      }
      outFile := None;
    }

    method StartRecording(now: Timestamp)
      modifies this`isRecording, this`silenceCount, this`outFile
      ensures AsState() == Engine.StartRecording(old(AsState()), now)
    {
      isRecording := true;
      silenceCount := 0;
      EnsureOpenFile(now);
    }

    /** The popleft loop shared by stop_recording and run_listen_logic. */
    method TrimQueue()
      modifies this`queue
      ensures queue == Newest(old(queue), cfg.listenRetention)
    {
      while |queue| > cfg.listenRetention
        invariant Newest(queue, cfg.listenRetention) == Newest(old(queue), cfg.listenRetention)
        decreases |queue|
      {
        NewestPop(queue, cfg.listenRetention);
        queue := queue[1..];
      }
    }

    method StopRecording()
      modifies this`isRecording, this`outFile, this`outputs, this`queue
      ensures AsState() == Engine.StopRecording(cfg, old(AsState()))
    {
      isRecording := false;
      EnsureCloseFile();
      TrimQueue();
    }

    /** The counting loop of run_listen_logic over queue[-1], queue[-2], queue[-3]. */
    method CountRecentNoisy() returns (count: nat)
      requires |queue| > 2
      ensures count == NoisyCount(queue[|queue| - CONFIRM_WINDOW..], threshold)
    {
      count := 0;
      var k := 1;
      while k <= CONFIRM_WINDOW
        invariant 1 <= k <= CONFIRM_WINDOW + 1
        invariant count == NoisyCount(queue[|queue| - (k - 1)..], threshold)
      {
        assert queue[|queue| - k..][1..] == queue[|queue| - (k - 1)..];
        if IsNoisy(queue[|queue| - k], threshold) {
          count := count + 1;
        }
        k := k + 1;
      }
    }

    method RunListenLogic(now: Timestamp)
      modifies this`isRecording, this`silenceCount, this`queue, this`outFile
      ensures AsState() == ListenStep(cfg, threshold, old(AsState()), now)
    {
      if |queue| > 2 {
        var count := CountRecentNoisy();
        if count >= CONFIRM_COUNT {
          StartRecording(now);
        }
      }
      if !isRecording {
        TrimQueue();
      }
    }

    method RunRecordLogic()
      modifies this`isRecording, this`silenceCount, this`queue, this`outFile, this`outputs
      ensures AsState() == RecordStep(cfg, threshold, old(AsState()))
    {
      while |queue| > 0
        invariant RecordStep(cfg, threshold, AsState()) == RecordStep(cfg, threshold, old(AsState()))
        decreases |queue|
      {
        ghost var before := AsState();
        var block := queue[0];
        queue := queue[1..];
        if IsNoisy(block, threshold) {
          silenceCount := 0;
        } else {
          silenceCount := silenceCount + 1;
        }
        assert silenceCount == NextCount(before.silenceCount, block, threshold);
        if silenceCount < cfg.writeLimit {
          if outFile.Some? {
            outFile := Some(outFile.value.(blocks := outFile.value.blocks + [block]));
          }
        }
        ghost var written := before.(queue := before.queue[1..], silenceCount := silenceCount, outFile := outFile);
        assert AsState() == written;
        if silenceCount > cfg.stopLimit {
          StopRecording();
        }
        assert AsState() == RecordBlock(cfg, threshold, before.(queue := before.queue[1..]), block);
      }
    }

    /** check_recording_enabled, with the sentinel file's presence passed in as flag. */
    method CheckRecordingEnabled(flag: bool) returns (enabled: bool)
      modifies this`isRecording, this`outFile, this`outputs, this`queue
      ensures enabled == flag
      ensures AsState() == CheckEnabled(cfg, old(AsState()), flag)
    {
      enabled := flag;
      if !enabled {
        if isRecording {
          StopRecording();
        }
      }
    }

    /** The body of run's loop for one block read from the device. */
    method ProcessBlock(tick: Tick)
      requires Valid()
      modifies this`isRecording, this`silenceCount, this`queue, this`outFile, this`outputs
      ensures Valid()
      ensures AsState() == BlockStep(cfg, threshold, old(AsState()), tick.enabled, tick.block, tick.now)
    {
      BlockStepKeepsInv(cfg, threshold, AsState(), tick.enabled, tick.block, tick.now);
      var enabled := CheckRecordingEnabled(tick.enabled);
      if !enabled {
        return;
      }
      queue := queue + [tick.block];
      if !isRecording {
        RunListenLogic(tick.now);
      } else {
        RunRecordLogic();
      }
    }

    /**
      run, on a new session: load the threshold, process the blocks read until an
      interrupt arrives, then finish the recording in progress.
     */
    method Run(persisted: Option<real>, ticks: seq<Tick>)
      requires AsState() == INITIAL && threshold == DEFAULT_NOISE_THRESHOLD
      modifies this
      ensures threshold == LoadThreshold(persisted)
      ensures AsState() == Interrupt(cfg, RunBlocks(cfg, threshold, INITIAL, ticks))
      ensures Valid() && !isRecording && outFile.None?
    {
      StartSession(persisted);
      var i := 0;
      while i < |ticks|
        invariant 0 <= i <= |ticks|
        invariant threshold == LoadThreshold(persisted)
        invariant Valid()
        invariant RunBlocks(cfg, threshold, AsState(), ticks[i..]) == RunBlocks(cfg, threshold, INITIAL, ticks)
      {
        assert ticks[i..][1..] == ticks[i + 1..];
        ProcessBlock(ticks[i]);
        i := i + 1;
      }
      assert ticks[i..] == [];
      InterruptFinalizes(cfg, threshold, AsState());
      if isRecording {
        StopRecording();
      }
    }
  }
}

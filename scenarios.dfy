/** Concrete runs of the controller that pin down its boundary policies. */
module Scenarios {
  import opened Wrappers
  import opened AudioBlock
  import opened RecordingSink
  import opened Engine

  function Loud(): Block { Block([], 0.2) }
  function Quiet(): Block { Block([], 0.0) }

  /** A block that does not trigger is queued while listening. */
  lemma ListenQueues(s: State, b: Block, now: Timestamp)
    requires !s.isRecording && |s.queue| < 2
    ensures BlockStep(DEFAULT_CONFIG, 0.1, s, true, b, now) == s.(queue := s.queue + [b])
  {
  }

  /** With threshold 0.1, volumes 0.2, 0.2, 0.0 start a recording at the third block and not before. */
  lemma TriggerOnThirdBlock(now: Timestamp)
    ensures var s1 := BlockStep(DEFAULT_CONFIG, 0.1, INITIAL, true, Loud(), now);
      var s2 := BlockStep(DEFAULT_CONFIG, 0.1, s1, true, Loud(), now);
      var s3 := BlockStep(DEFAULT_CONFIG, 0.1, s2, true, Quiet(), now);
      && !s1.isRecording && !s2.isRecording && s3.isRecording
      && s3.queue == [Loud(), Loud(), Quiet()]
      && s3.outFile == Some(OpenFile(BaseName(now), now, []))
  {
    var cfg := DEFAULT_CONFIG;
    ListenQueues(INITIAL, Loud(), now);
    var s1 := BlockStep(cfg, 0.1, INITIAL, true, Loud(), now);
    assert s1 == State(false, 0, [Loud()], None, []);
    ListenQueues(s1, Loud(), now);
    var s2 := BlockStep(cfg, 0.1, s1, true, Loud(), now);
    assert s2 == State(false, 0, [Loud(), Loud()], None, []);
    var q := [Loud(), Loud(), Quiet()];
    assert q[|q| - CONFIRM_WINDOW..] == q;
    assert NoisyCount(q, 0.1) == 2 by {
      assert q[1..] == [Loud(), Quiet()] && q[1..][1..] == [Quiet()] && q[1..][1..][1..] == [];
    }
    assert Triggered(q, 0.1);
    assert s2.queue + [Quiet()] == q;
    var s3 := BlockStep(cfg, 0.1, s2, true, Quiet(), now);
    assert s3 == StartRecording(State(false, 0, q, None, []), now);
  }

  /**
    With writeLimit 2 and stopLimit 5, one noisy block followed by six silent ones writes
    the noisy block and ONE silent block (the counter must be below the limit), and the
    sixth silent block stops the recording.
   */
  lemma WriteLimitKeepsOneSilentBlock(now: Timestamp)
    ensures var cfg := DEFAULT_CONFIG.(writeLimit := 2, stopLimit := 5);
      var f := OpenFile(BaseName(now), now, []);
      var s := State(true, 0, [Loud(), Quiet(), Quiet(), Quiet(), Quiet(), Quiet(), Quiet()], Some(f), []);
      var r := RecordStep(cfg, 0.1, s);
      && !r.isRecording && r.outFile.None? && r.queue == []
      && r.outputs == [Close(f.(blocks := [Loud(), Quiet()]), cfg.rate, FrameBytes(cfg))]
  {
    var cfg := DEFAULT_CONFIG.(writeLimit := 2, stopLimit := 5);
    var q := [Loud(), Quiet(), Quiet(), Quiet(), Quiet(), Quiet(), Quiet()];
    var s := State(true, 0, q, Some(OpenFile(BaseName(now), now, [])), []);
    DrainRecording(cfg, 0.1, s);
    var q1, q2, q3, q4, q5, q6 := q[1..], q[2..], q[3..], q[4..], q[5..], q[6..];
    assert q1[1..] == q2 && q2[1..] == q3 && q3[1..] == q4 && q4[1..] == q5 && q5[1..] == q6;
    assert q6 == [Quiet()] && q6[1..] == [];
    assert !StaysAtMost(5, q6, 0.1, 5);
    assert !StaysAtMost(4, q5, 0.1, 5);
    assert !StaysAtMost(3, q4, 0.1, 5);
    assert !StaysAtMost(2, q3, 0.1, 5);
    assert !StaysAtMost(1, q2, 0.1, 5);
    assert !StaysAtMost(0, q1, 0.1, 5);
    assert !StaysAtMost(0, q, 0.1, 5);
    assert WrittenUntilStop(5, q6, 0.1, 2, 5) == [];
    assert WrittenUntilStop(4, q5, 0.1, 2, 5) == [];
    assert WrittenUntilStop(3, q4, 0.1, 2, 5) == [];
    assert WrittenUntilStop(2, q3, 0.1, 2, 5) == [];
    assert WrittenUntilStop(1, q2, 0.1, 2, 5) == [];
    assert WrittenUntilStop(0, q1, 0.1, 2, 5) == [Quiet()];
    assert WrittenUntilStop(0, q, 0.1, 2, 5) == [Loud(), Quiet()];
    assert [] + [Loud(), Quiet()] == [Loud(), Quiet()];
  }
}

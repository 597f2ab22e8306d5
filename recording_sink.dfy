/**
  The life cycle of one output recording (ensure_open_file / ensure_close_file in
  auto_record.py). The WAVE writer is abstracted to the list of blocks written to it;
  its frame count is derived from the written bytes. The file system effects of closing
  (rename to .wav plus a .json sidecar, or removal of the .tmp file) are an Outcome value.
 */
module RecordingSink {
  import opened Wrappers
  import opened AudioBlock

  type Positive = n: nat | n > 0 witness 1

  /** Recordings shorter than this many whole seconds are discarded. */
  const MIN_RECORDING_SECONDS: nat := 2

  /** A wall-clock time, to the second: the fields of datetime.datetime that the base name uses. */
  datatype Timestamp = Timestamp(year: nat, month: nat, day: nat, hour: nat, minute: nat, second: nat)

  predicate ValidTimestamp(t: Timestamp)
  {
    && 1 <= t.year <= 9999 && 1 <= t.month <= 12 && 1 <= t.day <= 31
    && t.hour < 24 && t.minute < 60 && t.second < 60
  }

  // ---------------------------------------------------------------------------
  // Zero-padded decimal formatting ("%0Nd") and its inverse

  function Pow10(k: nat): (r: nat)
    ensures r >= 1
  {
    if k == 0 then 1 else 10 * Pow10(k - 1)
  }

  function DigitChar(d: nat): char
    requires d < 10
  {
    "0123456789"[d]
  }

  function DigitValue(c: char): nat
  {
    if '0' <= c <= '9' then c as int - '0' as int else 0
  }

  /** The decimal digits of n, without leading zeros. */
  function Digits(n: nat): (r: string)
    ensures |r| >= 1
    decreases n
  {
    if n < 10 then [DigitChar(n)] else Digits(n / 10) + [DigitChar(n % 10)]
  }

  function Zeros(k: nat): (r: string)
    ensures |r| == k && forall i :: 0 <= i < k ==> r[i] == '0'
  {
    seq(k, _ => '0')
  }

  /** "%0<width>d" % n: left-padded with zeros to at least width characters, never truncated. */
  function Pad(n: nat, width: nat): string
  {
    var d := Digits(n);
    if |d| < width then Zeros(width - |d|) + d else d
  }

  /** The value of a string of decimal digits. */
  function ParseDigits(s: string): nat
  {
    if s == [] then 0 else 10 * ParseDigits(s[..|s| - 1]) + DigitValue(s[|s| - 1])
  }

  lemma {:induction false} DigitsRoundTrip(n: nat)
    ensures ParseDigits(Digits(n)) == n
    decreases n
  {
    var d := Digits(n);
    if n >= 10 {
      assert d[..|d| - 1] == Digits(n / 10);
      DigitsRoundTrip(n / 10);
    }
  }

  lemma {:induction false} DigitsLength(n: nat, w: nat)
    requires w >= 1 && n < Pow10(w)
    ensures |Digits(n)| <= w
    decreases n
  {
    if n >= 10 {
      assert Pow10(1) == 10;
      assert n / 10 < Pow10(w - 1);
      DigitsLength(n / 10, w - 1);
    }
  }

  lemma {:induction false} LeadingZeros(k: nat, s: string)
    ensures ParseDigits(Zeros(k) + s) == ParseDigits(s)
    decreases |s|, k
  {
    if s == [] {
      assert Zeros(k) + s == Zeros(k);
      if k > 0 {
        assert Zeros(k)[..k - 1] == Zeros(k - 1) + [];
        LeadingZeros(k - 1, []);
      }
    } else {
      var z := Zeros(k) + s;
      assert z[..|z| - 1] == Zeros(k) + s[..|s| - 1];
      LeadingZeros(k, s[..|s| - 1]);
    }
  }

  /** A padded number has exactly the padding width and parses back to itself. */
  lemma PadRoundTrip(n: nat, w: nat)
    requires w >= 1 && n < Pow10(w)
    ensures |Pad(n, w)| == w
    ensures ParseDigits(Pad(n, w)) == n
  {
    DigitsLength(n, w);
    DigitsRoundTrip(n);
    if |Digits(n)| < w {
      LeadingZeros(w - |Digits(n)|, Digits(n));
    }
  }

  // ---------------------------------------------------------------------------
  // File names

  /** "%04d-%02d-%02d_%02d_%02d_%02d" of the recording's start time. */
  function BaseName(t: Timestamp): string
  {
    Pad(t.year, 4) + "-" + Pad(t.month, 2) + "-" + Pad(t.day, 2) + "_"
      + Pad(t.hour, 2) + "_" + Pad(t.minute, 2) + "_" + Pad(t.second, 2)
  }

  /** Reads the start time back from a base name. */
  function ParseBaseName(s: string): Option<Timestamp>
  {
    if |s| == 19 && s[4] == '-' && s[7] == '-' && s[10] == '_' && s[13] == '_' && s[16] == '_' then
      Some(Timestamp(ParseDigits(s[0..4]), ParseDigits(s[5..7]), ParseDigits(s[8..10]),
                     ParseDigits(s[11..13]), ParseDigits(s[14..16]), ParseDigits(s[17..19])))
    else None
  }

  /** The layout of a base name: six fields at fixed positions between fixed separators. */
  lemma BaseNameLayout(y: string, mo: string, d: string, h: string, mi: string, sec: string)
    requires |y| == 4 && |mo| == 2 && |d| == 2 && |h| == 2 && |mi| == 2 && |sec| == 2
    ensures var s := y + "-" + mo + "-" + d + "_" + h + "_" + mi + "_" + sec;
      && |s| == 19 && s[4] == '-' && s[7] == '-' && s[10] == '_' && s[13] == '_' && s[16] == '_'
      && s[0..4] == y && s[5..7] == mo && s[8..10] == d && s[11..13] == h && s[14..16] == mi && s[17..19] == sec
  {
    var s := y + "-" + mo + "-" + d + "_" + h + "_" + mi + "_" + sec;
    assert s[5] == mo[0] && s[6] == mo[1];
    assert s[8] == d[0] && s[9] == d[1];
    assert s[11] == h[0] && s[12] == h[1];
    assert s[5..7] == mo;
    assert s[8..10] == d;
    assert s[11..13] == h;
  }

  /** A base name is 19 characters long and gives back the time it was made from. */
  lemma BaseNameRoundTrip(t: Timestamp)
    requires ValidTimestamp(t)
    ensures |BaseName(t)| == 19
    ensures ParseBaseName(BaseName(t)) == Some(t)
  {
    assert Pow10(2) == 100 && Pow10(4) == 10000;
    PadRoundTrip(t.year, 4);
    PadRoundTrip(t.month, 2);
    PadRoundTrip(t.day, 2);
    PadRoundTrip(t.hour, 2);
    PadRoundTrip(t.minute, 2);
    PadRoundTrip(t.second, 2);
    BaseNameLayout(Pad(t.year, 4), Pad(t.month, 2), Pad(t.day, 2), Pad(t.hour, 2), Pad(t.minute, 2), Pad(t.second, 2));
  }

  /** Recordings started at different seconds never share a base name. */
  lemma BaseNameInjective(a: Timestamp, b: Timestamp)
    requires ValidTimestamp(a) && ValidTimestamp(b)
    requires BaseName(a) == BaseName(b)
    ensures a == b
  {
    BaseNameRoundTrip(a);
    BaseNameRoundTrip(b);
  }

  // ---------------------------------------------------------------------------
  // The open recording and its outcome

  /** An open recording: its base name, its start time and the blocks written so far. */
  datatype OpenFile = OpenFile(baseName: string, openTime: Timestamp, blocks: seq<Block>)

  /** The JSON sidecar of a kept recording. */
  datatype Meta = Meta(soundFile: string, baseName: string, jsonFile: string, timestamp: Timestamp, length: nat)

  /** What closing a recording leaves on disk. */
  datatype Outcome =
    | Kept(meta: Meta, audio: seq<Block>)   // <base>.tmp renamed to <base>.wav, <base>.json written
    | Removed(tmpFile: string)             // <base>.tmp deleted

  /** Frames the WAVE writer counts for the written blocks: each write adds len(data) // frame size. */
  function FrameCount(blocks: seq<Block>, frameBytes: Positive): nat
  {
    if blocks == [] then 0
    else FrameCount(blocks[..|blocks| - 1], frameBytes) + |blocks[|blocks| - 1].data| / frameBytes
  }

  /** int(nframes / RATE): the length in whole seconds, rounded down. */
  function RecordingLength(frames: nat, rate: Positive): (secs: nat)
    ensures secs * rate <= frames < (secs + 1) * rate
  {
    frames / rate
  }

  /** A recording is kept exactly when it holds at least MIN_RECORDING_SECONDS * rate frames. */
  lemma LengthAtLeastMinimum(frames: nat, rate: Positive)
    ensures RecordingLength(frames, rate) >= MIN_RECORDING_SECONDS <==> frames >= MIN_RECORDING_SECONDS * rate
  {
    var secs := RecordingLength(frames, rate);
    if secs >= MIN_RECORDING_SECONDS {
      assert secs * rate >= MIN_RECORDING_SECONDS * rate;
    } else {
      assert (secs + 1) * rate <= MIN_RECORDING_SECONDS * rate;
    }
  }

  function TempName(base: string): string { base + ".tmp" }
  function WavName(base: string): string { base + ".wav" }
  function JsonName(base: string): string { base + ".json" }

  /** ensure_open_file: opens a new recording named after now, unless one is already open. */
  function EnsureOpen(f: Option<OpenFile>, now: Timestamp): (r: Option<OpenFile>)
    ensures r.Some?
    ensures f.Some? ==> r == f
    ensures f.None? ==> r.value.blocks == [] && r.value.openTime == now && r.value.baseName == BaseName(now)
  {
    if f.Some? then f else Some(OpenFile(BaseName(now), now, []))
  }

  /** Closing an open recording: kept with metadata when long enough, otherwise removed. */
  function Close(f: OpenFile, rate: Positive, frameBytes: Positive): (o: Outcome)
    ensures o.Kept? <==> FrameCount(f.blocks, frameBytes) >= MIN_RECORDING_SECONDS * rate
    ensures o.Kept? ==> && o.audio == f.blocks
                        && o.meta.length >= MIN_RECORDING_SECONDS
                        && o.meta.length * rate <= FrameCount(f.blocks, frameBytes) < (o.meta.length + 1) * rate
                        && o.meta == Meta(WavName(f.baseName), f.baseName, JsonName(f.baseName), f.openTime, o.meta.length)
    ensures o.Removed? ==> o.tmpFile == TempName(f.baseName)
  {
    var frames := FrameCount(f.blocks, frameBytes);
    var length := RecordingLength(frames, rate);
    LengthAtLeastMinimum(frames, rate);
    if length >= MIN_RECORDING_SECONDS then
      Kept(Meta(WavName(f.baseName), f.baseName, JsonName(f.baseName), f.openTime, length), f.blocks)
    else
      Removed(TempName(f.baseName))
  }

  /** ensure_close_file: the outcomes it adds; nothing when no recording is open. */
  function EnsureClose(f: Option<OpenFile>, rate: Positive, frameBytes: Positive): (r: seq<Outcome>)
    ensures f.None? ==> r == []
    ensures f.Some? ==> r == [Close(f.value, rate, frameBytes)]
  {
    if f.None? then [] else [Close(f.value, rate, frameBytes)]
  }
}

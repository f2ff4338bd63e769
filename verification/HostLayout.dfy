/** How samples and frames lie in the storage of the host's queues: one machine
    word for each member of the struct. */
module HostLayout {
  import opened HostTime
  import opened HostModel
  import opened MsgQueues

  datatype Word = Whole(i: int) | Double(x: real)

  const SAMPLE_WORDS := 9
  const FRAME_WORDS := 11

  function IntIn(w: Word): int {
    if w.Whole? then w.i else 0
  }

  function NatIn(w: Word): nat {
    if w.Whole? && w.i >= 0 then w.i else 0
  }

  function RealIn(w: Word): real {
    if w.Double? then w.x else 0.0
  }

  function SampleWords(x: SensorSample): (words: Item<Word>)
    ensures |words| == SAMPLE_WORDS
  {
    [Whole(x.sequence), Double(x.temperature), Double(x.ax), Double(x.ay), Double(x.az), Double(x.speed),
     Whole(x.faultCode), Whole(x.timestamp.sec), Whole(x.timestamp.nsec)]
  }

  function SampleIn(words: Item<Word>): SensorSample
    requires |words| == SAMPLE_WORDS
  {
    SensorSample(NatIn(words[0]), RealIn(words[1]), RealIn(words[2]), RealIn(words[3]), RealIn(words[4]),
                 RealIn(words[5]), IntIn(words[6]), Timespec(IntIn(words[7]), IntIn(words[8])))
  }

  function FrameWords(f: TelemetryFrame): (words: Item<Word>)
    ensures |words| == FRAME_WORDS
  {
    [Whole(f.sequence), Double(f.temperature), Double(f.ax), Double(f.ay), Double(f.az), Double(f.speed),
     Double(f.rpm), Double(f.throttle), Whole(f.faultCode), Whole(f.timestamp.sec), Whole(f.timestamp.nsec)]
  }

  function FrameIn(words: Item<Word>): TelemetryFrame
    requires |words| == FRAME_WORDS
  {
    TelemetryFrame(NatIn(words[0]), RealIn(words[1]), RealIn(words[2]), RealIn(words[3]), RealIn(words[4]),
                   RealIn(words[5]), RealIn(words[6]), RealIn(words[7]), IntIn(words[8]),
                   Timespec(IntIn(words[9]), IntIn(words[10])))
  }

  /** A struct copied through the queue's storage is the struct. */
  lemma SampleReadsBack(x: SensorSample)
    ensures SampleIn(SampleWords(x)) == x
  {
  }

  lemma FrameReadsBack(f: TelemetryFrame)
    ensures FrameIn(FrameWords(f)) == f
  {
  }

  ghost predicate AllSized(q: seq<Item<Word>>, size: nat) {
    forall i :: 0 <= i < |q| ==> |q[i]| == size
  }

  /** The samples a queue's items stand for. */
  function SamplesIn(q: seq<Item<Word>>): (r: seq<SensorSample>)
    requires AllSized(q, SAMPLE_WORDS)
    ensures |r| == |q|
  {
    seq(|q|, i requires 0 <= i < |q| => SampleIn(q[i]))
  }

  function FramesIn(q: seq<Item<Word>>): (r: seq<TelemetryFrame>)
    requires AllSized(q, FRAME_WORDS)
    ensures |r| == |q|
  {
    seq(|q|, i requires 0 <= i < |q| => FrameIn(q[i]))
  }

  lemma SampleJoins(q: seq<Item<Word>>, x: SensorSample)
    requires AllSized(q, SAMPLE_WORDS)
    ensures AllSized(q + [SampleWords(x)], SAMPLE_WORDS)
    ensures SamplesIn(q + [SampleWords(x)]) == SamplesIn(q) + [x]
  {
    SampleReadsBack(x);
  }

  lemma FrameJoins(q: seq<Item<Word>>, f: TelemetryFrame)
    requires AllSized(q, FRAME_WORDS)
    ensures AllSized(q + [FrameWords(f)], FRAME_WORDS)
    ensures FramesIn(q + [FrameWords(f)]) == FramesIn(q) + [f]
  {
    FrameReadsBack(f);
  }

  // ---------------------------------------------------------------- the heartbeat arrays

  const TASK_COUNT := 4

  /** The index of a watched task; the watchdog's own is 3. */
  function Index(t: Watched): nat {
    match t
    case WatchedSensor => 0
    case WatchedProcessor => 1
    case WatchedLogger => 2
  }

  /** The reports the two arrays stand for. */
  ghost function BeatsIn(last: seq<Timespec>, initialized: seq<bool>): map<Watched, Timespec>
    requires |last| == |initialized| == TASK_COUNT
  {
    map t: Watched | initialized[Index(t)] :: last[Index(t)]
  }

  lemma BeatRecorded(last: seq<Timespec>, initialized: seq<bool>, t: Watched, now: Timespec)
    requires |last| == |initialized| == TASK_COUNT
    ensures BeatsIn(last[Index(t) := now], initialized[Index(t) := true]) == BeatsIn(last, initialized)[t := now]
  {
  }

  /** The watchdog's own report is not among those it watches. */
  lemma OwnBeatUnwatched(last: seq<Timespec>, initialized: seq<bool>, now: Timespec)
    requires |last| == |initialized| == TASK_COUNT
    ensures BeatsIn(last[3 := now], initialized[3 := true]) == BeatsIn(last, initialized)
  {
  }

  lemma NoBeats(last: seq<Timespec>, initialized: seq<bool>)
    requires |last| == |initialized| == TASK_COUNT
    requires forall i :: 0 <= i < TASK_COUNT ==> !initialized[i]
    ensures BeatsIn(last, initialized) == map[]
  {
  }
}

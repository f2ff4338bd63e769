/** What the threads of the host simulator share besides its counters: the two
    ring buffers and the two heartbeat arrays. */
module HostBuffers {
  import opened HostTime
  import opened HostModel
  import opened HostLayout
  import opened MsgQueues

  class Buffers {
    const sensorQueue: MsgQueue<Word>
    const telemetryQueue: MsgQueue<Word>
    const lastBeat: array<Timespec>
    const beatInitialized: array<bool>
    ghost var samples: seq<SensorSample>
    ghost var frames: seq<TelemetryFrame>
    ghost var beats: map<Watched, Timespec>

    /** The objects it is made of. */
    ghost function Parts(): set<object>
    {
      {this, sensorQueue, sensorQueue.storage, telemetryQueue, telemetryQueue.storage, lastBeat, beatInitialized}
    }

    /** `samples`, `frames` and `beats` are what the two rings and the two arrays
        stand for. */
    ghost predicate Valid()
      reads this, sensorQueue, sensorQueue.storage, telemetryQueue, telemetryQueue.storage, lastBeat, beatInitialized
    {
      && sensorQueue.Valid() && telemetryQueue.Valid()
      && sensorQueue != telemetryQueue && sensorQueue.storage != telemetryQueue.storage
      && sensorQueue.itemSize == SAMPLE_WORDS && telemetryQueue.itemSize == FRAME_WORDS
      && sensorQueue.capacity == telemetryQueue.capacity == QUEUE_LENGTH
      && lastBeat.Length == beatInitialized.Length == TASK_COUNT
      && samples == SamplesIn(sensorQueue.Contents())
      && frames == FramesIn(telemetryQueue.Contents())
      && beats == BeatsIn(lastBeat[..], beatInitialized[..])
    }

    constructor ()
      ensures Valid() && fresh(Parts())
      ensures samples == [] && frames == [] && beats == map[]
    {
      var sampleRing := new MsgQueue<Word>(SAMPLE_WORDS, QUEUE_LENGTH, Whole(0));
      var frameRing := new MsgQueue<Word>(FRAME_WORDS, QUEUE_LENGTH, Whole(0));
      var times := new Timespec[TASK_COUNT](_ => Timespec(0, 0));
      var flags := new bool[TASK_COUNT](_ => false);
      NoBeats(times[..], flags[..]);
      sensorQueue, telemetryQueue, lastBeat, beatInitialized := sampleRing, frameRing, times, flags;
      samples, frames, beats := [], [], map[];
    }

    /** `queue_push` of a sample: its words go into the ring. */
    method PushSample(x: SensorSample) returns (pushed: bool)
      requires Valid()
      modifies this`samples, sensorQueue, sensorQueue.storage
      ensures Valid()
      ensures Fifo.Outcome(samples, Fifo.Pushed(pushed)) == Fifo.Apply(QUEUE_LENGTH, old(samples), Fifo.Push(x))
    {
      var words := SampleWords(x);
      var item := new Word[SAMPLE_WORDS](i requires 0 <= i < SAMPLE_WORDS => words[i]);
      assert item[..] == words;
      SampleJoins(sensorQueue.Contents(), x);
      pushed := sensorQueue.Push(item);
      samples := SamplesIn(sensorQueue.Contents());
    }

    /** `queue_push` of a frame. */
    method PushFrame(f: TelemetryFrame) returns (pushed: bool)
      requires Valid()
      modifies this`frames, telemetryQueue, telemetryQueue.storage
      ensures Valid()
      ensures Fifo.Outcome(frames, Fifo.Pushed(pushed)) == Fifo.Apply(QUEUE_LENGTH, old(frames), Fifo.Push(f))
    {
      var words := FrameWords(f);
      var item := new Word[FRAME_WORDS](i requires 0 <= i < FRAME_WORDS => words[i]);
      assert item[..] == words;
      FrameJoins(telemetryQueue.Contents(), f);
      pushed := telemetryQueue.Push(item);
      frames := FramesIn(telemetryQueue.Contents());
    }

    /** `queue_pop` from the sensor queue, up to the wait if it is empty. */
    method PopSample() returns (x: SensorSample, found: bool)
      requires Valid()
      modifies this`samples, sensorQueue
      ensures Valid()
      ensures Fifo.Outcome(samples, if found then Fifo.Taken(x) else Fifo.Nothing)
           == Fifo.Apply(QUEUE_LENGTH, old(samples), Fifo.Take)
    {
      var item := new Word[SAMPLE_WORDS](_ => Whole(0));
      found := sensorQueue.Count() > 0;
      if found {
        sensorQueue.TakeFirst(item);
        samples := SamplesIn(sensorQueue.Contents());
      }
      x := SampleIn(item[..]);
    }

    /** `queue_pop` from the telemetry queue, up to the wait if it is empty. */
    method PopFrame() returns (f: TelemetryFrame, found: bool)
      requires Valid()
      modifies this`frames, telemetryQueue
      ensures Valid()
      ensures Fifo.Outcome(frames, if found then Fifo.Taken(f) else Fifo.Nothing)
           == Fifo.Apply(QUEUE_LENGTH, old(frames), Fifo.Take)
    {
      var item := new Word[FRAME_WORDS](_ => Whole(0));
      found := telemetryQueue.Count() > 0;
      if found {
        telemetryQueue.TakeFirst(item);
        frames := FramesIn(telemetryQueue.Contents());
      }
      f := FrameIn(item[..]);
    }

    /** `queue_clear` of the sensor queue. */
    method ClearSamples()
      requires Valid()
      modifies this`samples, sensorQueue
      ensures Valid() && samples == []
    {
      sensorQueue.Clear();
      samples := [];
    }

    /** `queue_clear` of the telemetry queue. */
    method ClearFrames()
      requires Valid()
      modifies this`frames, telemetryQueue
      ensures Valid() && frames == []
    {
      telemetryQueue.Clear();
      frames := [];
    }

    /** `queue_count` of both queues. */
    function SampleCount(): (n: nat)
      requires Valid()
      reads this, sensorQueue, sensorQueue.storage, telemetryQueue, telemetryQueue.storage, lastBeat, beatInitialized
      ensures n == |samples|
    {
      sensorQueue.Count()
    }

    function FrameCount(): (n: nat)
      requires Valid()
      reads this, sensorQueue, sensorQueue.storage, telemetryQueue, telemetryQueue.storage, lastBeat, beatInitialized
      ensures n == |frames|
    {
      telemetryQueue.Count()
    }

    /** The two assignments of `prvBeat` for a watched task. */
    method Record(t: Watched, now: Timespec)
      requires Valid()
      modifies this`beats, lastBeat, beatInitialized
      ensures Valid() && beats == old(beats)[t := now]
    {
      BeatRecorded(lastBeat[..], beatInitialized[..], t, now);
      lastBeat[Index(t)] := now;
      beatInitialized[Index(t)] := true;
      beats := beats[t := now];
    }

    /** The watchdog's own `prvBeat`. */
    method RecordOwn(now: Timespec)
      requires Valid()
      modifies lastBeat, beatInitialized
      ensures Valid()
    {
      OwnBeatUnwatched(lastBeat[..], beatInitialized[..], now);
      lastBeat[3] := now;
      beatInitialized[3] := true;
    }

    /** The two `memset` calls of `prvClearBeats`. */
    method ForgetBeats()
      requires Valid()
      modifies this`beats, lastBeat, beatInitialized
      ensures Valid() && beats == map[]
    {
      var i := 0;
      while i < TASK_COUNT
        invariant 0 <= i <= TASK_COUNT
        invariant forall j :: 0 <= j < i ==> !beatInitialized[j]
      {
        beatInitialized[i] := false;
        lastBeat[i] := Timespec(0, 0);
        i := i + 1;
      }
      NoBeats(lastBeat[..], beatInitialized[..]);
      beats := map[];
    }

    /** The reading of `prvWarnIfOverdue`. */
    method FindBeat(t: Watched) returns (last: Timespec, found: bool)
      requires Valid()
      ensures found == (t in beats) && (found ==> last == beats[t])
    {
      found := beatInitialized[Index(t)];
      last := lastBeat[Index(t)];
    }
  }
}

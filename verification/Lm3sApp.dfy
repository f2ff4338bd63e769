/** The lm3s application as the source has it: the static state of its tasks, its
    queues, semaphores and event bits, updated in place in any order of turns. */
module Lm3sApp {
  import opened CTypes
  import opened Lm3sTasks
  import opened Heartbeat
  import Data = Lm3sData
  import Lm3sFlow

  class App {
    const sensing: Data.SensorTask
    const processing: Data.ProcessingTask
    const monitor: HealthMonitor
    var sensor: SensorPc
    var processor: ProcessorPc
    var output: OutputPc
    var kick: bool
    var ready: bool
    var samples: seq<Data.SensorData>
    var frames: seq<Data.TelemetryData>
    var fault: Data.Fault
    ghost var drops: nat
    ghost var lostGives: nat
    ghost var misses: nat
    ghost var accepted: seq<Data.SensorData>
    ghost var processed: seq<Data.SensorData>
    ghost var computed: seq<Data.TelemetryData>
    ghost var sent: seq<Data.TelemetryData>
    ghost var printed: seq<Data.TelemetryData>

    ghost predicate Valid()
      reads monitor, monitor.beatCount
    {
      monitor.Valid()
    }

    /** The objects whose fields make up the state. */
    ghost function Parts(): set<object> {
      {this, sensing, processing, monitor, monitor.beatCount}
    }

    /** The state of the machine this object is in. */
    ghost function View(): State
      reads this, sensing, processing, monitor
    {
      State(sensor, processor, output, kick, ready, samples, frames, fault, sensing.rng, processing.speedX10,
            drops, lostGives, misses, accepted, processed, computed, sent, printed, monitor.history)
    }

    constructor ()
      ensures Valid() && View() == INITIAL && fresh(Parts() - {this})
    {
      sensing := new Data.SensorTask();
      processing := new Data.ProcessingTask();
      monitor := new HealthMonitor();
      sensor, processor, output := AwaitKick, AwaitReady, AwaitFrame;
      kick, ready, samples, frames, fault := false, false, [], [], Data.NoFault;
      drops, lostGives, misses := 0, 0, 0;
      accepted, processed, computed, sent, printed := [], [], [], [], [];
    }

    // -------------------------------------------------------------- the sensor task

    method BuildSample(now: U32)
      requires Valid() && sensor.Build?
      modifies this, sensing
      ensures Valid() && View() == SensorNext(old(View()), now)
    {
      var data := sensing.Produce(fault, now);
      sensor := Send(data);
    }

    /** `xQueueSend` without waiting, then `xSemaphoreGive`. */
    method HandOver(ghost now: U32)
      requires sensor.Send? || sensor.Give?
      modifies this
      ensures View() == SensorNext(old(View()), now)
    {
      match sensor
      case Send(data) =>
        if |samples| < QUEUE_LENGTH {
          samples := samples + [data];
          accepted := accepted + [data];
        } else {
          drops := drops + 1;
        }
        sensor := Give;
      case Give =>
        lostGives := lostGives + One(ready);
        ready := true;
        sensor := SensorBeat;
    }

    method RunSensor(now: U32)
      requires Valid()
      modifies this, sensing, monitor
      ensures Valid() && View() == SensorNext(old(View()), now)
    {
      match sensor
      case AwaitKick =>
        if kick {
          kick := false;
          sensor := Build;
        }
      case Build =>
        BuildSample(now);
      case Send(_) =>
        HandOver(now);
      case Give =>
        HandOver(now);
      case SensorBeat =>
        sensor := AwaitKick;
        monitor.SetBit(SensorTask);
    }

    // -------------------------------------------------------------- the processing task

    method ProcessSample()
      requires Valid() && processor.Compute?
      modifies this, processing
      ensures Valid() && View() == ProcessorNext(old(View()))
    {
      var data := processor.data;
      var frame := processing.Process(data, fault);
      processed := processed + [data];
      computed := computed + [frame];
      processor := SendFrame(frame);
    }

    method RunProcessor()
      requires Valid()
      modifies this, processing, monitor
      ensures Valid() && View() == ProcessorNext(old(View()))
    {
      match processor
      case AwaitReady =>
        if ready {
          ready := false;
          processor := Receive;
        }
      case Receive =>
        if samples == [] {
          misses := misses + 1;
          processor := Missed;
        } else {
          processor := Compute(samples[0]);
          samples := samples[1..];
        }
      case Missed =>
        processor := AwaitReady;
        monitor.SetBit(ProcessorTask);
      case Compute(_) =>
        ProcessSample();
      case SendFrame(frame) =>
        if |frames| < QUEUE_LENGTH {
          frames := frames + [frame];
          sent := sent + [frame];
        }
        processor := ProcessorBeat;
      case ProcessorBeat =>
        processor := AwaitReady;
        monitor.SetBit(ProcessorTask);
    }

    // -------------------------------------------------------------- the telemetry task and the monitor

    method RunOutput()
      requires Valid()
      modifies this, monitor
      ensures Valid() && View() == OutputNext(old(View()))
    {
      match output
      case AwaitFrame =>
        if frames != [] {
          output := Print(frames[0]);
          frames := frames[1..];
        }
      case Print(frame) =>
        printed := printed + [frame];
        output := OutputBeat;
      case OutputBeat =>
        output := AwaitFrame;
        monitor.SetBit(OutputTask);
    }

    method Step(e: Event)
      requires Valid()
      modifies Parts()
      ensures Valid() && View() == Next(old(View()), e)
    {
      match e
      case TimerFires => kick := true;
      case SetFault(f) => fault := f;
      case SensorStep(now) => RunSensor(now);
      case ProcessorStep => RunProcessor();
      case OutputStep => RunOutput();
      case MonitorStep => monitor.Pass();
    }
  }

  /** A whole run of the application: it ends in the state of the machine, so all
      that holds of the machine's runs holds of the object. */
  method Simulate(schedule: seq<Event>) returns (app: App)
    ensures fresh(app) && app.Valid() && app.View() == Run(schedule)
    ensures Handshake(app.View()) && DataInRange(app.View()) && BeatsFollowWork(app.View())
    ensures Lm3sFlow.InLine(app.View()) && Lm3sFlow.Frames(app.View())
  {
    app := new App();
    for i := 0 to |schedule|
      invariant fresh(app.Parts()) && app.Valid()
      invariant app.View() == Run(schedule[..i])
    {
      assert schedule[..i + 1][..i] == schedule[..i];
      app.Step(schedule[i]);
    }
    assert schedule[..|schedule|] == schedule;
    HandshakeHolds(schedule);
    DataStaysInRange(schedule);
    BeatsCountWork(schedule);
    Lm3sFlow.FlowHolds(schedule);
  }
}

/** Why `ecu_stop` returns: once the stop flag is set, every worker thread ends
    within a bounded number of its own steps, and so does the clearing of the
    queues. */
module HostStop {
  import opened CTypes
  import opened HostTime
  import opened HostModel
  import opened HostFrames
  import opened HostCounts

  // ---------------------------------------------------------------- steps left to each thread

  function SensorRank(pc: SensorPc): nat {
    match pc
    case SDone => 0
    case SLoop => 1
    case SBeatHeld => 2
    case SBeatWait => 3
    case SBurst(_) => 4
    case SDropHeld(_) => 5
    case SDropWait(_) => 6
    case SCountLeave(_) => 5
    case SDepth2Held(_) => 6
    case SDepth2Wait(_) => 7
    case SDepthHeld(_) => 8
    case SDepthWait(_) => 9
    case SCountHeld(_) => 10
    case SCountWait(_) => 11
    case SPushHeld(_, _) => 12
    case SPushWait(_, _) => 13
    case SMakeHeld(_, _, _) => 14
    case SMakeWait(_, _, _) => 15
    case SStore(_, _) => 16
    case SLoad(_) => 17
    case SLogHeld => 18
    case SLogWait => 19
    case SChoose(_) => 20
    case SModeHeld => 21
    case SModeWait => 22
  }

  /** A pop that will find an item is nearer its end than one that will sleep. */
  function PopRank(held: bool, full: bool): nat {
    (if held then 0 else 1) + (if full then 0 else 3)
  }

  function ProcessorRank(pc: ProcessorPc, full: bool): nat {
    match pc
    case PDone => 0
    case PLoop => 1
    case PBeatHeld => 2
    case PBeatWait => 3
    case PTimedOut => 4
    case PDropHeld => 4
    case PDropWait => 5
    case PCountLeave => 4
    case PDepth2Held => 5
    case PDepth2Wait => 6
    case PDepthHeld => 7
    case PDepthWait => 8
    case PCountHeld => 9
    case PCountWait => 10
    case PPushHeld(_) => 11
    case PPushWait(_) => 12
    case PProcess(_) => 13
    case PLogHeld(_) => 14
    case PLogWait(_) => 15
    case PModeHeld(_) => 16
    case PModeWait(_) => 17
    case PPopHeld => 18 + PopRank(true, full)
    case PPopWait => 18 + PopRank(false, full)
    case PWakeWait(late) => if late then 5 else 18 + PopRank(false, full)
    case PAsleep => 20
  }

  function LoggerRank(pc: LoggerPc, full: bool): nat {
    match pc
    case LDone => 0
    case LLoop => 1
    case LBeatHeld => 2
    case LBeatWait => 3
    case LTimedOut => 4
    case LPrintHeld(_) => 4
    case LPrintWait(_) => 5
    case LPopHeld => 6 + PopRank(true, full)
    case LPopWait => 6 + PopRank(false, full)
    case LWakeWait(late) => if late then 5 else 6 + PopRank(false, full)
    case LAsleep => 8
  }

  /** The steps after the check of a task. */
  function AfterRank(t: Watched): nat {
    match t
    case WatchedLogger => 3
    case WatchedProcessor => 10
    case WatchedSensor => 17
  }

  function WatchdogRank(pc: WatchdogPc): nat {
    match pc
    case WDone => 0
    case WLoop => 1
    case WBeatHeld => 2
    case WBeatWait => 3
    case WLogHeld(t, _, _) => AfterRank(t) + 1
    case WLogWait(t, _, _) => AfterRank(t) + 2
    case WWarnHeld(t, _, _) => AfterRank(t) + 3
    case WWarnWait(t, _, _) => AfterRank(t) + 4
    case WCompare(t, _) => AfterRank(t) + 5
    case WCheckHeld(t) => AfterRank(t) + 6
    case WCheckWait(t) => AfterRank(t) + 7
  }

  /** The steps of `ecu_stop` before its joins. */
  function ControlRank(pc: ControlPc): nat {
    match pc
    case CClearWait(_) => 4
    case CClearHeld(_) => 3
    case CClear2Wait(_) => 2
    case CClear2Held(_) => 1
    case _ => 0
  }

  /** A clearing still to come can send a pop back to sleep once. */
  function Rank(s: State, t: Thread): nat {
    match t
    case SensorThread => SensorRank(s.sensor)
    case ProcessorThread =>
      if s.processor.PDone? then 0
      else ProcessorRank(s.processor, s.samples != []) + if ControlRank(s.control) >= 3 then 3 else 0
    case LoggerThread =>
      if s.logger.LDone? then 0
      else LoggerRank(s.logger, s.frames != []) + if ControlRank(s.control) >= 1 then 3 else 0
    case WatchdogThread => WatchdogRank(s.watchdog)
    case ControlThread => ControlRank(s.control)
  }

  const MOST_STEPS := 25

  lemma RankBounded(s: State, t: Thread)
    ensures Rank(s, t) <= MOST_STEPS
  {
  }

  // ---------------------------------------------------------------- every step counts

  /** A wait on an empty queue ends by its timeout. */
  predicate EmptyWaitEnds(s: State, e: Event) {
    && (e.ProcessorStep? && s.processor.PAsleep? && s.samples == [] ==> e.timedOut)
    && (e.LoggerStep? && s.logger.LAsleep? && s.frames == [] ==> e.timedOut)
  }

  /** The thread is nearer its end, unless it was there already, and no other is
      further away. */
  predicate Nearer(s: State, n: State, me: Thread) {
    && (Rank(n, me) < Rank(s, me) || Rank(n, me) == Rank(s, me) == 0)
    && (me != SensorThread ==> Rank(n, SensorThread) <= Rank(s, SensorThread))
    && (me != ProcessorThread ==> Rank(n, ProcessorThread) <= Rank(s, ProcessorThread))
    && (me != LoggerThread ==> Rank(n, LoggerThread) <= Rank(s, LoggerThread))
    && (me != WatchdogThread ==> Rank(n, WatchdogThread) <= Rank(s, WatchdogThread))
    && (me != ControlThread ==> Rank(n, ControlThread) <= Rank(s, ControlThread))
  }

  lemma SensorNearer(m: Maths, s: State, now: Timespec)
    requires s.stop && SensorWants(s.sensor) == Nothing
    ensures Nearer(s, SensorWork(m, s, now), SensorThread)
  {
    SensorFrame(m, s, now);
    SensorMoves(m, s, now);
    SensorFills(m, s, now);
  }

  lemma SensorMoves(m: Maths, s: State, now: Timespec)
    requires s.stop && SensorWants(s.sensor) == Nothing
    ensures s.sensor.SDone? ==> SensorWork(m, s, now).sensor == s.sensor
    ensures !s.sensor.SDone? ==> SensorRank(SensorWork(m, s, now).sensor) < SensorRank(s.sensor)
  {
    SamplingMoves(m, s, now);
  }

  lemma SamplingMoves(m: Maths, s: State, now: Timespec)
    requires s.stop && SensorWants(s.sensor) == Nothing
    ensures s.sensor.SLoad? || s.sensor.SStore? || s.sensor.SMakeHeld? || s.sensor.SPushHeld? ==>
      SensorRank(SensorSampling(m, s, now).sensor) < SensorRank(s.sensor)
    ensures s.sensor.SDone? ==> SensorSampling(m, s, now).sensor == s.sensor
    ensures Tallying(s.sensor) ==> SensorRank(SensorSampling(m, s, now).sensor) < SensorRank(s.sensor)
  {
    TallyMoves(s);
  }

  /** The sensor is counting a sample or a drop. */
  predicate Tallying(pc: SensorPc) {
    pc.SDropHeld? || pc.SCountHeld? || pc.SDepthHeld? || pc.SDepth2Held? || pc.SCountLeave?
  }

  lemma TallyMoves(s: State)
    ensures s.sensor.SDone? ==> SensorTally(s).sensor == s.sensor
    ensures Tallying(s.sensor) ==> SensorRank(SensorTally(s).sensor) < SensorRank(s.sensor)
  {
  }

  /** The sensor never empties its queue. */
  lemma SensorFills(m: Maths, s: State, now: Timespec)
    ensures s.samples != [] ==> SensorWork(m, s, now).samples != []
  {
    SensorTallyFrame(s);
  }

  lemma ProcessorNearer(m: Maths, s: State, now: Timespec, late: bool)
    requires s.stop && ProcessorWants(s.processor) == Nothing
    requires s.processor.PAsleep? && s.samples == [] ==> late
    ensures Nearer(s, ProcessorWork(m, s, now, late), ProcessorThread)
  {
    ProcessorFrame(m, s, now, late);
    ProcessorMovesOn(m, s, now, late);
    ProcessorFills(m, s, now, late);
  }

  lemma ProcessorMovesOn(m: Maths, s: State, now: Timespec, late: bool)
    requires s.stop && ProcessorWants(s.processor) == Nothing
    requires s.processor.PAsleep? && s.samples == [] ==> late
    ensures var n := ProcessorWork(m, s, now, late);
      if s.processor.PDone? then n.processor.PDone?
      else ProcessorRank(n.processor, n.samples != []) < ProcessorRank(s.processor, s.samples != [])
  {
    if !Popping(s.processor) {
      HandlingMovesOn(m, s, now);
    }
  }

  /** The processor is before the handling of a sample. */
  predicate Popping(pc: ProcessorPc) {
    pc.PBeatHeld? || pc.PLoop? || pc.PPopHeld? || pc.PAsleep? || pc.PTimedOut?
  }

  lemma HandlingMovesOn(m: Maths, s: State, now: Timespec)
    requires ProcessorWants(s.processor) == Nothing && !Popping(s.processor)
    ensures var n := ProcessorHandling(m, s, now);
      if s.processor.PDone? then n.processor.PDone?
      else forall full, empty :: ProcessorRank(n.processor, full) < ProcessorRank(s.processor, empty)
  {
    ProcessorTallyPath(s);
  }

  /** The processor never empties the telemetry queue. */
  lemma ProcessorFills(m: Maths, s: State, now: Timespec, late: bool)
    ensures s.frames != [] ==> ProcessorWork(m, s, now, late).frames != []
  {
    ProcessorTallyFrame(s);
  }

  lemma LoggerNearer(s: State, now: Timespec, late: bool)
    requires s.stop && LoggerWants(s.logger) == Nothing
    requires s.logger.LAsleep? && s.frames == [] ==> late
    ensures Nearer(s, LoggerWork(s, now, late), LoggerThread)
  {
    LoggerFrame(s, now, late);
  }

  lemma WatchdogNearer(s: State, now: Timespec)
    requires s.stop && WatchdogWants(s.watchdog) == Nothing
    ensures Nearer(s, WatchdogWork(s, now), WatchdogThread)
  {
    WatchdogFrame(s, now);
  }

  /** After a stop only `ecu_stop` itself can be under way. */
  lemma ControlNearer(s: State, command: Command)
    requires s.stop && FreshLaw(s) && ControlWants(s.control) == Nothing
    ensures Nearer(s, ControlWork(s, command), ControlThread)
  {
    assert Stopping(s.control);
    assert ControlWork(s, command) == ControlClear(s);
    ClearNearer(s);
  }

  lemma ClearNearer(s: State)
    requires Stopping(s.control) && ControlWants(s.control) == Nothing
    ensures Nearer(s, ControlClear(s), ControlThread)
  {
  }

  lemma GrantNearer(s: State, t: Thread, l: Lock)
    requires s.stop && FreshLaw(s) && WantedBy(s, t) == Wants(l)
    ensures Nearer(s, Grant(s, t, l), t)
  {
    GrantFrame(s, t, l);
    match t
    case SensorThread => SensorGrantNearer(s.sensor);
    case ProcessorThread => ProcessorGrantNearer(s.processor, s.samples != []);
    case LoggerThread => LoggerGrantNearer(s.logger, s.frames != []);
    case WatchdogThread => WatchdogGrantNearer(s.watchdog);
    case ControlThread => ControlGrantNearer(s, l);
  }

  lemma SensorGrantNearer(pc: SensorPc)
    requires SensorWants(pc).Wants?
    ensures SensorRank(SensorGranted(pc)) < SensorRank(pc)
  {
  }

  lemma ProcessorGrantNearer(pc: ProcessorPc, full: bool)
    requires ProcessorWants(pc).Wants?
    ensures ProcessorRank(ProcessorGranted(pc), full) < ProcessorRank(pc, full)
  {
  }

  lemma LoggerGrantNearer(pc: LoggerPc, full: bool)
    requires LoggerWants(pc).Wants?
    ensures LoggerRank(LoggerGranted(pc), full) < LoggerRank(pc, full)
  {
  }

  lemma WatchdogGrantNearer(pc: WatchdogPc)
    requires WatchdogWants(pc).Wants?
    ensures WatchdogRank(WatchdogGranted(pc)) < WatchdogRank(pc)
  {
  }

  lemma ControlGrantNearer(s: State, l: Lock)
    requires s.stop && FreshLaw(s) && ControlWants(s.control) == Wants(l)
    ensures ControlRank(ControlGranted(s.control)) < ControlRank(s.control)
  {
    assert Stopping(s.control);
  }

  lemma StopStays(m: Maths, s: State, e: Event)
    requires s.stop && FreshLaw(s)
    ensures Next(m, s, e).stop
  {
    match WantedBy(s, Mover(e))
    case Wants(l) => GrantFrame(s, Mover(e), l);
    case Nothing =>
      match e
      case SensorStep(now) => SensorFrame(m, s, now);
      case ProcessorStep(now, late) => ProcessorFrame(m, s, now, late);
      case LoggerStep(now, late) => LoggerFrame(s, now, late);
      case WatchdogStep(now) => WatchdogFrame(s, now);
      case ControlStep(command) =>
        assert ControlWork(s, command) == ControlClear(s);
  }

  lemma StepNearer(m: Maths, s: State, e: Event)
    requires s.stop && FreshLaw(s) && EmptyWaitEnds(s, e) && !Blocked(s, Mover(e))
    ensures Nearer(s, Next(m, s, e), Mover(e))
  {
    match WantedBy(s, Mover(e))
    case Wants(l) => GrantNearer(s, Mover(e), l);
    case Nothing =>
      match e
      case SensorStep(now) => SensorNearer(m, s, now);
      case ProcessorStep(now, late) => ProcessorNearer(m, s, now, late);
      case LoggerStep(now, late) => LoggerNearer(s, now, late);
      case WatchdogStep(now) => WatchdogNearer(s, now);
      case ControlStep(command) => ControlNearer(s, command);
  }

  lemma OneStepNearer(m: Maths, s: State, e: Event, t: Thread)
    requires s.stop && FreshLaw(s) && EmptyWaitEnds(s, e)
    ensures var n := Next(m, s, e);
      && n.stop
      && Rank(n, t) <= Rank(s, t)
      && (Rank(n, t) == 0 || Rank(n, t) + One(Mover(e) == t && !Blocked(s, t)) <= Rank(s, t))
  {
    StopStays(m, s, e);
    if Blocked(s, Mover(e)) {
      assert Next(m, s, e) == s;
    } else {
      StepNearer(m, s, e);
    }
  }

  // ---------------------------------------------------------------- the end

  /** How many steps the thread takes in a continuation of a run; a step at which
      it is blocked is none. */
  function Moves(m: Maths, es: seq<Event>, more: seq<Event>, t: Thread): nat {
    if more == [] then 0
    else
      var n := |more| - 1;
      Moves(m, es, more[..n], t)
      + One(Mover(more[n]) == t && !Blocked(Run(m, es + more[..n]), t))
  }

  /** In the continuation every wait on an empty queue ends by its timeout. */
  ghost predicate EmptyWaitsEnd(m: Maths, es: seq<Event>, more: seq<Event>) {
    forall i :: 0 <= i < |more| ==> EmptyWaitEnds(Run(m, es + more[..i]), more[i])
  }

  lemma RunExtends(m: Maths, es: seq<Event>, more: seq<Event>)
    requires more != []
    ensures Run(m, es + more) == Next(m, Run(m, es + more[..|more| - 1]), more[|more| - 1])
  {
    assert (es + more)[..|es + more| - 1] == es + more[..|more| - 1];
  }

  /** Once the stop flag is set, each step a thread takes brings it nearer its end. */
  lemma {:induction false} RankFalls(m: Maths, es: seq<Event>, more: seq<Event>, t: Thread)
    requires Run(m, es).stop && EmptyWaitsEnd(m, es, more)
    ensures Run(m, es + more).stop
    ensures Rank(Run(m, es + more), t) == 0
      || Rank(Run(m, es + more), t) + Moves(m, es, more, t) <= Rank(Run(m, es), t)
    decreases |more|
  {
    if more == [] {
      assert es + more == es;
    } else {
      var n := |more| - 1;
      var s := Run(m, es + more[..n]);
      forall i | 0 <= i < n
        ensures EmptyWaitEnds(Run(m, es + more[..n][..i]), more[..n][i])
      {
        assert more[..n][..i] == more[..i];
      }
      RankFalls(m, es, more[..n], t);
      RunExtends(m, es, more);
      CountsHold(m, es + more[..n]);
      OneStepNearer(m, s, more[n], t);
    }
  }

  predicate Done(s: State, t: Thread) {
    match t
    case SensorThread => s.sensor.SDone?
    case ProcessorThread => s.processor.PDone?
    case LoggerThread => s.logger.LDone?
    case WatchdogThread => s.watchdog.WDone?
    case ControlThread => s.control.CJoin? || s.control.CStopped?
  }

  lemma DoneAtZero(s: State, t: Thread)
    requires s.stop && FreshLaw(s)
    ensures Rank(s, t) == 0 <==> Done(s, t)
  {
  }

  /** After the stop flag is set a worker has ended once it has taken 25 steps, and
      `ecu_stop` has come to its joins once it has taken 25 of its own, whatever
      the others do, if only waits on an empty queue end by their timeout. */
  lemma ThreadEnds(m: Maths, es: seq<Event>, more: seq<Event>, t: Thread)
    requires Run(m, es).stop && EmptyWaitsEnd(m, es, more)
    requires Moves(m, es, more, t) >= MOST_STEPS
    ensures Done(Run(m, es + more), t)
  {
    RankFalls(m, es, more, t);
    RankBounded(Run(m, es), t);
    CountsHold(m, es + more);
    DoneAtZero(Run(m, es + more), t);
  }

  lemma JoinReturns(m: Maths, s: State, command: Command)
    requires AllDone(s) && Done(s, ControlThread)
    ensures Next(m, s, ControlStep(command)).control.CStopped?
  {
    assert ControlWants(s.control) == Nothing;
    assert ControlWork(s, command) == ControlClear(s);
  }

  /** So the joins end: when all have taken their steps, the next one of the
      stopping thread returns from `ecu_stop`. */
  lemma StopReturns(m: Maths, es: seq<Event>, more: seq<Event>, command: Command)
    requires Run(m, es).stop && EmptyWaitsEnd(m, es, more)
    requires forall t: Thread :: Moves(m, es, more, t) >= MOST_STEPS
    ensures Run(m, es + more + [ControlStep(command)]).control.CStopped?
  {
    var s := Run(m, es + more);
    forall t: Thread
      ensures Done(s, t)
    {
      ThreadEnds(m, es, more, t);
    }
    assert Done(s, SensorThread) && Done(s, ProcessorThread) && Done(s, LoggerThread) && Done(s, WatchdogThread);
    assert Done(s, ControlThread);
    assert (es + more + [ControlStep(command)])[..|es + more|] == es + more;
    JoinReturns(m, s, command);
  }
}

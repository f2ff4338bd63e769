/** The rounds of the host's watchdog: it looks at the sensor, the processor and the
    logger, in that order, finds the heartbeat each recorded last, and counts a
    warning for those that are too old. */
module HostLooks {
  import opened CTypes
  import opened HostTime
  import opened HostModel
  import opened HostFrames
  import opened HostRounds
  import HostWatchdog

  // ---------------------------------------------------------------- the heartbeat a look finds

  predicate Recording(s: State, t: Watched) {
    match t
    case WatchedSensor => s.sensor.SBeatHeld?
    case WatchedProcessor => s.processor.PBeatHeld?
    case WatchedLogger => s.logger.LBeatHeld?
  }

  /** When the task last reported in, unless a reset has forgotten it since. */
  ghost function LastBeat(m: Maths, es: seq<Event>, t: Watched): Option<Timespec> {
    if es == [] then None
    else
      var front, e := es[..|es| - 1], es[|es| - 1];
      var s := Run(m, front);
      if Mover(e) == ThreadOf(t) && Recording(s, t) then Some(e.now)
      else if e.ControlStep? && s.control.CBeatsHeld? then None
      else LastBeat(m, front, t)
  }

  ghost predicate Remembers(beats: map<Watched, Timespec>, t: Watched, last: Option<Timespec>) {
    if last.None? then t !in beats else t in beats && beats[t] == last.value
  }

  /** The heartbeats after a worker's step. */
  function BeatsAfter(s: State, u: Watched, now: Timespec): map<Watched, Timespec> {
    if Recording(s, u) then s.beats[u := now] else s.beats
  }

  lemma SensorBeatsAfter(m: Maths, s: State, now: Timespec)
    ensures SensorWork(m, s, now).beats == BeatsAfter(s, WatchedSensor, now)
  {
    SamplingKeepsBeats(m, s, now);
  }

  lemma SamplingKeepsBeats(m: Maths, s: State, now: Timespec)
    ensures SensorSampling(m, s, now).beats == s.beats
  {
    TalliesKeepBeats(s);
  }

  lemma TalliesKeepBeats(s: State)
    ensures SensorTally(s).beats == s.beats && ProcessorTally(s).beats == s.beats
  {
  }

  lemma ProcessorBeatsAfter(m: Maths, s: State, now: Timespec, late: bool)
    ensures ProcessorWork(m, s, now, late).beats == BeatsAfter(s, WatchedProcessor, now)
  {
    HandlingKeepsBeats(m, s, now);
  }

  lemma HandlingKeepsBeats(m: Maths, s: State, now: Timespec)
    ensures ProcessorHandling(m, s, now).beats == s.beats
  {
    TalliesKeepBeats(s);
  }

  lemma LoggerBeatsAfter(s: State, now: Timespec, late: bool)
    ensures LoggerWork(s, now, late).beats == BeatsAfter(s, WatchedLogger, now)
  {
  }

  lemma ControlBeatsAfter(s: State, command: Command)
    ensures ControlWork(s, command).beats == if s.control.CBeatsHeld? then map[] else s.beats
  {
    SnapshotBeatsAfter(s);
  }

  lemma SnapshotBeatsAfter(s: State)
    ensures ControlSnapshot(s).beats == if s.control.CBeatsHeld? then map[] else s.beats
  {
    ResetBeatsAfter(s);
  }

  lemma ResetBeatsAfter(s: State)
    ensures ControlReset(s).beats == if s.control.CBeatsHeld? then map[] else s.beats
  {
    ClearBeatsAfter(s);
  }

  lemma ClearBeatsAfter(s: State)
    ensures ControlClear(s).beats == if s.control.CBeatsHeld? then map[] else s.beats
  {
  }

  lemma WorkBeatsAfter(m: Maths, s: State, e: Event)
    ensures Work(m, s, e).beats ==
      match e
      case SensorStep(now) => BeatsAfter(s, WatchedSensor, now)
      case ProcessorStep(now, _) => BeatsAfter(s, WatchedProcessor, now)
      case LoggerStep(now, _) => BeatsAfter(s, WatchedLogger, now)
      case WatchdogStep(_) => s.beats
      case ControlStep(_) => if s.control.CBeatsHeld? then map[] else s.beats
  {
    match e
    case SensorStep(now) => SensorBeatsAfter(m, s, now);
    case ProcessorStep(now, late) => ProcessorBeatsAfter(m, s, now, late);
    case LoggerStep(now, late) => LoggerBeatsAfter(s, now, late);
    case WatchdogStep(now) => WatchdogFrame(s, now);
    case ControlStep(command) => ControlBeatsAfter(s, command);
  }

  lemma GrantBeatsAfter(s: State, t: Thread, l: Lock)
    requires WantedBy(s, t) == Wants(l)
    ensures forall u :: ThreadOf(u) == t ==> !Recording(s, u)
    ensures t == ControlThread ==> !s.control.CBeatsHeld?
  {
  }

  /** In every run the watchdog would find of each task what it recorded last, or
      nothing if it has recorded nothing since the last reset. */
  lemma {:induction false} BeatsAreLast(m: Maths, es: seq<Event>, t: Watched)
    ensures Remembers(Run(m, es).beats, t, LastBeat(m, es, t))
    decreases |es|
  {
    if es != [] {
      var front, e := es[..|es| - 1], es[|es| - 1];
      var s := Run(m, front);
      BeatsAreLast(m, front, t);
      match WantedBy(s, Mover(e))
      case Wants(l) =>
        GrantFrame(s, Mover(e), l);
        GrantBeatsAfter(s, Mover(e), l);
      case Nothing => WorkBeatsAfter(m, s, e);
    }
  }

  // ---------------------------------------------------------------- rounds of looks

  /** What a look came to: no heartbeat on record, or one and the time it was
      compared with. */
  datatype Look = Absent(task: Watched) | Present(task: Watched, last: Timespec, seen: Timespec)

  function LookDone(s: State, e: Event): seq<Look> {
    if !e.WatchdogStep? then []
    else
      match s.watchdog
      case WCheckHeld(t) => if t in s.beats then [] else [Absent(t)]
      case WCompare(t, last) => [Present(t, last, e.now)]
      case _ => []
  }

  /** The watchdog's test of the stop flag. */
  function WatchTest(s: State, e: Event): seq<bool> {
    if e.WatchdogStep? && s.watchdog.WLoop? then [s.stop] else []
  }

  function Turn(i: nat): Watched {
    if i % 3 == 0 then WatchedSensor else if i % 3 == 1 then WatchedProcessor else WatchedLogger
  }

  function Place(t: Watched): nat {
    match t
    case WatchedSensor => 0
    case WatchedProcessor => 1
    case WatchedLogger => 2
  }

  /** The looks the round under way has still to make. */
  function LooksLeft(pc: WatchdogPc): nat {
    match pc
    case WCheckWait(t) => 3 - Place(t)
    case WCheckHeld(t) => 3 - Place(t)
    case WCompare(t, _) => 3 - Place(t)
    case WWarnWait(t, _, _) => 2 - Place(t)
    case WWarnHeld(t, _, _) => 2 - Place(t)
    case WLogWait(t, _, _) => 2 - Place(t)
    case WLogHeld(t, _, _) => 2 - Place(t)
    case _ => 0
  }

  function ChecksIn(looks: seq<Look>): seq<Check> {
    if looks == [] then []
    else
      var l := looks[|looks| - 1];
      ChecksIn(looks[..|looks| - 1]) + if l.Present? then [Check(l.task, l.last, l.seen)] else []
  }

  lemma ChecksSnoc(looks: seq<Look>, l: Look)
    ensures ChecksIn(looks + [l]) == ChecksIn(looks) + if l.Present? then [Check(l.task, l.last, l.seen)] else []
  {
    assert (looks + [l])[..|looks|] == looks;
  }

  /** The looks go round the three tasks in order, three in each round begun; those
      that found a heartbeat are the checks made. */
  ghost predicate LooksLaw(s: State, tests: seq<bool>, looks: seq<Look>) {
    && 3 * Begun(tests) == |looks| + LooksLeft(s.watchdog)
    && (forall i :: 0 <= i < |looks| ==> looks[i].task == Turn(i))
    && s.watch.checks == ChecksIn(looks)
  }

  lemma OthersLeaveWatchdog(m: Maths, s: State, e: Event)
    requires Mover(e) != WatchdogThread
    ensures Next(m, s, e).watchdog == s.watchdog && Next(m, s, e).watch.checks == s.watch.checks
  {
    match WantedBy(s, Mover(e))
    case Wants(l) => GrantFrame(s, Mover(e), l);
    case Nothing =>
      match e
      case SensorStep(now) => SensorFrame(m, s, now);
      case ProcessorStep(now, late) => ProcessorFrame(m, s, now, late);
      case LoggerStep(now, late) => LoggerFrame(s, now, late);
      case ControlStep(command) => ControlSpares(s, command);
  }

  lemma TurnAt(r: nat, t: Watched)
    ensures Turn(3 * r + Place(t)) == t
  {
  }

  /** One more look at the task whose turn it is. */
  lemma LookJoins(s: State, n: State, tests: seq<bool>, looks: seq<Look>, l: Look)
    requires LooksLaw(s, tests, looks)
    requires LooksLeft(s.watchdog) == 3 - Place(l.task) && LooksLeft(n.watchdog) == 2 - Place(l.task)
    requires n.watch.checks == s.watch.checks + if l.Present? then [Check(l.task, l.last, l.seen)] else []
    ensures LooksLaw(n, tests, looks + [l])
  {
    ChecksSnoc(looks, l);
    TurnAt(Begun(tests) - 1, l.task);
  }

  lemma AfterLook(t: Watched)
    ensures LooksLeft(AfterCheck(t)) == 2 - Place(t)
  {
  }

  lemma ComparedJoins(s: State, now: Timespec, tests: seq<bool>, looks: seq<Look>)
    requires LooksLaw(s, tests, looks) && s.watchdog.WCompare?
    ensures LooksLaw(WatchdogWork(s, now), tests, looks + [Present(s.watchdog.t, s.watchdog.last, now)])
  {
    AfterLook(s.watchdog.t);
    LookJoins(s, WatchdogWork(s, now), tests, looks, Present(s.watchdog.t, s.watchdog.last, now));
  }

  lemma WatchdogLooks(s: State, now: Timespec, tests: seq<bool>, looks: seq<Look>)
    requires LooksLaw(s, tests, looks) && WatchdogWants(s.watchdog) == Nothing
    ensures var e := WatchdogStep(now);
      LooksLaw(WatchdogWork(s, now), tests + WatchTest(s, e), looks + LookDone(s, e))
  {
    var e := WatchdogStep(now);
    assert looks + [] == looks && tests + [] == tests;
    match s.watchdog
    case WLoop => BegunSnoc(tests, s.stop);
    case WCheckHeld(t) =>
      if t !in s.beats {
        AfterLook(t);
        LookJoins(s, WatchdogWork(s, now), tests, looks, Absent(t));
      }
    case WCompare(t, last) => ComparedJoins(s, now, tests, looks);
    case WLogHeld(t, _, _) => AfterLook(t);
    case _ =>
  }

  lemma LooksStep(m: Maths, s: State, e: Event, tests: seq<bool>, looks: seq<Look>)
    requires LooksLaw(s, tests, looks)
    ensures LooksLaw(Next(m, s, e), tests + WatchTest(s, e), looks + LookDone(s, e))
  {
    assert looks + [] == looks && tests + [] == tests;
    if e.WatchdogStep? {
      match WantedBy(s, WatchdogThread)
      case Wants(l) => GrantFrame(s, WatchdogThread, l);
      case Nothing => WatchdogLooks(s, e.now, tests, looks);
    } else {
      OthersLeaveWatchdog(m, s, e);
    }
  }

  lemma {:induction false} LooksHold(m: Maths, es: seq<Event>)
    ensures LooksLaw(Run(m, es), Trace(m, es, WatchTest), Trace(m, es, LookDone))
    decreases |es|
  {
    if es != [] {
      var front := es[..|es| - 1];
      LooksHold(m, front);
      LooksStep(m, Run(m, front), es[|es| - 1], Trace(m, front, WatchTest), Trace(m, front, LookDone));
    }
  }

  lemma InTurn(looks: seq<Look>, r: nat)
    requires forall i :: 0 <= i < |looks| ==> looks[i].task == Turn(i)
    requires 3 * r + 3 <= |looks|
    ensures looks[3 * r].task == WatchedSensor
    ensures looks[3 * r + 1].task == WatchedProcessor
    ensures looks[3 * r + 2].task == WatchedLogger
  {
    TurnAt(r, WatchedSensor);
    TurnAt(r, WatchedProcessor);
    TurnAt(r, WatchedLogger);
  }

  /** Whenever the watchdog is about to report in itself, each of the rounds it has
      begun has looked once at the sensor, then at the processor, then at the
      logger. */
  lemma RoundsAreComplete(m: Maths, es: seq<Event>, r: nat)
    requires Run(m, es).watchdog.WBeatWait? || Run(m, es).watchdog.WLoop? || Run(m, es).watchdog.WDone?
    ensures var looks, rounds := Trace(m, es, LookDone), Begun(Trace(m, es, WatchTest));
      && |looks| == 3 * rounds
      && (r < rounds ==>
            && looks[3 * r].task == WatchedSensor
            && looks[3 * r + 1].task == WatchedProcessor
            && looks[3 * r + 2].task == WatchedLogger)
  {
    LooksHold(m, es);
    if r < Begun(Trace(m, es, WatchTest)) {
      InTurn(Trace(m, es, LookDone), r);
    }
  }

  lemma RunOneMore(m: Maths, es: seq<Event>, e: Event)
    ensures Run(m, es + [e]) == Next(m, Run(m, es), e)
    ensures Trace(m, es + [e], LookDone) == Trace(m, es, LookDone) + LookDone(Run(m, es), e)
  {
    assert (es + [e])[..|es|] == es;
  }

  /** A look at a task compares the heartbeat it recorded last, and comes to nothing
      exactly when there is none since the last reset. */
  lemma LookFindsLastBeat(m: Maths, es: seq<Event>, now: Timespec)
    requires Run(m, es).watchdog.WCheckHeld?
    ensures var t, more := Run(m, es).watchdog.t, es + [WatchdogStep(now)];
      match LastBeat(m, es, t)
      case None => Trace(m, more, LookDone) == Trace(m, es, LookDone) + [Absent(t)]
      case Some(last) => Run(m, more).watchdog == WCompare(t, last)
  {
    BeatsAreLast(m, es, Run(m, es).watchdog.t);
    RunOneMore(m, es, WatchdogStep(now));
  }

  // ---------------------------------------------------------------- late rounds

  /** A look at the task that found it this many milliseconds old, or older. */
  function AtLeast(t: Watched, ms: int): Look -> bool {
    (l: Look) => l.task == t && l.Present? && Nanos(l.seen) - Nanos(l.last) >= ms * 1_000_000
  }

  function MoreThan(t: Watched, ms: int): Look -> bool {
    (l: Look) => l.task == t && l.Present? && Nanos(l.seen) - Nanos(l.last) > ms * 1_000_000
  }

  /** One look is late for at most its own task, as its check is. */
  lemma LateLookIsCheck(l: Look)
    ensures One(AtLeast(WatchedSensor, 901)(l)) + One(AtLeast(WatchedProcessor, 901)(l))
          + One(AtLeast(WatchedLogger, 1201)(l))
         == One(l.Present? && HostWatchdog.MillisecondLate(Check(l.task, l.last, l.seen)))
    ensures One(MoreThan(WatchedSensor, 900)(l)) + One(MoreThan(WatchedProcessor, 900)(l))
          + One(MoreThan(WatchedLogger, 1200)(l))
         == One(l.Present? && HostWatchdog.Late(Check(l.task, l.last, l.seen)))
  {
  }

  lemma {:induction false} LateLooksAreChecks(looks: seq<Look>)
    ensures CountIn(looks, AtLeast(WatchedSensor, 901)) + CountIn(looks, AtLeast(WatchedProcessor, 901))
          + CountIn(looks, AtLeast(WatchedLogger, 1201))
         == CountOf(ChecksIn(looks), HostWatchdog.MillisecondLate)
    ensures CountIn(looks, MoreThan(WatchedSensor, 900)) + CountIn(looks, MoreThan(WatchedProcessor, 900))
          + CountIn(looks, MoreThan(WatchedLogger, 1200))
         == CountOf(ChecksIn(looks), HostWatchdog.Late)
    decreases |looks|
  {
    if looks != [] {
      var front, l := looks[..|looks| - 1], looks[|looks| - 1];
      LateLooksAreChecks(front);
      LateLookIsCheck(l);
      if l.Present? {
        HostWatchdog.CountOneMore(ChecksIn(front), Check(l.task, l.last, l.seen), HostWatchdog.MillisecondLate);
        HostWatchdog.CountOneMore(ChecksIn(front), Check(l.task, l.last, l.seen), HostWatchdog.Late);
      } else {
        assert ChecksIn(looks) == ChecksIn(front);
      }
    }
  }

  /** In every run without a reset the warnings, with the one under way, are at
      least the looks (one a round for each task) that found the sensor or the
      processor 901 ms old or the logger 1201 ms old, and at most those that found
      them older than 900 ms and 1200 ms. */
  lemma LateRoundsAreWarned(m: Maths, es: seq<Event>)
    requires Run(m, es).past.resets == 0
    ensures var looks := Trace(m, es, LookDone);
      var warnings := Run(m, es).stats.warnings + One(WarningInFlight(Run(m, es).watchdog));
      && CountIn(looks, AtLeast(WatchedSensor, 901)) + CountIn(looks, AtLeast(WatchedProcessor, 901))
         + CountIn(looks, AtLeast(WatchedLogger, 1201)) <= warnings
      && warnings <= CountIn(looks, MoreThan(WatchedSensor, 900)) + CountIn(looks, MoreThan(WatchedProcessor, 900))
         + CountIn(looks, MoreThan(WatchedLogger, 1200))
  {
    LooksHold(m, es);
    HostWatchdog.WarningsAreTrue(m, es);
    LateLooksAreChecks(Trace(m, es, LookDone));
  }

  // ---------------------------------------------------------------- lines about late tasks

  /** The task in the watchdog's line about an overdue heartbeat. */
  function OverdueNoted(s: State, e: Event): seq<Watched> {
    if e.WatchdogStep? && s.watchdog.WLogHeld? then [s.watchdog.t] else []
  }

  function OverdueTasks(checks: seq<Check>): seq<Watched> {
    if checks == [] then []
    else
      var c := checks[|checks| - 1];
      OverdueTasks(checks[..|checks| - 1]) + if FoundOverdue(c) then [c.task] else []
  }

  lemma OverdueSnoc(checks: seq<Check>, c: Check)
    ensures OverdueTasks(checks + [c]) == OverdueTasks(checks) + if FoundOverdue(c) then [c.task] else []
  {
    assert (checks + [c])[..|checks|] == checks;
  }

  /** The task whose line is still to be written. */
  function LineDue(pc: WatchdogPc): seq<Watched> {
    match pc
    case WWarnWait(t, _, _) => [t]
    case WWarnHeld(t, _, _) => [t]
    case WLogWait(t, _, _) => [t]
    case WLogHeld(t, _, _) => [t]
    case _ => []
  }

  ghost predicate LinesLaw(s: State, noted: seq<Watched>) {
    OverdueTasks(s.watch.checks) == noted + LineDue(s.watchdog)
  }

  lemma NoLineAfterCheck(t: Watched)
    ensures LineDue(AfterCheck(t)) == []
  {
  }

  lemma ComparedLine(s: State, now: Timespec, noted: seq<Watched>)
    requires LinesLaw(s, noted) && s.watchdog.WCompare?
    ensures LinesLaw(WatchdogWork(s, now), noted)
  {
    var c := Check(s.watchdog.t, s.watchdog.last, now);
    NoLineAfterCheck(c.task);
    OverdueSnoc(s.watch.checks, c);
    assert noted + [] == noted;
  }

  /** What is due before a step is written by it or still due after it. */
  lemma DueIsWritten(s: State, now: Timespec)
    requires WatchdogWants(s.watchdog) == Nothing && !s.watchdog.WCompare?
    ensures var n := WatchdogWork(s, now);
      && n.watch.checks == s.watch.checks
      && LineDue(s.watchdog) == OverdueNoted(s, WatchdogStep(now)) + LineDue(n.watchdog)
  {
    if s.watchdog.WCheckHeld? || s.watchdog.WLogHeld? {
      NoLineAfterCheck(s.watchdog.t);
    }
  }

  lemma WatchdogLines(s: State, now: Timespec, noted: seq<Watched>)
    requires LinesLaw(s, noted) && WatchdogWants(s.watchdog) == Nothing
    ensures LinesLaw(WatchdogWork(s, now), noted + OverdueNoted(s, WatchdogStep(now)))
  {
    var written, n := OverdueNoted(s, WatchdogStep(now)), WatchdogWork(s, now);
    if s.watchdog.WCompare? {
      ComparedLine(s, now, noted);
      assert noted + [] == noted;
    } else {
      DueIsWritten(s, now);
      assert noted + (written + LineDue(n.watchdog)) == noted + written + LineDue(n.watchdog);
    }
  }

  lemma LinesStep(m: Maths, s: State, e: Event, noted: seq<Watched>)
    requires LinesLaw(s, noted)
    ensures LinesLaw(Next(m, s, e), noted + OverdueNoted(s, e))
  {
    assert noted + [] == noted;
    if e.WatchdogStep? {
      match WantedBy(s, WatchdogThread)
      case Wants(l) => GrantFrame(s, WatchdogThread, l);
      case Nothing => WatchdogLines(s, e.now, noted);
    } else {
      OthersLeaveWatchdog(m, s, e);
    }
  }

  /** In every run the tasks the log names as overdue are, in order, those whose
      checks found them so; only the last line may still be due. */
  lemma {:induction false} OverdueLinesWritten(m: Maths, es: seq<Event>)
    ensures LinesLaw(Run(m, es), Trace(m, es, OverdueNoted))
    decreases |es|
  {
    if es != [] {
      var front := es[..|es| - 1];
      OverdueLinesWritten(m, front);
      LinesStep(m, Run(m, front), es[|es| - 1], Trace(m, front, OverdueNoted));
    }
  }
}

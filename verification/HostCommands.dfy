/** What the operator's commands come to in the host simulator: the fault mode is
    the one asked for last, a reset and a stop do all their parts in order, and a
    snapshot shows three moments of the run. */
module HostCommands {
  import opened HostTime
  import opened HostModel
  import opened HostFrames
  import opened HostRounds
  import opened Ordered

  // ---------------------------------------------------------------- the fault mode

  /** The command the control thread accepts. */
  function Accepted(s: State, e: Event): seq<Command> {
    if e.ControlStep? && s.control.CIdle? then [e.command] else []
  }

  /** The fault mode asked for last. */
  function AskedFault(commands: seq<Command>): FaultMode {
    if commands == [] then NoFault
    else if commands[|commands| - 1].AskFault? then commands[|commands| - 1].mode
    else AskedFault(commands[..|commands| - 1])
  }

  lemma AskedSnoc(commands: seq<Command>, c: Command)
    ensures AskedFault(commands + [c]) == if c.AskFault? then c.mode else AskedFault(commands)
  {
    assert (commands + [c])[..|commands|] == commands;
  }

  predicate SettingFault(pc: ControlPc) {
    pc.CFaultWait? || pc.CFaultHeld?
  }

  /** The fault mode is the one asked for last, or the one before while that is
      being set; the snapshot shows the same. */
  ghost predicate FaultLaw(s: State, commands: seq<Command>) {
    && s.stats.faultMode == s.fault
    && if SettingFault(s.control) then
         && commands != [] && commands[|commands| - 1] == AskFault(s.control.mode)
         && s.fault == AskedFault(commands[..|commands| - 1])
       else s.fault == AskedFault(commands)
  }

  predicate FaultStays(s: State, n: State) {
    n.fault == s.fault && n.stats.faultMode == s.stats.faultMode
  }

  lemma TalliesKeepFault(s: State)
    ensures FaultStays(s, SensorTally(s)) && FaultStays(s, ProcessorTally(s))
  {
  }

  lemma SensorKeepsFault(m: Maths, s: State, now: Timespec)
    ensures var n := SensorWork(m, s, now); FaultStays(s, n) && n.control == s.control && n.past == s.past
  {
    TalliesKeepFault(s);
    SensorFrame(m, s, now);
  }

  lemma ProcessorKeepsFault(m: Maths, s: State, now: Timespec, late: bool)
    ensures var n := ProcessorWork(m, s, now, late); FaultStays(s, n) && n.control == s.control && n.past == s.past
  {
    ProcessorFrame(m, s, now, late);
    HandlingKeepsFault(m, s, now);
  }

  lemma HandlingKeepsFault(m: Maths, s: State, now: Timespec)
    ensures FaultStays(s, ProcessorHandling(m, s, now))
  {
    TalliesKeepFault(s);
  }

  lemma WatchdogKeepsFault(s: State, now: Timespec)
    ensures var n := WatchdogWork(s, now); FaultStays(s, n) && n.control == s.control && n.past == s.past
  {
    WatchdogFrame(s, now);
  }

  lemma WorkersKeepFault(m: Maths, s: State, e: Event)
    requires !e.ControlStep?
    ensures var n := Work(m, s, e); FaultStays(s, n) && n.control == s.control && n.past == s.past
  {
    match e
    case SensorStep(now) => SensorKeepsFault(m, s, now);
    case ProcessorStep(now, late) => ProcessorKeepsFault(m, s, now, late);
    case LoggerStep(now, late) => LoggerFrame(s, now, late);
    case WatchdogStep(now) => WatchdogKeepsFault(s, now);
  }

  /** Any part of `ecu_snapshot`, `ecu_reset` or `ecu_stop`. */
  lemma OtherCallsKeepFault(s: State)
    requires s.stats.faultMode == s.fault && !SettingFault(s.control) && !s.control.CIdle?
    ensures var n := ControlSnapshot(s); FaultStays(s, n) && !SettingFault(n.control)
  {
    ResetKeepsFault(s);
  }

  lemma ResetKeepsFault(s: State)
    requires s.stats.faultMode == s.fault && !SettingFault(s.control)
    ensures var n := ControlReset(s); FaultStays(s, n) && !SettingFault(n.control)
  {
    ClearKeepsFault(s);
  }

  lemma ClearKeepsFault(s: State)
    requires !SettingFault(s.control)
    ensures var n := ControlClear(s); FaultStays(s, n) && !SettingFault(n.control)
  {
  }

  lemma CommandAsked(s: State, command: Command, commands: seq<Command>)
    requires FaultLaw(s, commands) && s.control.CIdle?
    ensures FaultLaw(Asked(s, command), commands + [command])
  {
    AskedSnoc(commands, command);
    assert (commands + [command])[..|commands|] == commands;
  }

  lemma FaultSet(s: State, command: Command, commands: seq<Command>)
    requires FaultLaw(s, commands) && s.control.CFaultHeld?
    ensures FaultLaw(ControlWork(s, command), commands)
  {
    var front := commands[..|commands| - 1];
    assert commands == front + [AskFault(s.control.mode)];
    AskedSnoc(front, AskFault(s.control.mode));
  }

  lemma ControlFaults(s: State, command: Command, commands: seq<Command>)
    requires FaultLaw(s, commands) && ControlWants(s.control) == Nothing
    ensures FaultLaw(ControlWork(s, command), commands + Accepted(s, ControlStep(command)))
  {
    assert commands + [] == commands;
    match s.control
    case CIdle => CommandAsked(s, command, commands);
    case CFaultHeld(mode) => FaultSet(s, command, commands);
    case _ => OtherCallsKeepFault(s);
  }

  lemma FaultStep(m: Maths, s: State, e: Event, commands: seq<Command>)
    requires FaultLaw(s, commands)
    ensures FaultLaw(Next(m, s, e), commands + Accepted(s, e))
  {
    assert commands + [] == commands;
    match WantedBy(s, Mover(e))
    case Wants(l) => GrantFrame(s, Mover(e), l);
    case Nothing =>
      if e.ControlStep? {
        ControlFaults(s, e.command, commands);
      } else {
        WorkersKeepFault(m, s, e);
      }
  }

  /** In every run. */
  lemma {:induction false} FaultIsAsked(m: Maths, es: seq<Event>)
    ensures FaultLaw(Run(m, es), Trace(m, es, Accepted))
    decreases |es|
  {
    if es != [] {
      var front := es[..|es| - 1];
      FaultIsAsked(m, front);
      FaultStep(m, Run(m, front), es[|es| - 1], Trace(m, front, Accepted));
    }
  }

  // ---------------------------------------------------------------- calls under way

  /** The call accepted at event `a` is under way after the run, or has just ended. */
  ghost predicate Calling(m: Maths, es: seq<Event>, a: nat, command: Command) {
    && a < |es| && es[a] == ControlStep(command) && Run(m, es[..a]).control.CIdle?
    && forall k :: a < k < |es| ==> !Run(m, es[..k]).control.CIdle?
  }

  lemma CallingBefore(m: Maths, es: seq<Event>, a: nat, command: Command)
    requires Calling(m, es, a, command) && a + 1 < |es|
    ensures var front := es[..|es| - 1]; Calling(m, front, a, command) && !Run(m, front).control.CIdle?
  {
    var front := es[..|es| - 1];
    assert front[..a] == es[..a];
    forall k | a < k < |front|
      ensures !Run(m, front[..k]).control.CIdle?
    {
      assert front[..k] == es[..k];
    }
  }

  lemma CallBegins(m: Maths, es: seq<Event>, a: nat, command: Command)
    requires Calling(m, es, a, command) && a + 1 == |es|
    ensures Run(m, es) == Asked(Run(m, es[..a]), command)
  {
    assert es[..|es| - 1] == es[..a];
  }

  // ---------------------------------------------------------------- resets and stops

  /** How many parts of the call are done where the control thread is; -1 where it
      never is during the call. */
  function PartsDone(command: Command, pc: ControlPc): int {
    match pc
    case CResetWait => if command.AskReset? then 0 else -1
    case CResetHeld => if command.AskReset? then 0 else -1
    case CResetDepthWait => if command.AskReset? then 1 else -1
    case CResetDepthHeld => if command.AskReset? then 1 else -1
    case CResetDepth2Wait => if command.AskReset? then 1 else -1
    case CResetDepth2Held => if command.AskReset? then 1 else -1
    case CResetLeave => if command.AskReset? then 1 else -1
    case CClearWait(why) => PartsAtClear(command, why)
    case CClearHeld(why) => PartsAtClear(command, why)
    case CClear2Wait(why) => PartsAtClear2(command, why)
    case CClear2Held(why) => PartsAtClear2(command, why)
    case CBeatsWait => if command.AskReset? then 4 else -1
    case CBeatsHeld => if command.AskReset? then 4 else -1
    case CIdle => if command.AskReset? then 5 else -1
    case CJoin => if command.AskStop? then 2 else -1
    case CStopped => if command.AskStop? then 3 else -1
    case _ => -1
  }

  function PartsAtClear(command: Command, why: Cause): int {
    if command.AskReset? && why == ForReset then 2 else if command.AskStop? && why == ForStop then 0 else -1
  }

  function PartsAtClear2(command: Command, why: Cause): int {
    if command.AskReset? && why == ForReset then 3 else if command.AskStop? && why == ForStop then 1 else -1
  }

  /** What each part of a reset or stop brings about: the counters at zero, the
      numbering at its start, the queues empty, the heartbeats forgotten; the queues
      empty and the workers ended. */
  predicate PartDone(command: Command, part: nat, s: State) {
    if command.AskReset? then
      match part
      case 0 =>
        && s.stats.sensor.samples == s.stats.sensor.drops == 0
        && s.stats.telemetry.frames == s.stats.telemetry.drops == 0 && s.stats.warnings == 0
      case 1 => s.sequence == 0
      case 2 => s.samples == []
      case 3 => s.frames == []
      case _ => s.beats == map[]
    else
      match part
      case 0 => s.samples == []
      case 1 => s.frames == []
      case _ => s.sensor.SDone? && s.processor.PDone? && s.logger.LDone? && s.watchdog.WDone?
  }

  /** The parts of a call, each at its moment. */
  ghost predicate Trail(m: Maths, es: seq<Event>, a: nat, command: Command, at: seq<nat>) {
    && |at| == PartsDone(command, Run(m, es).control) && Moments(at, a, |es|)
    && forall i :: 0 <= i < |at| ==> PartDone(command, i, Run(m, es[..at[i]]))
  }

  /** A step of the control thread stays in its part or finishes it. */
  lemma PartStep(s: State, command: Command, any: Command)
    requires command.AskReset? || command.AskStop?
    requires PartsDone(command, s.control) >= 0 && !s.control.CIdle? && ControlWants(s.control) == Nothing
    ensures var n := ControlWork(s, any);
      var before, after := PartsDone(command, s.control), PartsDone(command, n.control);
      after == before || (after == before + 1 && PartDone(command, before, n))
  {
    if s.control.CResetHeld? || s.control.CResetDepthHeld? || s.control.CResetDepth2Held? || s.control.CResetLeave? {
      ResetPartStep(s, command);
    } else {
      ClearPartStep(s, command);
    }
  }

  lemma ResetPartStep(s: State, command: Command)
    requires command.AskReset? && PartsDone(command, s.control) >= 0
    requires !s.control.CClearHeld? && !s.control.CClear2Held? && !s.control.CBeatsHeld? && !s.control.CIdle?
    ensures var n := ControlReset(s);
      var before, after := PartsDone(command, s.control), PartsDone(command, n.control);
      after == before || (after == before + 1 && PartDone(command, before, n))
  {
  }

  lemma ClearPartStep(s: State, command: Command)
    requires command.AskReset? || command.AskStop?
    requires PartsDone(command, s.control) >= 0 && !s.control.CIdle?
    ensures var n := ControlClear(s);
      var before, after := PartsDone(command, s.control), PartsDone(command, n.control);
      after == before || (after == before + 1 && PartDone(command, before, n))
  {
    match s.control
    case CClearHeld(why) =>
    case CClear2Held(why) =>
    case CBeatsHeld =>
    case CJoin =>
    case _ =>
  }

  lemma GrantedPart(command: Command, pc: ControlPc)
    ensures PartsDone(command, ControlGranted(pc)) == PartsDone(command, pc)
  {
  }

  lemma OthersLeaveControl(m: Maths, s: State, e: Event)
    requires Mover(e) != ControlThread
    ensures Next(m, s, e).control == s.control && Next(m, s, e).past == s.past
  {
    match WantedBy(s, Mover(e))
    case Wants(l) => GrantFrame(s, Mover(e), l);
    case Nothing => WorkersKeepFault(m, s, e);
  }

  lemma CallStep(m: Maths, s: State, e: Event, command: Command)
    requires command.AskReset? || command.AskStop?
    requires PartsDone(command, s.control) >= 0 && !s.control.CIdle?
    ensures var n := Next(m, s, e);
      var before, after := PartsDone(command, s.control), PartsDone(command, n.control);
      after == before || (after == before + 1 && PartDone(command, before, n))
  {
    if e.ControlStep? {
      match WantedBy(s, ControlThread)
      case Wants(l) => GrantedPart(command, s.control);
      case Nothing => PartStep(s, command, e.command);
    } else {
      OthersLeaveControl(m, s, e);
    }
  }

  lemma TrailGrows(m: Maths, es: seq<Event>, a: nat, command: Command, at: seq<nat>) returns (more: seq<nat>)
    requires es != [] && a < |es| && (command.AskReset? || command.AskStop?)
    requires Trail(m, es[..|es| - 1], a, command, at) && !Run(m, es[..|es| - 1]).control.CIdle?
    ensures Trail(m, es, a, command, more)
  {
    var front := es[..|es| - 1];
    CallStep(m, Run(m, front), es[|es| - 1], command);
    more := at;
    if PartsDone(command, Run(m, es).control) != |at| {
      more := at + [|es|];
      MomentJoins(at, a, |front|);
    }
    forall i | 0 <= i < |more|
      ensures PartDone(command, i, Run(m, es[..more[i]]))
    {
      if i < |at| {
        assert es[..at[i]] == front[..at[i]];
      } else {
        assert es[..|es|] == es;
      }
    }
  }

  /** In every run a reset and a stop have done, wherever they are, just the parts
      that lie behind them, each at a moment of its own and in order: a call that
      has returned has done them all. */
  lemma {:induction false} CallsDoTheirParts(m: Maths, es: seq<Event>, a: nat, command: Command)
    returns (at: seq<nat>)
    requires command.AskReset? || command.AskStop?
    requires Calling(m, es, a, command)
    ensures Trail(m, es, a, command, at)
    decreases |es|
  {
    if a + 1 == |es| {
      CallBegins(m, es, a, command);
      at := [];
    } else {
      CallingBefore(m, es, a, command);
      at := CallsDoTheirParts(m, es[..|es| - 1], a, command);
      at := TrailGrows(m, es, a, command, at);
    }
  }

  /** So between the call of a reset and its return there was a moment when the
      counters were zero, a later one when the numbering started again, then one
      when each queue was empty, and on its return the heartbeats are forgotten. */
  lemma ResetDoesEverything(m: Maths, es: seq<Event>, a: nat) returns (at: seq<nat>)
    requires Calling(m, es, a, AskReset) && Run(m, es).control.CIdle?
    ensures |at| == 5 && a < at[0] < at[1] < at[2] < at[3] < at[4] <= |es|
    ensures var zeroed := Run(m, es[..at[0]]).stats;
      && zeroed.sensor == SampleCounts(0, 0) && zeroed.telemetry == FrameCounts(0, 0) && zeroed.warnings == 0
    ensures Run(m, es[..at[1]]).sequence == 0
    ensures Run(m, es[..at[2]]).samples == [] && Run(m, es[..at[3]]).frames == []
    ensures Run(m, es[..at[4]]).beats == map[]
  {
    at := CallsDoTheirParts(m, es, a, AskReset);
    assert PartDone(AskReset, 0, Run(m, es[..at[0]])) && PartDone(AskReset, 1, Run(m, es[..at[1]]));
    assert PartDone(AskReset, 2, Run(m, es[..at[2]])) && PartDone(AskReset, 3, Run(m, es[..at[3]]));
    assert PartDone(AskReset, 4, Run(m, es[..at[4]]));
  }

  /** And a stop has emptied both queues and seen every worker end. */
  lemma StopDoesEverything(m: Maths, es: seq<Event>, a: nat) returns (at: seq<nat>)
    requires Calling(m, es, a, AskStop) && Run(m, es).control.CStopped?
    ensures |at| == 3 && a < at[0] < at[1] < at[2] <= |es|
    ensures Run(m, es[..at[0]]).samples == [] && Run(m, es[..at[1]]).frames == []
    ensures var s := Run(m, es[..at[2]]); s.sensor.SDone? && s.processor.PDone? && s.logger.LDone? && s.watchdog.WDone?
  {
    at := CallsDoTheirParts(m, es, a, AskStop);
    assert PartDone(AskStop, 0, Run(m, es[..at[0]])) && PartDone(AskStop, 1, Run(m, es[..at[1]]));
    assert PartDone(AskStop, 2, Run(m, es[..at[2]]));
  }

  // ---------------------------------------------------------------- snapshots

  /** How far a snapshot has come, and the copy it carries. */
  function Copied(pc: ControlPc): seq<Snapshot> {
    match pc
    case CSnapDepthWait(c) => [c]
    case CSnapDepthHeld(c) => [c]
    case CSnapDepth2Wait(c) => [c]
    case CSnapDepth2Held(c) => [c]
    case CSnapLeave(c) => [c]
    case _ => []
  }

  function MomentsSeen(pc: ControlPc): int {
    match pc
    case CSnapWait => 0
    case CSnapHeld => 0
    case CSnapDepthWait(_) => 1
    case CSnapDepthHeld(_) => 1
    case CSnapDepth2Wait(_) => 2
    case CSnapDepth2Held(_) => 2
    case CSnapLeave(_) => 3
    case _ => -1
  }

  /** The parts of the snapshot are those of the moments: its counters and mode of
      the first, its depths of the second and third. */
  ghost predicate Shows(m: Maths, es: seq<Event>, c: Snapshot, at: seq<nat>)
    requires forall i :: 0 <= i < |at| ==> at[i] <= |es|
  {
    && (|at| >= 1 ==> var seen := Run(m, es[..at[0]]).stats;
          && c.sensor == seen.sensor && c.telemetry == seen.telemetry
          && c.warnings == seen.warnings && c.faultMode == seen.faultMode)
    && (|at| >= 2 ==> c.sensorDepth == |Run(m, es[..at[1]]).samples|)
    && (|at| >= 3 ==> c.telemetryDepth == |Run(m, es[..at[2]]).frames|)
  }

  ghost predicate SnapTrail(m: Maths, es: seq<Event>, a: nat, at: seq<nat>) {
    var s := Run(m, es);
    && |at| == MomentsSeen(s.control) && Moments(at, a, |es|)
    && (at != [] ==> |Copied(s.control)| == 1 && Shows(m, es, Copied(s.control)[0], at))
    && a < |es| && s.past.reports == Run(m, es[..a]).past.reports
  }

  /** The snapshot's step to a new moment. */
  predicate CopiesOn(s: State, n: State) {
    match MomentsSeen(s.control)
    case 0 => Copied(n.control) == [n.stats]
    case 1 => |Copied(s.control)| == 1 && Copied(n.control) == [Copied(s.control)[0].(sensorDepth := |n.samples|)]
    case _ => |Copied(s.control)| == 1 && Copied(n.control) == [Copied(s.control)[0].(telemetryDepth := |n.frames|)]
  }

  predicate SnapMoves(s: State, n: State) {
    var before, after := MomentsSeen(s.control), MomentsSeen(n.control);
    if n.control.CIdle? then
      && before == 3 && |Copied(s.control)| == 1
      && n.past.reports == s.past.reports + Copied(s.control)
    else
      && n.past.reports == s.past.reports
      && ((after == before && Copied(n.control) == Copied(s.control))
          || (before < 3 && after == before + 1 && CopiesOn(s, n)))
  }

  lemma SnapStep(m: Maths, s: State, e: Event)
    requires MomentsSeen(s.control) >= 0
    ensures SnapMoves(s, Next(m, s, e))
  {
    if e.ControlStep? {
      match WantedBy(s, ControlThread)
      case Wants(l) => GrantFrame(s, ControlThread, l);
      case Nothing => assert ControlWork(s, e.command) == ControlSnapshot(s);
    } else {
      OthersLeaveControl(m, s, e);
    }
  }

  lemma ShowsBefore(m: Maths, es: seq<Event>, c: Snapshot, at: seq<nat>, a: nat)
    requires es != [] && Moments(at, a, |es| - 1) && Shows(m, es[..|es| - 1], c, at)
    ensures Shows(m, es, c, at)
  {
    var front := es[..|es| - 1];
    forall i | 0 <= i < |at|
      ensures es[..at[i]] == front[..at[i]]
    {
    }
  }

  lemma ShowsOneMore(m: Maths, es: seq<Event>, c: Snapshot, d: Snapshot, at: seq<nat>, a: nat)
    requires Moments(at, a, |es|) && Shows(m, es, c, at)
    requires |at| < 3
    requires |at| == 0 ==> d == Run(m, es).stats
    requires |at| == 1 ==> d == c.(sensorDepth := |Run(m, es).samples|)
    requires |at| == 2 ==> d == c.(telemetryDepth := |Run(m, es).frames|)
    ensures Shows(m, es, d, at + [|es|])
  {
    assert es[..|es|] == es;
  }

  lemma SnapTrailGrows(m: Maths, es: seq<Event>, a: nat, at: seq<nat>) returns (more: seq<nat>)
    requires es != [] && SnapTrail(m, es[..|es| - 1], a, at) && !Run(m, es).control.CIdle?
    ensures SnapTrail(m, es, a, more)
  {
    var front := es[..|es| - 1];
    var s, n := Run(m, front), Run(m, es);
    SnapStep(m, s, es[|es| - 1]);
    assert front[..a] == es[..a];
    if at != [] {
      ShowsBefore(m, es, Copied(s.control)[0], at, a);
    }
    more := at;
    if MomentsSeen(n.control) != |at| {
      more := at + [|es|];
      MomentJoins(at, a, |front|);
      ShowsOneMore(m, es, if at == [] then n.stats else Copied(s.control)[0], Copied(n.control)[0], at, a);
    }
  }

  lemma {:induction false} SnapshotUnderWay(m: Maths, es: seq<Event>, a: nat) returns (at: seq<nat>)
    requires Calling(m, es, a, AskSnapshot) && !Run(m, es).control.CIdle?
    ensures SnapTrail(m, es, a, at)
    decreases |es|
  {
    if a + 1 == |es| {
      CallBegins(m, es, a, AskSnapshot);
      at := [];
    } else {
      CallingBefore(m, es, a, AskSnapshot);
      at := SnapshotUnderWay(m, es[..|es| - 1], a);
      at := SnapTrailGrows(m, es, a, at);
    }
  }

  /** A snapshot that has returned has made one report. It shows three moments of
      the call, in order: the counters and the fault mode of the first, the number of
      samples queued at the second, the number of frames queued at the third. */
  lemma SnapshotShowsMoments(m: Maths, es: seq<Event>, a: nat) returns (at: seq<nat>, report: Snapshot)
    requires Calling(m, es, a, AskSnapshot) && Run(m, es).control.CIdle?
    ensures |at| == 3 && a < at[0] < at[1] < at[2] <= |es|
    ensures Run(m, es).past.reports == Run(m, es[..a]).past.reports + [report]
    ensures var seen := Run(m, es[..at[0]]).stats;
      && report.sensor == seen.sensor && report.telemetry == seen.telemetry
      && report.warnings == seen.warnings && report.faultMode == seen.faultMode
    ensures report.sensorDepth == |Run(m, es[..at[1]]).samples|
    ensures report.telemetryDepth == |Run(m, es[..at[2]]).frames|
  {
    if a + 1 == |es| {
      CallBegins(m, es, a, AskSnapshot);
      assert false;
    }
    CallingBefore(m, es, a, AskSnapshot);
    var front := es[..|es| - 1];
    at := SnapshotUnderWay(m, front, a);
    SnapStep(m, Run(m, front), es[|es| - 1]);
    report := Copied(Run(m, front).control)[0];
    ShowsBefore(m, es, report, at, a);
    assert front[..a] == es[..a];
  }

  // ---------------------------------------------------------------- the depths between snapshots

  /** A depth is left, zeroed, or set to the length of its queue. */
  predicate DepthsStep(s: State, n: State) {
    && (n.stats.sensorDepth == s.stats.sensorDepth || n.stats.sensorDepth == 0
        || n.stats.sensorDepth == |n.samples|)
    && (n.stats.telemetryDepth == s.stats.telemetryDepth || n.stats.telemetryDepth == 0
        || n.stats.telemetryDepth == |n.frames|)
  }

  lemma SensorDepths(m: Maths, s: State, now: Timespec)
    ensures DepthsStep(s, SensorWork(m, s, now))
  {
    TalliesDepths(s);
  }

  lemma TalliesDepths(s: State)
    ensures DepthsStep(s, SensorTally(s)) && DepthsStep(s, ProcessorTally(s))
  {
  }

  lemma ProcessorDepths(m: Maths, s: State, now: Timespec, late: bool)
    ensures DepthsStep(s, ProcessorWork(m, s, now, late))
  {
    HandlingDepths(m, s, now);
  }

  lemma HandlingDepths(m: Maths, s: State, now: Timespec)
    ensures DepthsStep(s, ProcessorHandling(m, s, now))
  {
    TalliesDepths(s);
  }

  lemma WatchdogDepths(s: State, now: Timespec)
    ensures DepthsStep(s, WatchdogWork(s, now))
  {
  }

  lemma ControlDepths(s: State, command: Command)
    ensures DepthsStep(s, ControlWork(s, command))
  {
    SnapshotDepths(s);
  }

  lemma SnapshotDepths(s: State)
    ensures DepthsStep(s, ControlSnapshot(s))
  {
    ResetDepths(s);
  }

  lemma ResetDepths(s: State)
    ensures DepthsStep(s, ControlReset(s))
  {
    ClearDepths(s);
  }

  lemma ClearDepths(s: State)
    ensures DepthsStep(s, ControlClear(s))
  {
  }

  lemma DepthsMove(m: Maths, s: State, e: Event)
    ensures DepthsStep(s, Next(m, s, e))
  {
    match WantedBy(s, Mover(e))
    case Wants(l) => GrantFrame(s, Mover(e), l);
    case Nothing =>
      match e
      case SensorStep(now) => SensorDepths(m, s, now);
      case ProcessorStep(now, late) => ProcessorDepths(m, s, now, late);
      case LoggerStep(now, late) => LoggerFrame(s, now, late);
      case WatchdogStep(now) => WatchdogDepths(s, now);
      case ControlStep(command) => ControlDepths(s, command);
  }

  /** In every run each depth the workers leave in the snapshot is the length its own
      queue had at some moment. */
  lemma {:induction false} DepthsWereReal(m: Maths, es: seq<Event>) returns (i: nat, j: nat)
    ensures i <= |es| && Run(m, es).stats.sensorDepth == |Run(m, es[..i]).samples|
    ensures j <= |es| && Run(m, es).stats.telemetryDepth == |Run(m, es[..j]).frames|
    decreases |es|
  {
    assert es[..|es|] == es;
    if es == [] {
      i, j := 0, 0;
    } else {
      var front := es[..|es| - 1];
      i, j := DepthsWereReal(m, front);
      assert front[..i] == es[..i] && front[..j] == es[..j];
      DepthsMove(m, Run(m, front), es[|es| - 1]);
      var n := Run(m, es).stats;
      if n.sensorDepth != Run(m, front).stats.sensorDepth {
        i := if n.sensorDepth == 0 then 0 else |es|;
      }
      if n.telemetryDepth != Run(m, front).stats.telemetryDepth {
        j := if n.telemetryDepth == 0 then 0 else |es|;
      }
    }
  }
}

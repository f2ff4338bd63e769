/** Who holds which mutex in a run of the host simulator, and why its threads
    never deadlock on them. */
module HostLocks {
  import opened HostModel
  import opened HostFrames
  import opened HostTime

  // ---------------------------------------------------------------- what each thread holds

  predicate SensorHolds(pc: SensorPc, l: Lock) {
    match l
    case BeatLock => pc.SBeatHeld?
    case LogLock => pc.SLogHeld?
    case StateLock =>
      || pc.SModeHeld? || pc.SMakeHeld? || pc.SDropHeld? || pc.SCountHeld?
      || pc.SDepthWait? || pc.SDepthHeld? || pc.SDepth2Wait? || pc.SDepth2Held? || pc.SCountLeave?
    case SensorQueueLock => pc.SPushHeld? || pc.SDepthHeld?
    case TelemetryQueueLock => pc.SDepth2Held?
  }

  predicate ProcessorHolds(pc: ProcessorPc, l: Lock) {
    match l
    case BeatLock => pc.PBeatHeld?
    case LogLock => pc.PLogHeld?
    case StateLock =>
      || pc.PModeHeld? || pc.PDropHeld? || pc.PCountHeld?
      || pc.PDepthWait? || pc.PDepthHeld? || pc.PDepth2Wait? || pc.PDepth2Held? || pc.PCountLeave?
    case SensorQueueLock => pc.PPopHeld? || pc.PTimedOut? || pc.PDepthHeld?
    case TelemetryQueueLock => pc.PPushHeld? || pc.PDepth2Held?
  }

  predicate LoggerHolds(pc: LoggerPc, l: Lock) {
    match l
    case BeatLock => pc.LBeatHeld?
    case LogLock => pc.LPrintHeld?
    case TelemetryQueueLock => pc.LPopHeld? || pc.LTimedOut?
    case _ => false
  }

  predicate WatchdogHolds(pc: WatchdogPc, l: Lock) {
    match l
    case BeatLock => pc.WBeatHeld? || pc.WCheckHeld?
    case LogLock => pc.WLogHeld?
    case StateLock => pc.WWarnHeld?
    case _ => false
  }

  predicate ControlHolds(pc: ControlPc, l: Lock) {
    match l
    case BeatLock => pc.CBeatsHeld?
    case LogLock => false
    case StateLock =>
      || pc.CFaultHeld? || pc.CSnapHeld? || pc.CSnapDepthWait? || pc.CSnapDepthHeld?
      || pc.CSnapDepth2Wait? || pc.CSnapDepth2Held? || pc.CSnapLeave?
      || pc.CResetHeld? || pc.CResetDepthWait? || pc.CResetDepthHeld?
      || pc.CResetDepth2Wait? || pc.CResetDepth2Held? || pc.CResetLeave?
    case SensorQueueLock => pc.CSnapDepthHeld? || pc.CResetDepthHeld? || pc.CClearHeld?
    case TelemetryQueueLock => pc.CSnapDepth2Held? || pc.CResetDepth2Held? || pc.CClear2Held?
  }

  /** The thread is inside a critical section of the mutex. */
  predicate Holds(s: State, t: Thread, l: Lock) {
    match t
    case SensorThread => SensorHolds(s.sensor, l)
    case ProcessorThread => ProcessorHolds(s.processor, l)
    case LoggerThread => LoggerHolds(s.logger, l)
    case WatchdogThread => WatchdogHolds(s.watchdog, l)
    case ControlThread => ControlHolds(s.control, l)
  }

  /** The owner of each mutex is exactly the thread inside one of its critical
      sections. */
  ghost predicate LocksAgree(s: State) {
    forall l: Lock, t: Thread :: (l in s.owner && s.owner[l] == t) <==> Holds(s, t, l)
  }

  /** Mutual exclusion. */
  lemma OneHolder(s: State, l: Lock, t: Thread, u: Thread)
    requires LocksAgree(s) && Holds(s, t, l) && Holds(s, u, l)
    ensures t == u
  {
  }

  // ---------------------------------------------------------------- mutual exclusion is kept

  /** Doing its work, a thread enters no critical section, and the mutexes of
      those it leaves are free again. */
  ghost predicate FreesWhatItLeaves(s: State, n: State, me: Thread) {
    && OthersStay(s, n, me)
    && forall l: Lock :: FreesIfLeft(s, n, me, l)
  }

  predicate FreesIfLeft(s: State, n: State, me: Thread, l: Lock) {
    && (Holds(n, me, l) ==> Holds(s, me, l))
    && (l in n.owner <==> l in s.owner && (Holds(s, me, l) ==> Holds(n, me, l)))
    && (l in n.owner ==> n.owner[l] == s.owner[l])
  }

  lemma SensorFreesOne(m: Maths, s: State, now: Timespec, l: Lock)
    requires SensorWants(s.sensor).Nothing?
    ensures FreesIfLeft(s, SensorWork(m, s, now), SensorThread, l)
  {
    if BetweenSamples(s.sensor) {
      SensorRoundFreesOne(m, s, now, l);
    } else {
      SensorSamplingFreesOne(m, s, now, l);
    }
  }

  predicate BetweenSamples(pc: SensorPc) {
    pc.SBeatHeld? || pc.SLoop? || pc.SModeHeld? || pc.SChoose? || pc.SBurst? || pc.SLogHeld?
  }

  lemma SensorRoundFreesOne(m: Maths, s: State, now: Timespec, l: Lock)
    requires BetweenSamples(s.sensor)
    ensures FreesIfLeft(s, SensorWork(m, s, now), SensorThread, l)
  {
  }

  lemma SensorSamplingFreesOne(m: Maths, s: State, now: Timespec, l: Lock)
    requires SensorWants(s.sensor).Nothing?
    ensures FreesIfLeft(s, SensorSampling(m, s, now), SensorThread, l)
  {
    SensorTallyFreesOne(s, l);
  }

  lemma SensorTallyFreesOne(s: State, l: Lock)
    requires SensorWants(s.sensor).Nothing?
    ensures FreesIfLeft(s, SensorTally(s), SensorThread, l)
  {
  }

  lemma SensorFrees(m: Maths, s: State, now: Timespec)
    requires SensorWants(s.sensor).Nothing?
    ensures FreesWhatItLeaves(s, SensorWork(m, s, now), SensorThread)
  {
    forall l: Lock
      ensures FreesIfLeft(s, SensorWork(m, s, now), SensorThread, l)
    {
      SensorFreesOne(m, s, now, l);
    }
  }

  lemma ProcessorFreesOne(m: Maths, s: State, now: Timespec, late: bool, l: Lock)
    requires ProcessorWants(s.processor).Nothing?
    ensures FreesIfLeft(s, ProcessorWork(m, s, now, late), ProcessorThread, l)
  {
    if s.processor.PPopHeld? {
      PopFreesOne(s, l);
    } else if s.processor.PBeatHeld? || s.processor.PTimedOut? {
      ProcessorRoundFreesOne(m, s, now, late, l);
    } else {
      ProcessorHandlingFreesOne(m, s, now, l);
    }
  }

  lemma ProcessorRoundFreesOne(m: Maths, s: State, now: Timespec, late: bool, l: Lock)
    requires s.processor.PBeatHeld? || s.processor.PTimedOut?
    ensures FreesIfLeft(s, ProcessorWork(m, s, now, late), ProcessorThread, l)
  {
  }

  lemma PopFreesOne(s: State, l: Lock)
    requires s.processor.PPopHeld?
    ensures FreesIfLeft(s, PopSample(s), ProcessorThread, l)
  {
  }

  lemma ProcessorHandlingFreesOne(m: Maths, s: State, now: Timespec, l: Lock)
    requires ProcessorWants(s.processor).Nothing?
    ensures FreesIfLeft(s, ProcessorHandling(m, s, now), ProcessorThread, l)
  {
    ProcessorTallyFreesOne(s, l);
  }

  lemma ProcessorTallyFreesOne(s: State, l: Lock)
    requires ProcessorWants(s.processor).Nothing?
    ensures FreesIfLeft(s, ProcessorTally(s), ProcessorThread, l)
  {
  }

  lemma ProcessorFrees(m: Maths, s: State, now: Timespec, late: bool)
    requires ProcessorWants(s.processor).Nothing?
    ensures FreesWhatItLeaves(s, ProcessorWork(m, s, now, late), ProcessorThread)
  {
    forall l: Lock
      ensures FreesIfLeft(s, ProcessorWork(m, s, now, late), ProcessorThread, l)
    {
      ProcessorFreesOne(m, s, now, late, l);
    }
  }

  lemma LoggerFrees(s: State, now: Timespec, late: bool)
    requires LoggerWants(s.logger).Nothing?
    ensures FreesWhatItLeaves(s, LoggerWork(s, now, late), LoggerThread)
  {
    forall l: Lock
      ensures FreesIfLeft(s, LoggerWork(s, now, late), LoggerThread, l)
    {
      LoggerFreesOne(s, now, late, l);
    }
  }

  lemma LoggerFreesOne(s: State, now: Timespec, late: bool, l: Lock)
    requires LoggerWants(s.logger).Nothing?
    ensures FreesIfLeft(s, LoggerWork(s, now, late), LoggerThread, l)
  {
  }

  lemma WatchdogFrees(s: State, now: Timespec)
    requires WatchdogWants(s.watchdog).Nothing?
    ensures FreesWhatItLeaves(s, WatchdogWork(s, now), WatchdogThread)
  {
    forall l: Lock
      ensures FreesIfLeft(s, WatchdogWork(s, now), WatchdogThread, l)
    {
      WatchdogFreesOne(s, now, l);
    }
  }

  lemma WatchdogFreesOne(s: State, now: Timespec, l: Lock)
    requires WatchdogWants(s.watchdog).Nothing?
    ensures FreesIfLeft(s, WatchdogWork(s, now), WatchdogThread, l)
  {
  }

  lemma ControlFreesOne(s: State, command: Command, l: Lock)
    requires ControlWants(s.control).Nothing?
    ensures FreesIfLeft(s, ControlWork(s, command), ControlThread, l)
  {
    if s.control.CIdle? {
      AskedFreesNone(s, command, l);
    } else if s.control.CFaultHeld? {
      FaultSetFreesOne(s, command, l);
    } else {
      ControlSnapshotFreesOne(s, l);
    }
  }

  lemma AskedFreesNone(s: State, command: Command, l: Lock)
    requires s.control.CIdle?
    ensures FreesIfLeft(s, Asked(s, command), ControlThread, l)
  {
  }

  lemma FaultSetFreesOne(s: State, command: Command, l: Lock)
    requires s.control.CFaultHeld?
    ensures FreesIfLeft(s, ControlWork(s, command), ControlThread, l)
  {
  }

  lemma ControlSnapshotFreesOne(s: State, l: Lock)
    requires ControlWants(s.control).Nothing?
    ensures FreesIfLeft(s, ControlSnapshot(s), ControlThread, l)
  {
    ControlResetFreesOne(s, l);
  }

  lemma ControlResetFreesOne(s: State, l: Lock)
    requires ControlWants(s.control).Nothing?
    ensures FreesIfLeft(s, ControlReset(s), ControlThread, l)
  {
    ControlClearFreesOne(s, l);
  }

  lemma ControlClearFreesOne(s: State, l: Lock)
    requires ControlWants(s.control).Nothing?
    ensures FreesIfLeft(s, ControlClear(s), ControlThread, l)
  {
  }

  lemma ControlFrees(s: State, command: Command)
    requires ControlWants(s.control).Nothing?
    ensures FreesWhatItLeaves(s, ControlWork(s, command), ControlThread)
  {
    forall l: Lock
      ensures FreesIfLeft(s, ControlWork(s, command), ControlThread, l)
    {
      ControlFreesOne(s, command, l);
    }
  }

  lemma GrantEnters(s: State, t: Thread, l: Lock)
    requires WantedBy(s, t) == Wants(l)
    ensures OthersStay(s, Grant(s, t, l), t)
    ensures forall k: Lock :: Holds(Grant(s, t, l), t, k) <==> Holds(s, t, k) || k == l
  {
  }

  lemma LeavingKeepsAgreement(s: State, n: State, me: Thread)
    requires LocksAgree(s) && FreesWhatItLeaves(s, n, me)
    ensures LocksAgree(n)
  {
    forall l: Lock, t: Thread
      ensures (l in n.owner && n.owner[l] == t) <==> Holds(n, t, l)
    {
      assert FreesIfLeft(s, n, me, l);
      if t != me {
        assert Holds(n, t, l) == Holds(s, t, l);
      }
    }
  }

  lemma GrantKeepsAgreement(s: State, t: Thread, l: Lock)
    requires LocksAgree(s) && WantedBy(s, t) == Wants(l) && l !in s.owner
    ensures LocksAgree(Grant(s, t, l))
  {
    var n := Grant(s, t, l);
    GrantEnters(s, t, l);
    forall k: Lock, u: Thread
      ensures (k in n.owner && n.owner[k] == u) <==> Holds(n, u, k)
    {
      if u != t {
        assert Holds(n, u, k) == Holds(s, u, k);
      }
    }
  }

  lemma LocksStep(m: Maths, s: State, e: Event)
    requires LocksAgree(s)
    ensures LocksAgree(Next(m, s, e))
  {
    match WantedBy(s, Mover(e))
    case Wants(l) =>
      if l !in s.owner {
        GrantKeepsAgreement(s, Mover(e), l);
      }
    case Nothing =>
      WorkFrees(m, s, e);
      LeavingKeepsAgreement(s, Work(m, s, e), Mover(e));
  }

  lemma WorkFrees(m: Maths, s: State, e: Event)
    requires WantedBy(s, Mover(e)) == Nothing
    ensures FreesWhatItLeaves(s, Work(m, s, e), Mover(e))
  {
    match e
    case SensorStep(now) => SensorFrees(m, s, now);
    case ProcessorStep(now, late) => ProcessorFrees(m, s, now, late);
    case LoggerStep(now, late) => LoggerFrees(s, now, late);
    case WatchdogStep(now) => WatchdogFrees(s, now);
    case ControlStep(command) => ControlFrees(s, command);
  }

  /** In every run the mutexes are owned by exactly the threads in their critical
      sections. */
  lemma {:induction false} LocksAlwaysAgree(m: Maths, es: seq<Event>)
    ensures LocksAgree(Run(m, es))
    decreases |es|
  {
    if es != [] {
      LocksAlwaysAgree(m, es[..|es| - 1]);
      LocksStep(m, Run(m, es[..|es| - 1]), es[|es| - 1]);
    }
  }

  // ---------------------------------------------------------------- no deadlock

  /** The only nesting is a queue's mutex inside `state_mutex`. */
  lemma Nesting(s: State, t: Thread, held: Lock)
    requires WantedBy(s, t).Wants? && Holds(s, t, held)
    ensures held == StateLock
    ensures WantedBy(s, t).lock == SensorQueueLock || WantedBy(s, t).lock == TelemetryQueueLock
  {
  }

  /** A thread asleep on a queue's condition holds no mutex at all. */
  lemma AsleepHoldsNothing(m: Maths, es: seq<Event>, l: Lock)
    ensures var s := Run(m, es);
      && (s.processor.PAsleep? && l in s.owner ==> s.owner[l] != ProcessorThread)
      && (s.logger.LAsleep? && l in s.owner ==> s.owner[l] != LoggerThread)
  {
    LocksAlwaysAgree(m, es);
    assert !Holds(Run(m, es), ProcessorThread, l) || !Run(m, es).processor.PAsleep?;
    assert !Holds(Run(m, es), LoggerThread, l) || !Run(m, es).logger.LAsleep?;
  }

  /** t is blocked on a mutex that u owns. */
  predicate WaitsFor(s: State, t: Thread, u: Thread) {
    Blocked(s, t) && s.owner[WantedBy(s, t).lock] == u
  }

  /** A chain of waiting is at most two long: whoever is waited for either can
      move, or waits for someone who can. */
  lemma WaitChainEnds(s: State, t: Thread, u: Thread, v: Thread)
    requires LocksAgree(s)
    requires WaitsFor(s, t, u) && WaitsFor(s, u, v)
    ensures !Blocked(s, v)
  {
    var first, second := WantedBy(s, t).lock, WantedBy(s, u).lock;
    assert Holds(s, u, first) && Holds(s, v, second);
    Nesting(s, u, first);
    if Blocked(s, v) {
      Nesting(s, v, second);
      assert false;
    }
  }

  /** In no run is there a cycle of threads each waiting for a mutex owned by the
      next. */
  lemma NoWaitCycle(m: Maths, es: seq<Event>, cycle: seq<Thread>)
    requires cycle != []
    ensures !(forall i :: 0 <= i < |cycle| ==>
                WaitsFor(Run(m, es), cycle[i], cycle[if i + 1 < |cycle| then i + 1 else 0]))
  {
    var s := Run(m, es);
    LocksAlwaysAgree(m, es);
    if forall i :: 0 <= i < |cycle| ==> WaitsFor(s, cycle[i], cycle[if i + 1 < |cycle| then i + 1 else 0]) {
      var one := if 1 < |cycle| then 1 else 0;
      var two := if one + 1 < |cycle| then one + 1 else 0;
      assert WaitsFor(s, cycle[0], cycle[one]);
      assert WaitsFor(s, cycle[one], cycle[two]);
      assert WaitsFor(s, cycle[two], cycle[if two + 1 < |cycle| then two + 1 else 0]);
      WaitChainEnds(s, cycle[0], cycle[one], cycle[two]);
      assert false;
    }
  }

  /** Whenever some thread is blocked, another one owns a mutex and can move. */
  lemma SomeOwnerCanMove(m: Maths, es: seq<Event>, t: Thread) returns (u: Thread, l: Lock)
    requires Blocked(Run(m, es), t)
    ensures var s := Run(m, es); l in s.owner && s.owner[l] == u && !Blocked(s, u)
  {
    var s := Run(m, es);
    LocksAlwaysAgree(m, es);
    l := WantedBy(s, t).lock;
    u := s.owner[l];
    if Blocked(s, u) {
      var k := WantedBy(s, u).lock;
      WaitChainEnds(s, t, u, s.owner[k]);
      l, u := k, s.owner[k];
    }
  }
}

/** What the worker threads of the host simulator do in each round of their loops,
    told from the run alone: how many samples a round makes, that a heartbeat lies
    between any two rounds, how a round of a consumer ends, and which lines are
    written about injected faults. */
module HostRounds {
  import opened CTypes
  import opened HostTime
  import opened HostModel
  import opened HostFrames

  // ---------------------------------------------------------------- what a run shows

  /** Everything the steps of a run show under a mark, in order. */
  ghost function Trace<T>(m: Maths, es: seq<Event>, mark: (State, Event) -> seq<T>): seq<T> {
    if es == [] then []
    else
      var front := es[..|es| - 1];
      Trace(m, front, mark) + mark(Run(m, front), es[|es| - 1])
  }

  /** The threads that run in rounds and report in. */
  function ThreadOf(t: Watched): Thread {
    match t
    case WatchedSensor => SensorThread
    case WatchedProcessor => ProcessorThread
    case WatchedLogger => LoggerThread
  }

  predicate AtLoop(s: State, t: Watched) {
    match t
    case WatchedSensor => s.sensor.SLoop?
    case WatchedProcessor => s.processor.PLoop?
    case WatchedLogger => s.logger.LLoop?
  }

  /** A test of the stop flag by the thread, and its outcome. */
  function Tested(t: Watched, s: State, e: Event): seq<bool> {
    if Mover(e) == ThreadOf(t) && AtLoop(s, t) then [s.stop] else []
  }

  function LoopTest(t: Watched): (State, Event) -> seq<bool> {
    (s: State, e: Event) => Tested(t, s, e)
  }

  /** The fault mode a round of the sensor reads. */
  function ModeRead(s: State, e: Event): seq<FaultMode> {
    if e.SensorStep? && s.sensor.SModeHeld? then [s.fault] else []
  }

  datatype Choice = Choice(mode: FaultMode, sequence: nat)

  /** What the sensor goes by when it chooses its round. */
  function ChoiceMade(s: State, e: Event): seq<Choice> {
    if e.SensorStep? && s.sensor.SChoose? then [Choice(s.sensor.mode, s.sequence)] else []
  }

  /** The sensor's line about an invalid reading. */
  function ReadingNoted(s: State, e: Event): seq<bool> {
    if e.SensorStep? && s.sensor.SLogHeld? then [true] else []
  }

  /** A wait of the processor ends by its timeout. */
  function ProcessorExpired(s: State, e: Event): seq<bool> {
    if e.ProcessorStep? && s.processor.PAsleep? && e.timedOut then [true] else []
  }

  function LoggerExpired(s: State, e: Event): seq<bool> {
    if e.LoggerStep? && s.logger.LAsleep? && e.timedOut then [true] else []
  }

  /** The fault mode the processor reads for a sample. */
  function SampleJudged(s: State, e: Event): seq<Choice> {
    if e.ProcessorStep? && s.processor.PModeHeld? then [Choice(s.fault, s.processor.x.sequence)] else []
  }

  /** The number in the processor's line about a deliberate stall. */
  function StallNoted(s: State, e: Event): seq<nat> {
    if e.ProcessorStep? && s.processor.PLogHeld? then [s.processor.x.sequence] else []
  }

  function CountIn<T>(q: seq<T>, kind: T -> bool): nat {
    if q == [] then 0 else CountIn(q[..|q| - 1], kind) + One(kind(q[|q| - 1]))
  }

  lemma CountSnoc<T>(q: seq<T>, x: T, kind: T -> bool)
    ensures CountIn(q + [x], kind) == CountIn(q, kind) + One(kind(x))
  {
    assert (q + [x])[..|q|] == q;
  }

  function Of(t: Watched): Beat -> bool {
    (b: Beat) => b.task == t
  }

  /** The rounds begun, when these are the outcomes of the loop's tests. */
  function Begun(tests: seq<bool>): nat {
    if tests == [] then 0 else Begun(tests[..|tests| - 1]) + One(!tests[|tests| - 1])
  }

  lemma BegunSnoc(tests: seq<bool>, stopped: bool)
    ensures Begun(tests + [stopped]) == Begun(tests) + One(!stopped)
  {
    assert (tests + [stopped])[..|tests|] == tests;
  }

  // ---------------------------------------------------------------- heartbeats

  /** A heartbeat has been recorded before each test of the loop, and one more if
      the next test is due. */
  ghost predicate BeatsLaw(s: State, t: Watched, tests: seq<bool>) {
    CountIn(s.watch.beaten, Of(t)) == |tests| + One(AtLoop(s, t))
  }

  lemma BeatRecorded(s: State, n: State, t: Watched, u: Watched, now: Timespec, tests: seq<bool>)
    requires BeatsLaw(s, t, tests)
    requires n.watch.beaten == s.watch.beaten + [Beat(u, now)]
    requires !AtLoop(s, u) && AtLoop(n, u) && (t != u ==> AtLoop(n, t) == AtLoop(s, t))
    ensures BeatsLaw(n, t, tests)
  {
    CountSnoc(s.watch.beaten, Beat(u, now), Of(t));
  }

  /** A step of a worker either records its heartbeat and comes to its test, or
      records nothing and comes to no test. */
  ghost predicate ReportsOnce(s: State, n: State, u: Watched, now: Timespec) {
    && (forall t :: t != u ==> AtLoop(n, t) == AtLoop(s, t))
    && if n.watch.beaten != s.watch.beaten then
         n.watch.beaten == s.watch.beaten + [Beat(u, now)] && !AtLoop(s, u) && AtLoop(n, u)
       else !AtLoop(n, u)
  }

  lemma SensorReportsOnce(m: Maths, s: State, now: Timespec)
    requires SensorWants(s.sensor) == Nothing
    ensures ReportsOnce(s, SensorWork(m, s, now), WatchedSensor, now)
  {
    SensorSamplingMoves(m, s, now);
  }

  lemma SensorSamplingMoves(m: Maths, s: State, now: Timespec)
    ensures var n := SensorSampling(m, s, now);
      && n.watch == s.watch && n.processor == s.processor && n.logger == s.logger
      && (n.sensor.SLoop? ==> s.sensor.SLoop?)
  {
    SensorTallyMoves(s);
  }

  lemma SensorTallyMoves(s: State)
    ensures var n := SensorTally(s);
      && n.watch == s.watch && n.processor == s.processor && n.logger == s.logger
      && (n.sensor.SLoop? ==> s.sensor.SLoop?)
  {
    SensorTallyFrame(s);
    SensorTallyPath(s);
  }

  lemma ProcessorReportsOnce(m: Maths, s: State, now: Timespec, late: bool)
    requires ProcessorWants(s.processor) == Nothing
    ensures ReportsOnce(s, ProcessorWork(m, s, now, late), WatchedProcessor, now)
  {
    ProcessorHandlingMoves(m, s, now);
  }

  lemma ProcessorHandlingMoves(m: Maths, s: State, now: Timespec)
    ensures var n := ProcessorHandling(m, s, now);
      && n.watch == s.watch && n.sensor == s.sensor && n.logger == s.logger
      && (n.processor.PLoop? ==> s.processor.PLoop?)
  {
    ProcessorTallyMoves(s);
  }

  lemma ProcessorTallyMoves(s: State)
    ensures var n := ProcessorTally(s);
      && n.watch == s.watch && n.sensor == s.sensor && n.logger == s.logger
      && (n.processor.PLoop? ==> s.processor.PLoop?)
  {
    ProcessorTallyFrame(s);
    ProcessorTallyPath(s);
  }

  lemma LoggerReportsOnce(s: State, now: Timespec, late: bool)
    requires LoggerWants(s.logger) == Nothing
    ensures ReportsOnce(s, LoggerWork(s, now, late), WatchedLogger, now)
  {
  }

  lemma WorkerBeats(s: State, n: State, t: Watched, u: Watched, now: Timespec, tests: seq<bool>)
    requires BeatsLaw(s, t, tests) && ReportsOnce(s, n, u, now)
    ensures BeatsLaw(n, t, if t == u && AtLoop(s, t) then tests + [s.stop] else tests)
  {
    if n.watch.beaten != s.watch.beaten {
      BeatRecorded(s, n, t, u, now, tests);
    }
  }

  lemma GrantComesToNoTest(s: State, t: Thread, l: Lock)
    requires WantedBy(s, t) == Wants(l)
    ensures forall u :: AtLoop(Grant(s, t, l), u) == AtLoop(s, u)
    ensures forall u :: ThreadOf(u) == t ==> !AtLoop(s, u)
  {
  }

  lemma WorkBeats(m: Maths, s: State, e: Event, t: Watched, tests: seq<bool>)
    requires BeatsLaw(s, t, tests) && WantedBy(s, Mover(e)) == Nothing
    ensures BeatsLaw(Work(m, s, e), t, if Mover(e) == ThreadOf(t) && AtLoop(s, t) then tests + [s.stop] else tests)
  {
    match e
    case SensorStep(now) =>
      SensorReportsOnce(m, s, now);
      WorkerBeats(s, SensorWork(m, s, now), t, WatchedSensor, now, tests);
    case ProcessorStep(now, late) =>
      ProcessorReportsOnce(m, s, now, late);
      WorkerBeats(s, ProcessorWork(m, s, now, late), t, WatchedProcessor, now, tests);
    case LoggerStep(now, late) =>
      LoggerReportsOnce(s, now, late);
      WorkerBeats(s, LoggerWork(s, now, late), t, WatchedLogger, now, tests);
    case WatchdogStep(now) => WatchdogFrame(s, now);
    case ControlStep(command) => ControlSpares(s, command);
  }

  lemma BeatsStep(m: Maths, s: State, e: Event, t: Watched, tests: seq<bool>)
    requires BeatsLaw(s, t, tests)
    ensures BeatsLaw(Next(m, s, e), t, tests + Tested(t, s, e))
  {
    assert tests + [] == tests;
    match WantedBy(s, Mover(e))
    case Wants(l) =>
      GrantFrame(s, Mover(e), l);
      GrantComesToNoTest(s, Mover(e), l);
    case Nothing => WorkBeats(m, s, e, t, tests);
  }

  /** In every run each worker records a heartbeat before every test of its loop,
      so one between any two rounds, and none besides. */
  lemma {:induction false} BeatBeforeEachRound(m: Maths, es: seq<Event>, t: Watched)
    ensures BeatsLaw(Run(m, es), t, Trace(m, es, LoopTest(t)))
    decreases |es|
  {
    if es != [] {
      var front := es[..|es| - 1];
      BeatBeforeEachRound(m, front, t);
      BeatsStep(m, Run(m, front), es[|es| - 1], t, Trace(m, front, LoopTest(t)));
    }
  }

  // ---------------------------------------------------------------- samples of a round

  /** An overflow burst makes four samples, any other round one. */
  function Demand(modes: seq<FaultMode>): nat {
    if modes == [] then 0
    else Demand(modes[..|modes| - 1]) + if modes[|modes| - 1] == QueueOverflow then 4 else 1
  }

  lemma DemandSnoc(modes: seq<FaultMode>, mode: FaultMode)
    ensures Demand(modes + [mode]) == Demand(modes) + if mode == QueueOverflow then 4 else 1
  {
    assert (modes + [mode])[..|modes|] == modes;
  }

  /** The round a sample in the making belongs to. */
  function RoundIn(pc: SensorPc): Round {
    match pc
    case SLoad(r) => r
    case SStore(r, _) => r
    case SMakeWait(r, _, _) => r
    case SMakeHeld(r, _, _) => r
    case SPushWait(r, _) => r
    case SPushHeld(r, _) => r
    case SDropWait(r) => r
    case SDropHeld(r) => r
    case SCountWait(r) => r
    case SCountHeld(r) => r
    case SDepthWait(r) => r
    case SDepthHeld(r) => r
    case SDepth2Wait(r) => r
    case SDepth2Held(r) => r
    case SCountLeave(r) => r
    case _ => Single
  }

  /** The samples a burst has left after this one. */
  function LeftAfter(r: Round): int {
    if r.Burst? then 3 - r.i else 0
  }

  /** The samples the round under way has still to number. */
  function Owed(pc: SensorPc): int {
    match pc
    case SChoose(mode) => if mode == QueueOverflow then 4 else 1
    case SBurst(i) => 4 - i
    case SLogWait => 1
    case SLogHeld => 1
    case _ => LeftAfter(RoundIn(pc)) + One(pc.SLoad? || pc.SStore?)
  }

  /** The numbers handed out and still owed are what the rounds begun demand; a
      stop may cut a burst short. */
  ghost predicate IssueLaw(s: State, modes: seq<FaultMode>) {
    && Owed(s.sensor) >= 0 && LeftAfter(RoundIn(s.sensor)) >= 0
    && s.made.issued + Owed(s.sensor) <= Demand(modes)
    && (!s.stop ==> s.made.issued + Owed(s.sensor) == Demand(modes))
  }

  /** Another thread's step. */
  predicate SensorSide(s: State, n: State) {
    n.sensor == s.sensor && n.made == s.made && (s.stop ==> n.stop)
  }

  lemma OthersLeaveSensor(m: Maths, s: State, e: Event)
    requires Mover(e) != SensorThread
    ensures SensorSide(s, Next(m, s, e))
  {
    match WantedBy(s, Mover(e))
    case Wants(l) => GrantFrame(s, Mover(e), l);
    case Nothing =>
      match e
      case ProcessorStep(now, late) => ProcessorFrame(m, s, now, late);
      case LoggerStep(now, late) => LoggerFrame(s, now, late);
      case WatchdogStep(now) => WatchdogFrame(s, now);
      case ControlStep(command) => ControlSpares(s, command);
  }

  lemma TallyOwes(s: State)
    requires SensorWants(s.sensor) == Nothing
    requires Owed(s.sensor) >= 0 && LeftAfter(RoundIn(s.sensor)) >= 0
    ensures var n := SensorTally(s);
      && Owed(n.sensor) == Owed(s.sensor) && LeftAfter(RoundIn(n.sensor)) >= 0
      && n.made == s.made && n.stop == s.stop
  {
    SensorTallyFrame(s);
    SensorTallyPath(s);
  }

  lemma SamplingOwes(m: Maths, s: State, now: Timespec)
    requires SensorWants(s.sensor) == Nothing
    requires Owed(s.sensor) >= 0 && LeftAfter(RoundIn(s.sensor)) >= 0
    ensures var n := SensorSampling(m, s, now);
      && Owed(n.sensor) + n.made.issued == Owed(s.sensor) + s.made.issued
      && Owed(n.sensor) >= 0 && LeftAfter(RoundIn(n.sensor)) >= 0 && n.stop == s.stop
  {
    TallyOwes(s);
  }

  /** Between the mode read and the first number of a round. */
  predicate ChoosesRound(pc: SensorPc) {
    pc.SBeatHeld? || pc.SLoop? || pc.SChoose? || pc.SBurst? || pc.SLogHeld?
  }

  lemma ChoiceOwes(m: Maths, s: State, now: Timespec)
    requires ChoosesRound(s.sensor) && Owed(s.sensor) >= 0
    ensures var n := SensorWork(m, s, now);
      && 0 <= Owed(n.sensor) <= Owed(s.sensor) && (!s.stop ==> Owed(n.sensor) == Owed(s.sensor))
      && LeftAfter(RoundIn(n.sensor)) >= 0 && n.made == s.made && n.stop == s.stop
  {
  }

  lemma SensorIssues(m: Maths, s: State, now: Timespec, modes: seq<FaultMode>)
    requires IssueLaw(s, modes) && SensorWants(s.sensor) == Nothing
    ensures IssueLaw(SensorWork(m, s, now), modes + ModeRead(s, SensorStep(now)))
  {
    assert modes + [] == modes;
    if s.sensor.SModeHeld? {
      DemandSnoc(modes, s.fault);
    } else if ChoosesRound(s.sensor) {
      ChoiceOwes(m, s, now);
    } else {
      SamplingOwes(m, s, now);
    }
  }

  lemma GrantOwes(pc: SensorPc)
    requires SensorWants(pc).Wants?
    ensures Owed(SensorGranted(pc)) == Owed(pc) && RoundIn(SensorGranted(pc)) == RoundIn(pc)
    ensures !pc.SModeHeld?
  {
  }

  lemma IssueStep(m: Maths, s: State, e: Event, modes: seq<FaultMode>)
    requires IssueLaw(s, modes)
    ensures IssueLaw(Next(m, s, e), modes + ModeRead(s, e))
  {
    assert modes + [] == modes;
    if e.SensorStep? {
      match WantedBy(s, SensorThread)
      case Wants(l) =>
        GrantFrame(s, SensorThread, l);
        GrantOwes(s.sensor);
      case Nothing => SensorIssues(m, s, e.now, modes);
    } else {
      OthersLeaveSensor(m, s, e);
    }
  }

  lemma {:induction false} IssueHolds(m: Maths, es: seq<Event>)
    ensures IssueLaw(Run(m, es), Trace(m, es, ModeRead))
    decreases |es|
  {
    if es != [] {
      var front := es[..|es| - 1];
      IssueHolds(m, front);
      IssueStep(m, Run(m, front), es[|es| - 1], Trace(m, front, ModeRead));
    }
  }

  /** Until a stop, whenever the sensor is about to test the stop flag its rounds
      have numbered exactly four samples for each overflow they read and one for
      every other mode; a stop can only leave out some. */
  lemma RoundsMakeTheirSamples(m: Maths, es: seq<Event>)
    requires Run(m, es).sensor.SLoop? || Run(m, es).sensor.SDone?
    ensures Run(m, es).made.issued <= Demand(Trace(m, es, ModeRead))
    ensures !Run(m, es).stop ==> Run(m, es).made.issued == Demand(Trace(m, es, ModeRead))
  {
    IssueHolds(m, es);
  }

  // ---------------------------------------------------------------- lines about a failed sensor

  /** A choice that calls for the line about an invalid reading. */
  predicate CallsForLine(c: Choice) {
    c.mode == SensorFailure && c.sequence % 10 == 0
  }

  /** Each round is chosen by the mode it has read, and the line is written in just
      the rounds that call for it. */
  ghost predicate NotesLaw(s: State, modes: seq<FaultMode>, choices: seq<Choice>, notes: seq<bool>) {
    && |modes| == |choices| + One(s.sensor.SChoose?)
    && (forall i :: 0 <= i < |choices| ==> choices[i].mode == modes[i])
    && (s.sensor.SChoose? ==> modes[|choices|] == s.sensor.mode)
    && |notes| + One(s.sensor.SLogWait? || s.sensor.SLogHeld?) == CountIn(choices, CallsForLine)
  }

  lemma SamplingNotesNothing(m: Maths, s: State, now: Timespec)
    requires !s.sensor.SChoose? && !s.sensor.SLogWait? && !s.sensor.SLogHeld?
    ensures var pc := SensorSampling(m, s, now).sensor; !pc.SChoose? && !pc.SLogWait? && !pc.SLogHeld?
  {
    TallyNotesNothing(s);
  }

  lemma TallyNotesNothing(s: State)
    requires !s.sensor.SChoose? && !s.sensor.SLogWait? && !s.sensor.SLogHeld?
    ensures var pc := SensorTally(s).sensor; !pc.SChoose? && !pc.SLogWait? && !pc.SLogHeld?
  {
    SensorTallyPath(s);
  }

  lemma SensorNotes(m: Maths, s: State, now: Timespec,
                    modes: seq<FaultMode>, choices: seq<Choice>, notes: seq<bool>)
    requires NotesLaw(s, modes, choices, notes) && SensorWants(s.sensor) == Nothing
    ensures var e := SensorStep(now);
      NotesLaw(SensorWork(m, s, now), modes + ModeRead(s, e), choices + ChoiceMade(s, e), notes + ReadingNoted(s, e))
  {
    assert choices + [] == choices && modes + [] == modes && notes + [] == notes;
    if s.sensor.SChoose? {
      CountSnoc(choices, Choice(s.sensor.mode, s.sequence), CallsForLine);
    } else if !s.sensor.SLogHeld? {
      SamplingNotesNothing(m, s, now);
    }
  }

  lemma NotesStep(m: Maths, s: State, e: Event, modes: seq<FaultMode>, choices: seq<Choice>, notes: seq<bool>)
    requires NotesLaw(s, modes, choices, notes)
    ensures NotesLaw(Next(m, s, e), modes + ModeRead(s, e), choices + ChoiceMade(s, e), notes + ReadingNoted(s, e))
  {
    assert choices + [] == choices && modes + [] == modes && notes + [] == notes;
    if e.SensorStep? {
      match WantedBy(s, SensorThread)
      case Wants(l) =>
      case Nothing => SensorNotes(m, s, e.now, modes, choices, notes);
    } else {
      OthersLeaveSensor(m, s, e);
    }
  }

  /** In every run the sensor writes its line about an invalid reading in exactly
      the rounds that read a sensor failure and found the number last handed out
      divisible by ten. */
  lemma {:induction false} FailureLinesWritten(m: Maths, es: seq<Event>)
    ensures NotesLaw(Run(m, es), Trace(m, es, ModeRead), Trace(m, es, ChoiceMade), Trace(m, es, ReadingNoted))
    decreases |es|
  {
    if es != [] {
      var front := es[..|es| - 1];
      FailureLinesWritten(m, front);
      NotesStep(m, Run(m, front), es[|es| - 1],
                Trace(m, front, ModeRead), Trace(m, front, ChoiceMade), Trace(m, front, ReadingNoted));
    }
  }

  // ---------------------------------------------------------------- how a consumer's round ends

  /** The processor is in `queue_pop` and no wait has timed out. */
  predicate Popping(pc: ProcessorPc) {
    pc.PPopWait? || pc.PPopHeld? || pc.PAsleep? || (pc.PWakeWait? && !pc.timedOut)
  }

  /** Every round begun has popped a sample, or has given up after a wait that
      timed out, or is still popping; each sample popped is judged once. */
  ghost predicate PopsLaw(s: State, tests: seq<bool>, expired: seq<bool>) {
    Begun(tests) == s.processed.popped + |expired| + One(Popping(s.processor))
  }

  /** The sample a stall may be injected for. */
  predicate Judging(pc: ProcessorPc) {
    pc.PModeWait? || pc.PModeHeld?
  }

  /** The numbers of the samples that call for a stall. */
  function Stalled(judged: seq<Choice>): seq<nat> {
    if judged == [] then []
    else
      var c := judged[|judged| - 1];
      Stalled(judged[..|judged| - 1]) + if c.mode == ProcessStall && c.sequence % 8 == 0 then [c.sequence] else []
  }

  lemma StalledSnoc(judged: seq<Choice>, c: Choice)
    ensures Stalled(judged + [c])
      == Stalled(judged) + if c.mode == ProcessStall && c.sequence % 8 == 0 then [c.sequence] else []
  {
    assert (judged + [c])[..|judged|] == judged;
  }

  function StallDue(pc: ProcessorPc): seq<nat> {
    if pc.PLogWait? || pc.PLogHeld? then [pc.x.sequence] else []
  }

  ghost predicate StallLaw(s: State, judged: seq<Choice>, noted: seq<nat>) {
    && |judged| + One(Judging(s.processor)) == s.processed.popped
    && Stalled(judged) == noted + StallDue(s.processor)
  }

  predicate ProcessorSide(s: State, n: State) {
    n.processor == s.processor && n.processed == s.processed
  }

  lemma OthersLeaveProcessor(m: Maths, s: State, e: Event)
    requires Mover(e) != ProcessorThread
    ensures ProcessorSide(s, Next(m, s, e))
  {
    match WantedBy(s, Mover(e))
    case Wants(l) => GrantFrame(s, Mover(e), l);
    case Nothing =>
      match e
      case SensorStep(now) => SensorFrame(m, s, now);
      case LoggerStep(now, late) => LoggerFrame(s, now, late);
      case WatchdogStep(now) => WatchdogFrame(s, now);
      case ControlStep(command) => ControlSpares(s, command);
  }

  /** Handling and counting a frame pops nothing, and comes to a stall's line only
      from the judgement. */
  lemma HandlingPopsNothing(m: Maths, s: State, now: Timespec)
    requires ProcessorWants(s.processor) == Nothing && !Popping(s.processor)
    ensures var n := ProcessorHandling(m, s, now);
      && n.processed.popped == s.processed.popped && !Popping(n.processor) && !Judging(n.processor)
      && (!s.processor.PModeHeld? && !s.processor.PLogHeld? ==> StallDue(n.processor) == [])
  {
    ProcessorHandlingFrame(m, s, now);
    HandlingPath(m, s, now);
  }

  lemma HandlingPath(m: Maths, s: State, now: Timespec)
    requires ProcessorWants(s.processor) == Nothing && !Popping(s.processor)
    ensures var pc := ProcessorHandling(m, s, now).processor;
      && !Popping(pc) && !Judging(pc)
      && (!s.processor.PModeHeld? && !s.processor.PLogHeld? ==> StallDue(pc) == [])
  {
    ProcessorTallyPath(s);
  }

  lemma ProcessorPops(m: Maths, s: State, now: Timespec, late: bool, tests: seq<bool>, expired: seq<bool>)
    requires PopsLaw(s, tests, expired) && ProcessorWants(s.processor) == Nothing
    ensures var e := ProcessorStep(now, late);
      PopsLaw(ProcessorWork(m, s, now, late),
              tests + Tested(WatchedProcessor, s, e), expired + ProcessorExpired(s, e))
  {
    assert tests + [] == tests && expired + [] == expired;
    if s.processor.PLoop? {
      BegunSnoc(tests, s.stop);
    } else if !Popping(s.processor) && !s.processor.PTimedOut? && !s.processor.PBeatHeld? {
      HandlingPopsNothing(m, s, now);
    }
  }

  lemma GrantPops(s: State, l: Lock)
    requires ProcessorWants(s.processor) == Wants(l)
    ensures var pc := ProcessorGranted(s.processor);
      && Popping(pc) == Popping(s.processor) && Judging(pc) == Judging(s.processor)
      && StallDue(pc) == StallDue(s.processor)
  {
  }

  lemma PopsStep(m: Maths, s: State, e: Event, tests: seq<bool>, expired: seq<bool>)
    requires PopsLaw(s, tests, expired)
    ensures PopsLaw(Next(m, s, e), tests + Tested(WatchedProcessor, s, e), expired + ProcessorExpired(s, e))
  {
    assert tests + [] == tests && expired + [] == expired;
    if e.ProcessorStep? {
      match WantedBy(s, ProcessorThread)
      case Wants(l) => GrantPops(s, l);
      case Nothing => ProcessorPops(m, s, e.now, e.timedOut, tests, expired);
    } else {
      OthersLeaveProcessor(m, s, e);
    }
  }

  /** In every run each round of the processor pops one sample or gives up after
      one wait that timed out, even if an item has arrived by then; only the round
      under way may still be popping. */
  lemma {:induction false} ProcessorRoundsEnd(m: Maths, es: seq<Event>)
    ensures PopsLaw(Run(m, es), Trace(m, es, LoopTest(WatchedProcessor)), Trace(m, es, ProcessorExpired))
    decreases |es|
  {
    if es != [] {
      var front := es[..|es| - 1];
      ProcessorRoundsEnd(m, front);
      PopsStep(m, Run(m, front), es[|es| - 1],
               Trace(m, front, LoopTest(WatchedProcessor)), Trace(m, front, ProcessorExpired));
    }
  }

  lemma ProcessorStalls(m: Maths, s: State, now: Timespec, late: bool, judged: seq<Choice>, noted: seq<nat>)
    requires StallLaw(s, judged, noted) && ProcessorWants(s.processor) == Nothing
    ensures var e := ProcessorStep(now, late);
      StallLaw(ProcessorWork(m, s, now, late), judged + SampleJudged(s, e), noted + StallNoted(s, e))
  {
    assert judged + [] == judged && noted + [] == noted;
    if s.processor.PModeHeld? {
      StalledSnoc(judged, Choice(s.fault, s.processor.x.sequence));
    } else if !Popping(s.processor) && !s.processor.PTimedOut? && !s.processor.PBeatHeld? && !s.processor.PLoop? {
      HandlingPopsNothing(m, s, now);
    }
  }

  lemma StallStep(m: Maths, s: State, e: Event, judged: seq<Choice>, noted: seq<nat>)
    requires StallLaw(s, judged, noted)
    ensures StallLaw(Next(m, s, e), judged + SampleJudged(s, e), noted + StallNoted(s, e))
  {
    assert judged + [] == judged && noted + [] == noted;
    if e.ProcessorStep? {
      match WantedBy(s, ProcessorThread)
      case Wants(l) => GrantPops(s, l);
      case Nothing => ProcessorStalls(m, s, e.now, e.timedOut, judged, noted);
    } else {
      OthersLeaveProcessor(m, s, e);
    }
  }

  /** In every run each sample popped is judged once, and the samples announced as
      stalled are, in order, those judged under a processing stall whose number is
      divisible by eight. */
  lemma {:induction false} StallsInjected(m: Maths, es: seq<Event>)
    ensures StallLaw(Run(m, es), Trace(m, es, SampleJudged), Trace(m, es, StallNoted))
    decreases |es|
  {
    if es != [] {
      var front := es[..|es| - 1];
      StallsInjected(m, front);
      StallStep(m, Run(m, front), es[|es| - 1], Trace(m, front, SampleJudged), Trace(m, front, StallNoted));
    }
  }

  /** The logger is in `queue_pop` and no wait has timed out. */
  predicate LoggerPopping(pc: LoggerPc) {
    pc.LPopWait? || pc.LPopHeld? || pc.LAsleep? || (pc.LWakeWait? && !pc.timedOut)
  }

  ghost predicate TakesLaw(s: State, tests: seq<bool>, expired: seq<bool>) {
    Begun(tests) == s.logged.taken + |expired| + One(LoggerPopping(s.logger))
  }

  lemma OthersLeaveLogger(m: Maths, s: State, e: Event)
    requires Mover(e) != LoggerThread
    ensures Next(m, s, e).logger == s.logger && Next(m, s, e).logged == s.logged
  {
    match WantedBy(s, Mover(e))
    case Wants(l) => GrantFrame(s, Mover(e), l);
    case Nothing =>
      match e
      case SensorStep(now) => SensorFrame(m, s, now);
      case ProcessorStep(now, late) => ProcessorFrame(m, s, now, late);
      case WatchdogStep(now) => WatchdogFrame(s, now);
      case ControlStep(command) => ControlSpares(s, command);
  }

  lemma LoggerTakes(s: State, now: Timespec, late: bool, tests: seq<bool>, expired: seq<bool>)
    requires TakesLaw(s, tests, expired) && LoggerWants(s.logger) == Nothing
    ensures var e := LoggerStep(now, late);
      TakesLaw(LoggerWork(s, now, late), tests + Tested(WatchedLogger, s, e), expired + LoggerExpired(s, e))
  {
    assert tests + [] == tests && expired + [] == expired;
    if s.logger.LLoop? {
      BegunSnoc(tests, s.stop);
    }
  }

  lemma TakesStep(m: Maths, s: State, e: Event, tests: seq<bool>, expired: seq<bool>)
    requires TakesLaw(s, tests, expired)
    ensures TakesLaw(Next(m, s, e), tests + Tested(WatchedLogger, s, e), expired + LoggerExpired(s, e))
  {
    assert tests + [] == tests && expired + [] == expired;
    if e.LoggerStep? {
      match WantedBy(s, LoggerThread)
      case Wants(l) =>
      case Nothing => LoggerTakes(s, e.now, e.timedOut, tests, expired);
    } else {
      OthersLeaveLogger(m, s, e);
    }
  }

  /** The same of the logger: each round takes one frame or gives up after one wait
      that timed out. */
  lemma {:induction false} LoggerRoundsEnd(m: Maths, es: seq<Event>)
    ensures TakesLaw(Run(m, es), Trace(m, es, LoopTest(WatchedLogger)), Trace(m, es, LoggerExpired))
    decreases |es|
  {
    if es != [] {
      var front := es[..|es| - 1];
      LoggerRoundsEnd(m, front);
      TakesStep(m, Run(m, front), es[|es| - 1],
                Trace(m, front, LoopTest(WatchedLogger)), Trace(m, front, LoggerExpired));
    }
  }
}

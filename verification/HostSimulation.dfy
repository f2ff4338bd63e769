/** Running the host simulator's object under any schedule. */
module HostSimulation {
  import opened HostModel
  import opened EcuSimObject
  import HostLocks
  import HostCounts
  import HostSnapshot
  import HostLog
  import HostWatchdog
  import HostLooks
  import HostCommands
  import opened HostRounds

  /** A whole run of a new simulator, on its ring buffers and arrays: it ends in the
      state of the machine, so all that holds of the machine's runs holds of the
      object. */
  method Simulate(maths: Maths, schedule: seq<Event>) returns (sim: EcuSim)
    ensures fresh(sim) && sim.Valid() && sim.View() == Run(maths, schedule)
    ensures HostLocks.LocksAgree(sim.View()) && HostCounts.Counts(sim.View())
    ensures HostSnapshot.CopyLaw(sim.View()) && HostSnapshot.ReportLaw(sim.View())
    ensures HostLog.LogLaw(maths, sim.View()) && HostWatchdog.WatchLaws(sim.View())
    ensures HostLooks.LooksLaw(sim.View(), Trace(maths, schedule, HostLooks.WatchTest),
                               Trace(maths, schedule, HostLooks.LookDone))
    ensures IssueLaw(sim.View(), Trace(maths, schedule, ModeRead))
    ensures HostCommands.FaultLaw(sim.View(), Trace(maths, schedule, HostCommands.Accepted))
  {
    sim := new EcuSim(maths);
    for i := 0 to |schedule|
      invariant sim.maths == maths && sim.Valid()
      invariant fresh(sim) && fresh(sim.buffers.Parts())
      invariant sim.View() == Run(maths, schedule[..i])
    {
      assert schedule[..i + 1][..i] == schedule[..i];
      sim.Step(schedule[i]);
    }
    assert schedule[..|schedule|] == schedule;
    HostLocks.LocksAlwaysAgree(maths, schedule);
    HostCounts.CountsHold(maths, schedule);
    HostSnapshot.SnapshotsHold(maths, schedule);
    HostLog.LogLawHolds(maths, schedule);
    HostWatchdog.WatchHolds(maths, schedule);
    HostLooks.LooksHold(maths, schedule);
    IssueHolds(maths, schedule);
    HostCommands.FaultIsAsked(maths, schedule);
  }
}

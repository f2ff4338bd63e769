/** The event-group watchdog of both firmware builds: tasks set their bit, a
    monitor waits for all bits and clears them when it has seen them all. */
module Heartbeat {
  import opened CTypes

  /** The three monitored tasks, in the order of their event bits. */
  datatype Task = SensorTask | ProcessorTask | OutputTask

  const ALL := {SensorTask, ProcessorTask, OutputTask}

  /** What happens to the event group: a task reports in, a wait of the monitor
      comes back, or a reset clears every bit. */
  datatype Signal = Beat(task: Task) | WaitEnds | ClearBits

  function Bits(es: seq<Signal>): set<Task> {
    if es == [] then {}
    else
      var before := Bits(es[..|es| - 1]);
      match es[|es| - 1]
      case Beat(t) => before + {t}
      case WaitEnds => if before == ALL then {} else before
      case ClearBits => {}
  }

  /** The wait at position i returned with every bit set. */
  predicate Healthy(es: seq<Signal>, i: nat)
    requires i < |es|
  {
    es[i] == WaitEnds && Bits(es[..i]) == ALL
  }

  function HealthyCount(es: seq<Signal>): nat {
    if es == [] then 0
    else HealthyCount(es[..|es| - 1]) + One(Healthy(es, |es| - 1))
  }

  function Count(es: seq<Signal>, e: Signal): nat {
    if es == [] then 0
    else Count(es[..|es| - 1], e) + One(es[|es| - 1] == e)
  }

  lemma CountSnoc(es: seq<Signal>, e: Signal)
    ensures forall f :: Count(es + [e], f) == Count(es, f) + One(e == f)
  {
    assert (es + [e])[..|es|] == es;
  }

  lemma HealthySnoc(es: seq<Signal>, e: Signal)
    ensures HealthyCount(es + [e]) == HealthyCount(es) + One(e == WaitEnds && Bits(es) == ALL)
  {
    assert (es + [e])[..|es|] == es;
  }

  /** No healthy verdict and no reset in positions from..|es|. */
  ghost predicate Kept(es: seq<Signal>, from: nat) {
    forall i :: from <= i < |es| ==> es[i] != ClearBits && !Healthy(es, i)
  }

  /** The task reported in at position k and nothing has cleared its bit since. */
  ghost predicate BeatStands(es: seq<Signal>, t: Task, k: nat) {
    k < |es| && es[k] == Beat(t) && Kept(es, k + 1)
  }

  lemma KeptPrefix(es: seq<Signal>, from: nat)
    requires es != [] && from < |es|
    ensures var front := es[..|es| - 1];
      Kept(es, from) <==> Kept(front, from) && es[|es| - 1] != ClearBits && !Healthy(es, |es| - 1)
  {
    var front := es[..|es| - 1];
    forall i | 0 <= i < |front|
      ensures es[i] == front[i] && (Healthy(es, i) <==> Healthy(front, i))
    {
      assert es[..i] == front[..i];
    }
  }

  /** A bit is set exactly when its task has reported in since the bits were last
      cleared: timeouts never lose a bit, healthy verdicts always take them all. */
  lemma {:induction false} BitMeansBeat(es: seq<Signal>, t: Task)
    ensures t in Bits(es) <==> exists k: nat :: BeatStands(es, t, k)
    decreases |es|
  {
    if es == [] {
    } else {
      var n := |es| - 1;
      var front := es[..n];
      BitMeansBeat(front, t);
      forall k | 0 <= k < n
        ensures BeatStands(es, t, k) <==>
          BeatStands(front, t, k) && es[n] != ClearBits && !Healthy(es, n)
      {
        if k + 1 < |es| {
          KeptPrefix(es, k + 1);
        }
      }
      if es[n] == Beat(t) {
        assert BeatStands(es, t, n);
      } else if t in Bits(es) {
        assert t in Bits(front);
        var k: nat :| BeatStands(front, t, k);
        assert BeatStands(es, t, k);
      }
    }
  }

  /** Between two healthy verdicts every task has reported in. */
  lemma HealthyMeansAllBeat(es: seq<Signal>, i: nat, j: nat, t: Task)
    requires i < j < |es| && Healthy(es, i) && Healthy(es, j)
    ensures exists k :: i < k < j && es[k] == Beat(t)
  {
    var before := es[..j];
    BitMeansBeat(before, t);
    assert t in ALL;
    var k: nat :| BeatStands(before, t, k);
    assert before[..i] == es[..i];
    assert Healthy(before, i);
    assert es[k] == Beat(t);
  }

  /** Healthy verdicts never outnumber the reports of any one task; while its
      bit is set the task is one ahead. */
  lemma {:induction false} HealthyBounded(es: seq<Signal>, t: Task)
    ensures HealthyCount(es) + One(t in Bits(es)) <= Count(es, Beat(t))
    decreases |es|
  {
    if es != [] {
      var n := |es| - 1;
      HealthyBounded(es[..n], t);
      assert t in ALL;
    }
  }

  lemma {:induction false} HealthyAtMostWaits(es: seq<Signal>)
    ensures HealthyCount(es) <= Count(es, WaitEnds)
    decreases |es|
  {
    if es != [] {
      HealthyAtMostWaits(es[..|es| - 1]);
    }
  }

  /** The lm3s monitor: its event group and its static counters. */
  class HealthMonitor {
    var bits: set<Task>
    var warnings: nat
    const beatCount: array<nat>
    ghost var history: seq<Signal>

    ghost predicate Valid()
      reads this, beatCount
    {
      && beatCount.Length == 3
      && bits == Bits(history)
      && beatCount[0] == beatCount[1] == beatCount[2] == HealthyCount(history)
      && HealthyCount(history) + warnings == Count(history, WaitEnds)
    }

    constructor ()
      ensures Valid() && fresh(beatCount) && history == []
    {
      bits, warnings, history := {}, 0, [];
      beatCount := new nat[3](_ => 0);
    }

    method SetBit(t: Task)
      requires Valid()
      modifies this
      ensures Valid() && history == old(history) + [Beat(t)]
    {
      bits := bits + {t};
      history := history + [Beat(t)];
      assert history[..|history| - 1] == old(history);
    }

    /** `xEventGroupWaitBits` for all bits, clearing them when they are all there. */
    method WaitBits() returns (seen: set<Task>)
      modifies this`bits
      ensures seen == old(bits)
      ensures bits == if seen == ALL then {} else seen
    {
      seen := bits;
      if seen == ALL {
        bits := {};
      }
    }

    /** One pass of `health_monitor_task`. */
    method Pass()
      requires Valid()
      modifies this, beatCount
      ensures Valid() && history == old(history) + [WaitEnds]
      ensures if old(bits) == ALL
        then beatCount[0] == old(beatCount[0]) + 1 && warnings == old(warnings)
        else beatCount[0] == old(beatCount[0]) && warnings == old(warnings) + 1
    {
      var seen := WaitBits();
      if seen == ALL {
        beatCount[0] := beatCount[0] + 1;
        beatCount[1] := beatCount[1] + 1;
        beatCount[2] := beatCount[2] + 1;
      } else {
        warnings := warnings + 1;
      }
      history := history + [WaitEnds];
      assert history[..|history| - 1] == old(history);
    }
  }
}

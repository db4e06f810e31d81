/**
 * The per-service-type uncertainty analysis: it tracks the highest
 * throughput seen among a service type's workers and rebuilds its fuzzy
 * inference system over the universe `0 .. max capacity` whenever that
 * maximum grows.
 */
module UAAnalysis {
  import opened Wrappers
  import opened Workers
  import opened FuzzyRules

  /** `np.arange(0, n + 1, 1)`: the integers `0 .. n`, empty when `n < 0`. */
  function Universe(n: int): (u: seq<int>)
    ensures |u| == if n >= 0 then n + 1 else 0
    ensures forall i :: 0 <= i < |u| ==> u[i] == i
  {
    seq(if n >= 0 then n + 1 else 0, i => i)
  }

  /** `ctrl.ControlSystem(rules)` over the two antecedents' and the consequent's universes. */
  datatype FuzzySystem = FuzzySystem(serviceUniverse: seq<int>, usageUniverse: seq<int>, rules: seq<Rule>)

  /** `ctrl.ControlSystemSimulation(fis)` */
  datatype Simulation = Simulation(system: FuzzySystem)

  /** The crisp inputs handed to the simulation by `calculate_worker_usage`. */
  datatype UsageInputs = UsageInputs(maxCapacity: int, queueSize: int)

  /** The running maximum of the workers' throughputs, a missing one read as 0.0. */
  function MaxThroughput(m: real, ws: seq<(string, Worker)>): real
    decreases |ws|
  {
    if ws == [] then m
    else
      var n := |ws| - 1;
      var before := MaxThroughput(m, ws[..n]);
      if ThroughputOrZero(ws[n].1) > before then ThroughputOrZero(ws[n].1) else before
  }

  /**
   * The running maximum is an upper bound of the start value and of every
   * worker's throughput, and it is one of them.
   */
  lemma {:induction false} MaxThroughputIsMax(m: real, ws: seq<(string, Worker)>)
    ensures MaxThroughput(m, ws) >= m
    ensures forall k :: 0 <= k < |ws| ==> MaxThroughput(m, ws) >= ThroughputOrZero(ws[k].1)
    ensures MaxThroughput(m, ws) == m || exists k :: 0 <= k < |ws| && MaxThroughput(m, ws) == ThroughputOrZero(ws[k].1)
    decreases |ws|
  {
    if ws != [] {
      var n := |ws| - 1;
      MaxThroughputIsMax(m, ws[..n]);
      forall k | 0 <= k < n ensures ws[..n][k] == ws[k] { }
    }
  }

  /** The maximum grows exactly when some worker's throughput exceeds the start value. */
  lemma MaxThroughputGrows(m: real, ws: seq<(string, Worker)>)
    ensures MaxThroughput(m, ws) > m <==> exists k :: 0 <= k < |ws| && ThroughputOrZero(ws[k].1) > m
  {
    MaxThroughputIsMax(m, ws);
  }

  /** A larger start value never gives a smaller maximum. */
  lemma {:induction false} MaxThroughputMonotone(m1: real, m2: real, ws: seq<(string, Worker)>)
    requires m1 <= m2
    ensures MaxThroughput(m1, ws) <= MaxThroughput(m2, ws)
    decreases |ws|
  {
    if ws != [] {
      MaxThroughputMonotone(m1, m2, ws[..|ws| - 1]);
    }
  }

  /** `math.floor(sw_max_throughput * adaptation_delta)` */
  function MaxCapacity(maxThroughput: real, delta: int): int {
    (maxThroughput * delta as real).Floor
  }

  /** A larger maximum throughput never gives a smaller maximum capacity. */
  lemma CapacityMonotone(m1: real, m2: real, delta: int)
    requires m1 <= m2 && delta >= 0
    ensures MaxCapacity(m1, delta) <= MaxCapacity(m2, delta)
  {
    var d := delta as real;
    assert m1 * d <= m2 * d by {
      assert (m2 - m1) * d >= 0.0;
    }
  }

  /**
   * `min(queue_size, sw_max_cap)`: the queue size fed to the simulation is
   * clamped to the largest capacity the universe covers. The ensures make
   * it the minimum of the two.
   */
  function QueueSizeCeil(queueSize: int, swMaxCap: int): (c: int)
    ensures c <= queueSize && c <= swMaxCap
    ensures c == queueSize || c == swMaxCap
  {
    if queueSize <= swMaxCap then queueSize else swMaxCap
  }

  class UAServiceAnalysis {
    /** `parent_service.adaptation_delta` */
    const adaptationDelta: int
    const serviceType: string
    var fis: Option<FuzzySystem>
    var sim: Option<Simulation>
    var swMaxThroughput: real
    var swMaxCap: int
    var serviceUniverse: Option<seq<int>>
    /** `np.arange(0, 100 + 1, 1)` */
    const usageUniverse: seq<int>
    var hasChanged: bool
    var rules: seq<Rule>

    /** The system built for a maximum capacity. */
    function SystemFor(cap: int): FuzzySystem
      reads this
    {
      FuzzySystem(Universe(cap), usageUniverse, RuleBase())
    }

    /**
     * Once built, the system matches the tracked maximum: its universe is
     * `0 .. sw_max_cap`, with `sw_max_cap = floor(sw_max_throughput * delta)`.
     */
    ghost predicate Valid()
      reads this
    {
      && usageUniverse == Universe(100)
      && swMaxThroughput >= 0.0
      && !hasChanged
      && (fis.Some? ==>
        && swMaxCap == MaxCapacity(swMaxThroughput, adaptationDelta)
        && serviceUniverse == Some(Universe(swMaxCap))
        && rules == RuleBase()
        && fis == Some(SystemFor(swMaxCap))
        && sim == Some(Simulation(fis.value)))
      && (fis.None? ==> sim.None? && swMaxThroughput == 0.0 && swMaxCap == 0 && serviceUniverse.None?)
    }

    constructor (parentAdaptationDelta: int, serviceType: string)
      ensures Valid()
      ensures adaptationDelta == parentAdaptationDelta && this.serviceType == serviceType
      ensures fis == None && sim == None && serviceUniverse == None
      ensures swMaxThroughput == 0.0 && swMaxCap == 0 && !hasChanged
    {
      adaptationDelta := parentAdaptationDelta;
      this.serviceType := serviceType;
      fis := None;
      sim := None;
      swMaxThroughput := 0.0;
      swMaxCap := 0;
      serviceUniverse := None;
      usageUniverse := Universe(100);
      hasChanged := false;
      rules := [];
    }

    /**
     * `setup_from_workers`: raise the tracked maximum throughput to the
     * workers' highest; only when it strictly grew, recompute the maximum
     * capacity and its universe and rebuild the system.
     */
    method SetupFromWorkers(workers: seq<(string, Worker)>)
      requires Valid()
      modifies this
      ensures Valid()
      ensures swMaxThroughput == MaxThroughput(old(swMaxThroughput), workers)
      ensures swMaxThroughput > old(swMaxThroughput) ==>
        && swMaxCap == MaxCapacity(swMaxThroughput, adaptationDelta)
        && serviceUniverse == Some(Universe(swMaxCap))
        && fis == Some(SystemFor(swMaxCap))
      ensures swMaxThroughput == old(swMaxThroughput) ==>
        && swMaxCap == old(swMaxCap) && serviceUniverse == old(serviceUniverse)
        && fis == old(fis) && sim == old(sim) && rules == old(rules)
      ensures swMaxThroughput >= old(swMaxThroughput)
      ensures adaptationDelta >= 0 ==> swMaxCap >= old(swMaxCap)
      ensures !hasChanged
    {
      ghost var m0 := swMaxThroughput;
      assert swMaxCap == MaxCapacity(m0, adaptationDelta) by {
        if fis.None? {
          assert m0 * adaptationDelta as real == 0.0;
        }
      }
      hasChanged := false;
      for k := 0 to |workers|
        invariant swMaxThroughput == MaxThroughput(m0, workers[..k])
        invariant hasChanged <==> swMaxThroughput > m0
        invariant swMaxThroughput >= m0
        invariant swMaxCap == old(swMaxCap) && serviceUniverse == old(serviceUniverse)
        invariant fis == old(fis) && sim == old(sim) && rules == old(rules)
      {
        assert workers[..k + 1][..k] == workers[..k];
        var throughput := ThroughputOrZero(workers[k].1);
        if throughput > swMaxThroughput {
          swMaxThroughput := throughput;
          hasChanged := true;
        }
      }
      assert workers[..|workers|] == workers;
      if hasChanged {
        if adaptationDelta >= 0 {
          CapacityMonotone(m0, swMaxThroughput, adaptationDelta);
        }
        swMaxCap := MaxCapacity(swMaxThroughput, adaptationDelta);
        serviceUniverse := Some(Universe(swMaxCap));
        fis := None;
        sim := None;
        BuildFis();
        BuildSim();
        hasChanged := false;
      }
    }

    /** `build_fis`: the rule base over the current service universe. */
    method BuildFis()
      requires serviceUniverse.Some?
      modifies this`rules, this`fis
      ensures rules == RuleBase()
      ensures fis == Some(FuzzySystem(serviceUniverse.value, usageUniverse, RuleBase()))
    {
      rules := RuleBase();
      fis := Some(FuzzySystem(serviceUniverse.value, usageUniverse, rules));
    }

    /** `build_sim`: a simulation of the current system. */
    method BuildSim()
      requires fis.Some?
      modifies this`sim
      ensures sim == Some(Simulation(fis.value))
    {
      sim := Some(Simulation(fis.value));
    }

    /**
     * `calculate_worker_usage`, up to the inference itself: the inputs it
     * sets on the simulation, the queue size clamped to `sw_max_cap`. There
     * is no simulation to feed before the first rebuild.
     */
    method CalculateWorkerUsage(queueSize: int, maxCapacity: int) returns (inputs: Option<UsageInputs>)
      ensures sim.None? <==> inputs.None?
      ensures inputs.Some? ==> inputs.value.maxCapacity == maxCapacity
      ensures inputs.Some? ==> inputs.value.queueSize == QueueSizeCeil(queueSize, swMaxCap)
    {
      if sim.None? {
        return None;
      }
      var queueSizeCeil := QueueSizeCeil(queueSize, swMaxCap);
      return Some(UsageInputs(maxCapacity, queueSizeCeil));
    }
  }

  /* The test scenarios of the uncertainty analysis, on the maxima. */

  function WorkerWithThroughput(t: real): Worker {
    Worker("", "", Some(0), Some(t), None, None)
  }

  function WorkersSetA(): seq<(string, Worker)> {
    [("worker1", WorkerWithThroughput(10.0)), ("worker3", WorkerWithThroughput(80.05))]
  }

  function WorkersSetB(): seq<(string, Worker)> {
    [("worker1", WorkerWithThroughput(10.0)), ("worker2", WorkerWithThroughput(50.0)),
     ("worker3", WorkerWithThroughput(80.05)), ("worker4", WorkerWithThroughput(100.0))]
  }

  /**
   * From a fresh analysis, set A gives a maximum of 80.05 and a capacity of
   * 800; set B, alone or after set A, gives 100 and 1000.
   */
  lemma SetupScenarios()
    ensures MaxThroughput(0.0, WorkersSetA()) == 80.05
    ensures MaxCapacity(MaxThroughput(0.0, WorkersSetA()), 10) == 800
    ensures MaxThroughput(0.0, WorkersSetB()) == 100.0
    ensures MaxThroughput(MaxThroughput(0.0, WorkersSetA()), WorkersSetB()) == 100.0
    ensures MaxCapacity(MaxThroughput(0.0, WorkersSetB()), 10) == 1000
  {
    var a := WorkersSetA();
    var b := WorkersSetB();
    assert a[..1] == [a[0]] && [a[0]][..0] == [];
    assert b[..3] == [b[0], b[1], b[2]] && b[..3][..2] == [b[0], b[1]] && b[..3][..2][..1] == [b[0]];
    assert [b[0]][..0] == [];
    MaxThroughputIsMax(MaxThroughput(0.0, a), b);
  }
}

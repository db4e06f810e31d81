/** The overload analysis: which workers' queues exceed 70% of their capacity. */
module Overload {
  import opened Workers

  /** `self.adaptation_delta`: the monitoring window, in time units. */
  const AdaptationDelta: int := 10

  /** `self.is_overloaded_percentage` */
  const IsOverloadedPercentage: real := 0.7

  /** `math.floor(throughput * self.adaptation_delta)`, a missing throughput read as 0.0. */
  function Capacity(w: Worker): int {
    (ThroughputOrZero(w) * AdaptationDelta as real).Floor
  }

  lemma RatioAtLeast(q: real, c: real, t: real)
    requires c != 0.0
    ensures c > 0.0 ==> (q / c >= t <==> q >= t * c)
    ensures c < 0.0 ==> (q / c >= t <==> q <= t * c)
  {
    var d := q / c;
    assert q == d * c;
    if c > 0.0 {
      if d >= t { assert d * c >= t * c; } else { assert d * c < t * c; }
    } else {
      if d >= t { assert d * c <= t * c; } else { assert d * c > t * c; }
    }
  }

  /**
   * `_is_service_worker_overloaded`: a worker whose capacity floors to zero
   * is overloaded whatever its queue; otherwise it is overloaded when
   * `queue_size / capacity >= 0.7` (a missing queue size read as 0).
   */
  function IsServiceWorkerOverloaded(w: Worker): (overloaded: bool)
    ensures Capacity(w) == 0 ==> overloaded
    ensures Capacity(w) > 0 && QueueSizeOrZero(w) <= 0 ==> !overloaded
  {
    var capacity := Capacity(w);
    if capacity == 0 then true
    else (QueueSizeOrZero(w) as real) / (capacity as real) >= IsOverloadedPercentage
  }

  /**
   * The overload test in integers: a worker with no capacity (throughput
   * below 0.1) is always overloaded; with positive capacity it is
   * overloaded iff its queue is at least 70% of that capacity, so an empty
   * queue never is; a negative throughput flips the comparison.
   */
  lemma OverloadThreshold(w: Worker)
    ensures Capacity(w) == 0 ==> IsServiceWorkerOverloaded(w)
    ensures 0.0 <= ThroughputOrZero(w) < 0.1 ==> IsServiceWorkerOverloaded(w)
    ensures Capacity(w) > 0 ==> (IsServiceWorkerOverloaded(w) <==> 10 * QueueSizeOrZero(w) >= 7 * Capacity(w))
    ensures Capacity(w) > 0 && QueueSizeOrZero(w) == 0 ==> !IsServiceWorkerOverloaded(w)
    ensures Capacity(w) < 0 ==> (IsServiceWorkerOverloaded(w) <==> 10 * QueueSizeOrZero(w) <= 7 * Capacity(w))
  {
    if Capacity(w) != 0 {
      RatioAtLeast(QueueSizeOrZero(w) as real, Capacity(w) as real, IsOverloadedPercentage);
    }
  }

  /** The keys of a group's overloaded workers, in dict order. */
  function OverloadedInGroup(ws: seq<(string, Worker)>): seq<string>
    decreases |ws|
  {
    if ws == [] then []
    else
      var n := |ws| - 1;
      OverloadedInGroup(ws[..n]) + (if IsServiceWorkerOverloaded(ws[n].1) then [ws[n].0] else [])
  }

  /**
   * `verify_service_workers_overloaded`: the overloaded worker keys of every
   * service type, service type by service type.
   */
  function OverloadedKeys(sw: ServiceWorkers): seq<string>
    decreases |sw|
  {
    if sw == [] then []
    else
      var n := |sw| - 1;
      OverloadedKeys(sw[..n]) + OverloadedInGroup(sw[n].1.workers)
  }

  /** A group's list holds exactly the keys of its overloaded workers. */
  lemma {:induction false} OverloadedInGroupMembership(ws: seq<(string, Worker)>, key: string)
    ensures key in OverloadedInGroup(ws) <==>
      exists k :: 0 <= k < |ws| && ws[k].0 == key && IsServiceWorkerOverloaded(ws[k].1)
    decreases |ws|
  {
    if ws != [] {
      var n := |ws| - 1;
      OverloadedInGroupMembership(ws[..n], key);
      if key in OverloadedInGroup(ws[..n]) {
        var k :| 0 <= k < n && ws[..n][k].0 == key && IsServiceWorkerOverloaded(ws[..n][k].1);
        assert ws[k] == ws[..n][k];
      }
      if exists k :: 0 <= k < |ws| && ws[k].0 == key && IsServiceWorkerOverloaded(ws[k].1) {
        var k :| 0 <= k < |ws| && ws[k].0 == key && IsServiceWorkerOverloaded(ws[k].1);
        if k < n {
          assert ws[..n][k] == ws[k];
        }
      }
    }
  }

  /** The scan's keys are those of the group lists, service type by service type. */
  lemma {:induction false} OverloadedKeysByGroup(sw: ServiceWorkers, key: string)
    ensures key in OverloadedKeys(sw) <==> exists j :: 0 <= j < |sw| && key in OverloadedInGroup(sw[j].1.workers)
    decreases |sw|
  {
    if sw != [] {
      var n := |sw| - 1;
      OverloadedKeysByGroup(sw[..n], key);
      assert forall j :: 0 <= j < n ==> sw[..n][j] == sw[j];
    }
  }

  /**
   * The scan returns exactly the keys of the workers, of any service type,
   * that the overload predicate holds for.
   */
  lemma OverloadedKeysMembership(sw: ServiceWorkers, key: string)
    ensures key in OverloadedKeys(sw) <==>
      exists j, k :: 0 <= j < |sw| && 0 <= k < |sw[j].1.workers| &&
        sw[j].1.workers[k].0 == key && IsServiceWorkerOverloaded(sw[j].1.workers[k].1)
  {
    OverloadedKeysByGroup(sw, key);
    forall j | 0 <= j < |sw| {
      OverloadedInGroupMembership(sw[j].1.workers, key);
    }
  }

  /** The scan comes back empty exactly when no worker is overloaded. */
  lemma OverloadedKeysEmpty(sw: ServiceWorkers)
    ensures OverloadedKeys(sw) == [] <==>
      forall j, k :: 0 <= j < |sw| && 0 <= k < |sw[j].1.workers| ==> !IsServiceWorkerOverloaded(sw[j].1.workers[k].1)
  {
    if OverloadedKeys(sw) != [] {
      OverloadedKeysMembership(sw, OverloadedKeys(sw)[0]);
    }
    if exists j, k :: 0 <= j < |sw| && 0 <= k < |sw[j].1.workers| && IsServiceWorkerOverloaded(sw[j].1.workers[k].1) {
      var j, k :| 0 <= j < |sw| && 0 <= k < |sw[j].1.workers| && IsServiceWorkerOverloaded(sw[j].1.workers[k].1);
      OverloadedKeysMembership(sw, sw[j].1.workers[k].0);
    }
  }
}

/**
 * The best-worker-idle analysis: is some policy's champion for a service
 * type sitting idle while the type's idle count differs from its reported
 * `total_number_workers`?
 */
module Idle {
  import opened Wrappers
  import opened Workers
  import opened Qos

  /** `_is_worker_idle`: `int(worker['queue_size']) == 0`; raises when the key is missing. */
  function IsWorkerIdle(key: string, w: Worker): (r: Result<bool, Fault>)
    ensures r.Success? <==> w.queueSize.Some?
    ensures r.Failure? ==> r.error == MissingQueueSize(key)
    ensures r.Success? ==> (r.value <==> w.queueSize == Some(0))
  {
    match w.queueSize
    case None => Failure(MissingQueueSize(key))
    case Some(q) => Success(q == 0)
  }

  /** The number of workers whose queue size is present and 0. */
  function CountIdle(ws: seq<(string, Worker)>): nat {
    if ws == [] then 0
    else (if ws[0].1.queueSize == Some(0) then 1 else 0) + CountIdle(ws[1..])
  }

  lemma {:induction false} CountIdleSnoc(ws: seq<(string, Worker)>, e: (string, Worker))
    ensures CountIdle(ws + [e]) == CountIdle(ws) + (if e.1.queueSize == Some(0) then 1 else 0)
  {
    if ws != [] {
      assert (ws + [e])[1..] == ws[1..] + [e];
      CountIdleSnoc(ws[1..], e);
    }
  }

  /**
   * The list `idle_workers_keys` built for one service type: the keys of its
   * idle workers in dict order, or the error raised by the first worker
   * without a queue size.
   */
  function IdleWorkerKeys(ws: seq<(string, Worker)>): Result<seq<string>, Fault>
    decreases |ws|
  {
    if ws == [] then Success([])
    else
      var n := |ws| - 1;
      match IdleWorkerKeys(ws[..n])
      case Failure(e) => Failure(e)
      case Success(keys) =>
        match IsWorkerIdle(ws[n].0, ws[n].1)
        case Failure(e) => Failure(e)
        case Success(idle) => Success(if idle then keys + [ws[n].0] else keys)
  }

  /**
   * The scan succeeds iff every worker has a queue size, and then lists
   * exactly the idle workers' keys, as many as there are idle workers;
   * otherwise it raises for the first worker without one.
   */
  lemma {:induction false} IdleWorkerKeysSpec(ws: seq<(string, Worker)>)
    ensures var r := IdleWorkerKeys(ws);
      && (r.Success? <==> forall k :: 0 <= k < |ws| ==> ws[k].1.queueSize.Some?)
      && (r.Failure? ==>
           exists k :: 0 <= k < |ws| && ws[k].1.queueSize.None? && r.error == MissingQueueSize(ws[k].0) &&
             forall j :: 0 <= j < k ==> ws[j].1.queueSize.Some?)
      && (r.Success? ==> |r.value| == CountIdle(ws))
      && (r.Success? ==> forall key :: key in r.value <==>
           exists k :: 0 <= k < |ws| && ws[k].0 == key && ws[k].1.queueSize == Some(0))
    decreases |ws|
  {
    if ws != [] {
      var n := |ws| - 1;
      assert ws == ws[..n] + [ws[n]];
      CountIdleSnoc(ws[..n], ws[n]);
      IdleWorkerKeysSpec(ws[..n]);
      forall k | 0 <= k < n ensures ws[..n][k] == ws[k] { }
    }
  }

  /** Once a prefix has raised, the whole scan raises the same error. */
  lemma {:induction false} IdleWorkerKeysFailurePersists(ws: seq<(string, Worker)>, n: int)
    requires 0 <= n <= |ws| && IdleWorkerKeys(ws[..n]).Failure?
    ensures IdleWorkerKeys(ws) == IdleWorkerKeys(ws[..n])
    decreases |ws|
  {
    if n < |ws| {
      var m := |ws| - 1;
      assert ws[..m][..n] == ws[..n];
      IdleWorkerKeysFailurePersists(ws[..m], n);
    } else {
      assert ws[..n] == ws;
    }
  }

  /** Some policy's champion for `st` is one of the `idle` workers. */
  predicate HasIdleChampion(t: ChampionTable, ps: seq<QosPolicy>, st: string, idle: seq<string>) {
    exists p :: p in ps && Lookup(t, p, st).Some? && Lookup(t, p, st).value.streamKey in idle
  }

  /**
   * One iteration of the outer loop of `verify_service_worker_best_idle`:
   * the type is skipped when its idle count equals `total_number_workers`.
   */
  function ServiceTypeHasIdleBest(t: ChampionTable, ps: seq<QosPolicy>, st: string, g: ServiceTypeGroup): Result<bool, Fault> {
    match IdleWorkerKeys(g.workers)
    case Failure(e) => Failure(e)
    case Success(idle) =>
      match g.totalNumberWorkers
      case None => Failure(MissingTotalNumberWorkers(st))
      case Some(total) => Success(|idle| != total && HasIdleChampion(t, ps, st, idle))
  }

  /**
   * `verify_service_worker_best_idle`: the service types in dict order; the
   * first one whose champion is idle answers true, the first error raised
   * stops the scan.
   */
  function BestIdle(t: ChampionTable, ps: seq<QosPolicy>, sw: ServiceWorkers): Result<bool, Fault>
    decreases |sw|
  {
    if sw == [] then Success(false)
    else
      match ServiceTypeHasIdleBest(t, ps, sw[0].0, sw[0].1)
      case Failure(e) => Failure(e)
      case Success(true) => Success(true)
      case Success(false) => BestIdle(t, ps, sw[1..])
  }

  /** Every record carries a queue size and every group a worker total. */
  ghost predicate Complete(sw: ServiceWorkers) {
    forall j :: 0 <= j < |sw| ==>
      && sw[j].1.totalNumberWorkers.Some?
      && forall k :: 0 <= k < |sw[j].1.workers| ==> sw[j].1.workers[k].1.queueSize.Some?
  }

  /**
   * A service type calls for a new plan when not all of its workers are
   * idle (by its reported total) and some policy's champion for it is one
   * of its idle workers; a missing table entry is no champion.
   */
  ghost predicate TypeTriggers(t: ChampionTable, ps: seq<QosPolicy>, st: string, g: ServiceTypeGroup) {
    && g.totalNumberWorkers != Some(CountIdle(g.workers))
    && exists p, k :: p in ps && 0 <= k < |g.workers| && g.workers[k].1.queueSize == Some(0) &&
         Lookup(t, p, st).Some? && Lookup(t, p, st).value.streamKey == g.workers[k].0
  }

  /**
   * On complete input the scan never raises, and it answers true exactly
   * when some service type triggers.
   */
  lemma {:induction false} BestIdleIff(t: ChampionTable, ps: seq<QosPolicy>, sw: ServiceWorkers)
    requires Complete(sw)
    ensures BestIdle(t, ps, sw) == Success(exists j :: 0 <= j < |sw| && TypeTriggers(t, ps, sw[j].0, sw[j].1))
    decreases |sw|
  {
    if sw != [] {
      var g := sw[0].1;
      var idle := IdleWorkerKeys(g.workers);
      IdleWorkerKeysSpec(g.workers);
      assert idle.Success?;
      assert ServiceTypeHasIdleBest(t, ps, sw[0].0, g) == Success(TypeTriggers(t, ps, sw[0].0, g)) by {
        if HasIdleChampion(t, ps, sw[0].0, idle.value) {
          var p :| p in ps && Lookup(t, p, sw[0].0).Some? && Lookup(t, p, sw[0].0).value.streamKey in idle.value;
          var k :| 0 <= k < |g.workers| && g.workers[k].0 == Lookup(t, p, sw[0].0).value.streamKey && g.workers[k].1.queueSize == Some(0);
        }
      }
      assert Complete(sw[1..]) by {
        forall j | 0 <= j < |sw[1..]| ensures sw[1..][j] == sw[j + 1] { }
      }
      BestIdleIff(t, ps, sw[1..]);
      if exists j :: 0 <= j < |sw[1..]| && TypeTriggers(t, ps, sw[1..][j].0, sw[1..][j].1) {
        var j :| 0 <= j < |sw[1..]| && TypeTriggers(t, ps, sw[1..][j].0, sw[1..][j].1);
        assert sw[1..][j] == sw[j + 1];
      }
      if exists j :: 0 <= j < |sw| && TypeTriggers(t, ps, sw[j].0, sw[j].1) {
        var j :| 0 <= j < |sw| && TypeTriggers(t, ps, sw[j].0, sw[j].1);
        if j > 0 {
          assert sw[1..][j - 1] == sw[j];
        }
      }
    }
  }

  lemma {:induction false} CountIdleAll(ws: seq<(string, Worker)>)
    requires forall k :: 0 <= k < |ws| ==> ws[k].1.queueSize == Some(0)
    ensures CountIdle(ws) == |ws|
    decreases |ws|
  {
    if ws != [] {
      CountIdleAll(ws[1..]);
    }
  }

  /**
   * A service type whose workers are all idle, and whose reported total is
   * its number of workers, never triggers, even when a champion is idle.
   */
  lemma AllIdleNeverTriggers(t: ChampionTable, ps: seq<QosPolicy>, st: string, g: ServiceTypeGroup)
    requires forall k :: 0 <= k < |g.workers| ==> g.workers[k].1.queueSize == Some(0)
    requires g.totalNumberWorkers == Some(|g.workers|)
    ensures ServiceTypeHasIdleBest(t, ps, st, g) == Success(false)
  {
    CountIdleAll(g.workers);
    IdleWorkerKeysSpec(g.workers);
  }
}

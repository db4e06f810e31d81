/**
 * The adaptation analyser service: it keeps a registry of announced
 * service workers and a table of the best worker per QoS policy and service
 * type, and reacts to three kinds of events by publishing scheduling-plan
 * change requests for the planner.
 */
module Service {
  import opened Wrappers
  import opened Assoc
  import opened Workers
  import opened Qos
  import opened Overload
  import opened Idle

  /** The id `service_based_random_event_id()` draws for a new event. */
  type EventId = string

  /**
   * An inbound event's data dict, reduced to what the analyser reads:
   * the `worker` of an announcement and the `service_workers` of a
   * monitoring event. `rest` stands for the remaining fields, which travel
   * unread as the cause of a change request.
   */
  datatype EventData = EventData(
    rest: string,
    worker: Option<Worker>,
    serviceWorkers: Option<ServiceWorkers>)

  /** `{'type': event_type, 'cause': change_cause}` */
  datatype Change = Change(eventType: string, cause: EventData)

  /** `{'id': ..., 'change': {...}}` */
  datatype ChangePlanRequest = ChangePlanRequest(id: EventId, change: Change)

  /** One `publish_event_type_to_stream(event_type, new_event_data)` call. */
  datatype Published = Published(eventType: string, data: ChangePlanRequest)

  /** What `process_event_type` does with an event. */
  datatype Outcome =
    | Rejected          // the base service refused the event: `return False`
    | Handled           // processed (or ignored) without error
    | Raised(fault: Fault)

  const QueryCreated := "QueryCreated"
  const ServiceWorkerAnnounced := "ServiceWorkerAnnounced"
  const ServiceWorkersStreamMonitored := "ServiceWorkersStreamMonitored"

  const QuerySchedulingPlanRequested := "QuerySchedulingPlanRequested"
  const ServiceWorkerOverloadedPlanRequested := "ServiceWorkerOverloadedPlanRequested"
  const ServiceWorkerBestIdlePlanRequested := "ServiceWorkerBestIdlePlanRequested"

  /**
   * `build_change_plan_request_data`, with the drawn id passed in: the
   * request carries the id, the change type and the whole cause event, and
   * is published under that change type.
   */
  function BuildChangePlanRequestData(id: EventId, eventType: string, cause: EventData): (r: ChangePlanRequest)
    ensures r.id == id && r.change.eventType == eventType && r.change.cause == cause
    ensures Publication(r) == Published(eventType, r)
  {
    ChangePlanRequest(id, Change(eventType, cause))
  }

  /** The stream entry for a request: published under its own change type. */
  function Publication(request: ChangePlanRequest): Published {
    Published(request.change.eventType, request)
  }

  /* ---------------------------------------------------------------------
   * Worker announcements
   * --------------------------------------------------------------------- */

  /**
   * The registry after `process_service_worker_announced`: the worker's
   * service type gets an empty group if it has none (`setdefault`), and the
   * worker is stored under its stream key.
   */
  function Announce(reg: ServiceWorkers, w: Worker): ServiceWorkers {
    var g := Get(reg, w.serviceType).GetOr(ServiceTypeGroup([], None));
    Put(reg, w.serviceType, g.(workers := Put(g.workers, w.streamKey, w)))
  }

  /** The record stored for worker `key` of service type `st`, if any. */
  function WorkerAt(reg: ServiceWorkers, st: string, key: string): Option<Worker> {
    match Get(reg, st)
    case None => None
    case Some(g) => Get(g.workers, key)
  }

  /**
   * An announcement stores the worker under its own service type and stream
   * key, and leaves every other record as it was.
   */
  lemma AnnounceWorkerAt(reg: ServiceWorkers, w: Worker, st: string, key: string)
    ensures WorkerAt(Announce(reg, w), st, key) ==
      if st == w.serviceType && key == w.streamKey then Some(w) else WorkerAt(reg, st, key)
  {
    var g := Get(reg, w.serviceType).GetOr(ServiceTypeGroup([], None));
    PutGet(reg, w.serviceType, g.(workers := Put(g.workers, w.streamKey, w)), st);
    if st == w.serviceType {
      PutGet(g.workers, w.streamKey, w, key);
    }
  }

  /**
   * Service types keep their order, a new one goes last, and the reported
   * totals of existing groups are untouched; a new group has none. The
   * groups of other service types are left exactly as they were. Inside
   * the worker's group the stream keys keep their order too, a new key
   * going last, which decides which worker the champion scan sees first.
   */
  lemma AnnounceServiceTypes(reg: ServiceWorkers, w: Worker, st: string)
    ensures Keys(Announce(reg, w)) ==
      if w.serviceType in Keys(reg) then Keys(reg) else Keys(reg) + [w.serviceType]
    ensures Get(Announce(reg, w), st).Some? <==> Get(reg, st).Some? || st == w.serviceType
    ensures Get(Announce(reg, w), st).Some? ==>
      Get(Announce(reg, w), st).value.totalNumberWorkers ==
        (if Get(reg, st).Some? then Get(reg, st).value.totalNumberWorkers else None)
    ensures st != w.serviceType ==> Get(Announce(reg, w), st) == Get(reg, st)
    ensures var g := Get(reg, w.serviceType).GetOr(ServiceTypeGroup([], None));
      && Get(Announce(reg, w), w.serviceType).Some?
      && Keys(Get(Announce(reg, w), w.serviceType).value.workers) ==
           if w.streamKey in Keys(g.workers) then Keys(g.workers) else Keys(g.workers) + [w.streamKey]
  {
    var g := Get(reg, w.serviceType).GetOr(ServiceTypeGroup([], None));
    PutGet(reg, w.serviceType, g.(workers := Put(g.workers, w.streamKey, w)), st);
    PutGet(reg, w.serviceType, g.(workers := Put(g.workers, w.streamKey, w)), w.serviceType);
  }

  /** An announcement keeps the registry a dict of dicts. */
  lemma AnnounceWellFormed(reg: ServiceWorkers, w: Worker)
    requires WellFormed(reg)
    ensures WellFormed(Announce(reg, w))
  {
    var g := Get(reg, w.serviceType).GetOr(ServiceTypeGroup([], None));
    var g' := g.(workers := Put(g.workers, w.streamKey, w));
    var r := Put(reg, w.serviceType, g');
    PutUnique(reg, w.serviceType, g');
    GetIn(reg, w.serviceType);
    assert UniqueKeys(g.workers) by {
      if Get(reg, w.serviceType).Some? {
        var m :| 0 <= m < |reg| && reg[m] == (w.serviceType, g);
      }
    }
    PutUnique(g.workers, w.streamKey, w);
    forall i | 0 <= i < |r| ensures UniqueKeys(r[i].1.workers) {
      assert r[i] in r;
      if r[i] != (w.serviceType, g') {
        var m :| 0 <= m < |reg| && reg[m] == r[i];
      }
    }
  }

  /* ---------------------------------------------------------------------
   * The monitoring tick
   * --------------------------------------------------------------------- */

  /** `event_data.get('service_workers', {})`, as the overload analysis reads it. */
  function MonitoredOrEmpty(data: EventData): ServiceWorkers {
    data.serviceWorkers.GetOr([])
  }

  /** `analyse_service_worker_overloaded`: a request iff some worker is overloaded. */
  function OverloadedRequest(data: EventData, id: EventId): Option<ChangePlanRequest> {
    if OverloadedKeys(MonitoredOrEmpty(data)) != [] then
      Some(BuildChangePlanRequestData(id, ServiceWorkerOverloadedPlanRequested, data))
    else None
  }

  /**
   * `analyse_service_worker_best_idle`: raises on an event without
   * `service_workers`, then asks the idle scan.
   */
  function BestIdleRequest(t: ChampionTable, ps: seq<QosPolicy>, data: EventData, id: EventId): Result<Option<ChangePlanRequest>, Fault> {
    match data.serviceWorkers
    case None => Failure(MissingServiceWorkers)
    case Some(sw) =>
      match BestIdle(t, ps, sw)
      case Failure(e) => Failure(e)
      case Success(idle) =>
        Success(if idle then Some(BuildChangePlanRequestData(id, ServiceWorkerBestIdlePlanRequested, data)) else None)
  }

  /**
   * What one monitoring event leads to: the overload request if there is
   * one (the idle analysis then never runs), otherwise the idle analysis's
   * answer or its error.
   */
  function TickDecision(t: ChampionTable, ps: seq<QosPolicy>, data: EventData, id: EventId): Result<Option<ChangePlanRequest>, Fault> {
    var overloaded := OverloadedRequest(data, id);
    if overloaded.Some? then Success(overloaded) else BestIdleRequest(t, ps, data, id)
  }

  /** The stream entries a decision leads to: at most one. */
  function PublicationsFor(request: Option<ChangePlanRequest>): (r: seq<Published>)
    ensures |r| <= 1
  {
    if request.Some? then [Publication(request.value)] else []
  }

  /**
   * Overload takes priority: whenever a worker is overloaded the tick asks
   * for an overload plan, whatever the idle analysis would have said or
   * raised.
   */
  lemma TickPriority(t: ChampionTable, ps: seq<QosPolicy>, data: EventData, id: EventId)
    ensures (exists j, k :: 0 <= j < |MonitoredOrEmpty(data)| && 0 <= k < |MonitoredOrEmpty(data)[j].1.workers| &&
               IsServiceWorkerOverloaded(MonitoredOrEmpty(data)[j].1.workers[k].1))
      <==> TickDecision(t, ps, data, id) == Success(Some(BuildChangePlanRequestData(id, ServiceWorkerOverloadedPlanRequested, data)))
  {
    OverloadedKeysEmpty(MonitoredOrEmpty(data));
  }

  /**
   * A tick only ever asks for an overload or a best-idle plan, with the
   * drawn id, the whole event as the cause, and published under the
   * request's own change type.
   */
  lemma TickRequestsArePlanRequests(t: ChampionTable, ps: seq<QosPolicy>, data: EventData, id: EventId)
    requires TickDecision(t, ps, data, id).Success? && TickDecision(t, ps, data, id).value.Some?
    ensures var r := TickDecision(t, ps, data, id).value.value;
      && r.id == id && r.change.cause == data
      && (r.change.eventType == ServiceWorkerOverloadedPlanRequested || r.change.eventType == ServiceWorkerBestIdlePlanRequested)
      && PublicationsFor(Some(r)) == [Published(r.change.eventType, r)]
  {
  }

  /**
   * On a complete monitoring event the tick never raises, and it stays
   * silent exactly when no worker is overloaded and no service type has an
   * idle champion while the type's idle count differs from its reported
   * `total_number_workers`.
   */
  lemma TickSilentIff(t: ChampionTable, ps: seq<QosPolicy>, data: EventData, id: EventId)
    requires data.serviceWorkers.Some? && Complete(data.serviceWorkers.value)
    ensures TickDecision(t, ps, data, id).Success?
    ensures var sw := data.serviceWorkers.value;
      TickDecision(t, ps, data, id) == Success(None) <==>
        && (forall j, k :: 0 <= j < |sw| && 0 <= k < |sw[j].1.workers| ==> !IsServiceWorkerOverloaded(sw[j].1.workers[k].1))
        && (forall j :: 0 <= j < |sw| ==> !TypeTriggers(t, ps, sw[j].0, sw[j].1))
  {
    OverloadedKeysEmpty(data.serviceWorkers.value);
    BestIdleIff(t, ps, data.serviceWorkers.value);
  }

  /** An event without `service_workers` always raises. */
  lemma TickWithoutServiceWorkersRaises(t: ChampionTable, ps: seq<QosPolicy>, data: EventData, id: EventId)
    requires data.serviceWorkers.None?
    ensures TickDecision(t, ps, data, id) == Failure(MissingServiceWorkers)
  {
  }

  /** The analyses a monitoring event runs, in order. */
  datatype Analysis = OverloadAnalysis | BestIdleAnalysis

  /* ---------------------------------------------------------------------
   * The service object
   * --------------------------------------------------------------------- */

  class AdaptationAnalyser {
    /** `current_service_workers`: service type -> `{'workers': {stream key -> record}}` */
    var currentServiceWorkers: ServiceWorkers
    /** `best_workers_by_service_by_qos_policy` */
    var bestWorkers: ChampionTable
    /** `query_qos_policies`, fixed at construction. */
    const queryQosPolicies: seq<QosPolicy>
    /** `last_service_workers_monitoring` */
    var lastServiceWorkersMonitoring: Option<EventData>
    /** `current_plan` */
    var currentPlan: Option<string>
    /** `overloaded_workers`: the keys found by the last overload scan. */
    var overloadedWorkers: Option<seq<string>>
    /** The events published to the stream so far, oldest first. */
    var outbox: seq<Published>

    ghost predicate Valid()
      reads this
    {
      && queryQosPolicies == QueryQosPolicies()
      && WellFormed(currentServiceWorkers)
      && TableHoldsAttributes(bestWorkers)
    }

    constructor ()
      ensures Valid()
      ensures currentServiceWorkers == [] && bestWorkers == map[]
      ensures lastServiceWorkersMonitoring == None && currentPlan == None && overloadedWorkers == None
      ensures outbox == []
    {
      var policies := PrepareQueryQosPolicies();
      currentServiceWorkers := [];
      bestWorkers := map[];
      queryQosPolicies := policies;
      lastServiceWorkersMonitoring := None;
      currentPlan := None;
      overloadedWorkers := None;
      outbox := [];
    }

    /**
     * `update_best_worker_by_service_by_qos_policy`: for every policy, every
     * service type and every worker in order, a worker with the policy's
     * attribute replaces the stored champion when there is none or when it
     * is strictly better. Afterwards every champion dominates its type's
     * workers and no earlier champion got worse.
     */
    method UpdateBestWorkerByServiceByQosPolicy(serviceWorkers: ServiceWorkers) returns (table: ChampionTable)
      requires TableHoldsAttributes(bestWorkers)
      modifies this`bestWorkers
      ensures TableHoldsAttributes(bestWorkers)
      ensures bestWorkers == RefreshTable(old(bestWorkers), queryQosPolicies, serviceWorkers)
      ensures table == bestWorkers
      ensures queryQosPolicies == QueryQosPolicies() && UniqueKeys(serviceWorkers) ==>
        && ChampionsDominate(bestWorkers, queryQosPolicies, serviceWorkers)
        && NoChampionWorse(old(bestWorkers), bestWorkers)
    {
      ghost var t0 := bestWorkers;
      var ps := queryQosPolicies;
      for i := 0 to |ps|
        invariant TableHoldsAttributes(bestWorkers)
        invariant bestWorkers == RefreshTable(t0, ps[..i], serviceWorkers)
      {
        var policy := ps[i];
        ghost var tp := bestWorkers;
        for j := 0 to |serviceWorkers|
          invariant TableHoldsAttributes(bestWorkers)
          invariant bestWorkers == RefreshPolicy(tp, policy, serviceWorkers[..j])
        {
          var (serviceType, group) := serviceWorkers[j];
          ghost var tg := bestWorkers;
          for k := 0 to |group.workers|
            invariant TableHoldsAttributes(bestWorkers)
            invariant bestWorkers == RefreshGroup(tg, policy, serviceType, group.workers[..k])
          {
            RefreshGroupStep(tg, policy, serviceType, group.workers, k);
            var workerData := group.workers[k].1;
            var value := Value(policy, workerData);
            if value.None? {
              continue;
            }
            var best := Lookup(bestWorkers, policy, serviceType);
            if best.Some? && !Compare(policy.comparison, value.value, Value(policy, best.value).value) {
              continue;
            }
            bestWorkers := bestWorkers[(policy, serviceType) := workerData];
          }
          assert group.workers[..|group.workers|] == group.workers;
          assert serviceWorkers[..j + 1][..j] == serviceWorkers[..j];
        }
        assert serviceWorkers[..|serviceWorkers|] == serviceWorkers;
        assert ps[..i + 1][..i] == ps[..i];
      }
      assert ps[..|ps|] == ps;
      table := bestWorkers;
      if queryQosPolicies == QueryQosPolicies() && UniqueKeys(serviceWorkers) {
        RefreshTableSound(t0, queryQosPolicies, serviceWorkers);
      }
    }

    /**
     * `process_service_worker_announced`: store the worker in the registry,
     * then refresh the champion table over the whole registry. An event
     * without a worker raises before anything changes.
     */
    method ProcessServiceWorkerAnnounced(data: EventData) returns (raised: Option<Fault>)
      requires Valid()
      modifies this`currentServiceWorkers, this`bestWorkers
      ensures Valid()
      ensures data.worker.None? ==> raised == Some(MissingWorker) && unchanged(this)
      ensures data.worker.Some? ==>
        && raised == None
        && currentServiceWorkers == Announce(old(currentServiceWorkers), data.worker.value)
        && bestWorkers == RefreshTable(old(bestWorkers), queryQosPolicies, currentServiceWorkers)
        && ChampionsDominate(bestWorkers, queryQosPolicies, currentServiceWorkers)
        && NoChampionWorse(old(bestWorkers), bestWorkers)
    {
      if data.worker.None? {
        return Some(MissingWorker);
      }
      AnnounceWellFormed(currentServiceWorkers, data.worker.value);
      currentServiceWorkers := Announce(currentServiceWorkers, data.worker.value);
      var _ := UpdateBestWorkerByServiceByQosPolicy(currentServiceWorkers);
      raised := None;
    }

    /**
     * `verify_service_workers_overloaded`: the keys of the overloaded
     * workers, service type by service type, of an event whose missing
     * `service_workers` reads as empty.
     */
    method VerifyServiceWorkersOverloaded(data: EventData) returns (overloaded: seq<string>)
      ensures overloaded == OverloadedKeys(MonitoredOrEmpty(data))
    {
      var serviceWorkers := MonitoredOrEmpty(data);
      overloaded := [];
      for j := 0 to |serviceWorkers|
        invariant overloaded == OverloadedKeys(serviceWorkers[..j])
      {
        var ws := serviceWorkers[j].1.workers;
        var serviceOverloaded := [];
        for k := 0 to |ws|
          invariant serviceOverloaded == OverloadedInGroup(ws[..k])
        {
          if IsServiceWorkerOverloaded(ws[k].1) {
            serviceOverloaded := serviceOverloaded + [ws[k].0];
          }
          assert ws[..k + 1][..k] == ws[..k];
        }
        assert ws[..|ws|] == ws;
        overloaded := overloaded + serviceOverloaded;
        assert serviceWorkers[..j + 1][..j] == serviceWorkers[..j];
      }
      assert serviceWorkers[..|serviceWorkers|] == serviceWorkers;
    }

    /**
     * `analyse_service_worker_overloaded`: records the scan in
     * `overloaded_workers` and builds a request iff it is non-empty.
     */
    method AnalyseServiceWorkerOverloaded(data: EventData, id: EventId) returns (request: Option<ChangePlanRequest>)
      modifies this`overloadedWorkers
      ensures overloadedWorkers == Some(OverloadedKeys(MonitoredOrEmpty(data)))
      ensures request == OverloadedRequest(data, id)
    {
      var overloaded := VerifyServiceWorkersOverloaded(data);
      overloadedWorkers := Some(overloaded);
      request := None;
      if |overloaded| != 0 {
        request := Some(BuildChangePlanRequestData(id, ServiceWorkerOverloadedPlanRequested, data));
      }
    }

    /**
     * The first half of one iteration of `verify_service_worker_best_idle`:
     * the keys of a group's idle workers, in order, raising at the first
     * worker without a queue size.
     */
    method CollectIdleWorkersKeys(ws: seq<(string, Worker)>) returns (r: Result<seq<string>, Fault>)
      ensures r == IdleWorkerKeys(ws)
    {
      var idleWorkersKeys := [];
      for k := 0 to |ws|
        invariant IdleWorkerKeys(ws[..k]) == Success(idleWorkersKeys)
      {
        assert ws[..k + 1][..k] == ws[..k];
        var (worker, workerData) := ws[k];
        var isIdle := IsWorkerIdle(worker, workerData);
        if isIdle.Failure? {
          IdleWorkerKeysFailurePersists(ws, k + 1);
          return Failure(isIdle.error);
        }
        if isIdle.value {
          idleWorkersKeys := idleWorkersKeys + [worker];
        }
      }
      assert ws[..|ws|] == ws;
      return Success(idleWorkersKeys);
    }

    /**
     * `verify_service_worker_best_idle`: service type by service type, the
     * idle worker keys are collected; while the type's idle count differs
     * from its reported `total_number_workers`, the scan answers true as
     * soon as a policy's champion for the type is among them.
     */
    method VerifyServiceWorkerBestIdle(serviceWorkers: ServiceWorkers) returns (r: Result<bool, Fault>)
      ensures r == BestIdle(bestWorkers, queryQosPolicies, serviceWorkers)
    {
      for j := 0 to |serviceWorkers|
        invariant BestIdle(bestWorkers, queryQosPolicies, serviceWorkers) == BestIdle(bestWorkers, queryQosPolicies, serviceWorkers[j..])
      {
        var (serviceType, group) := serviceWorkers[j];
        assert serviceWorkers[j..][0] == serviceWorkers[j] && serviceWorkers[j..][1..] == serviceWorkers[j + 1..];
        var idle := CollectIdleWorkersKeys(group.workers);
        if idle.Failure? {
          return Failure(idle.error);
        }
        var idleWorkersKeys := idle.value;
        if group.totalNumberWorkers.None? {
          return Failure(MissingTotalNumberWorkers(serviceType));
        }
        if |idleWorkersKeys| != group.totalNumberWorkers.value {
          for i := 0 to |queryQosPolicies|
            invariant forall m :: 0 <= m < i ==>
              !(Lookup(bestWorkers, queryQosPolicies[m], serviceType).Some? &&
                Lookup(bestWorkers, queryQosPolicies[m], serviceType).value.streamKey in idleWorkersKeys)
          {
            var bestWorker := Lookup(bestWorkers, queryQosPolicies[i], serviceType);
            if bestWorker.Some? && bestWorker.value.streamKey in idleWorkersKeys {
              return Success(true);
            }
          }
        }
      }
      return Success(false);
    }

    /**
     * `analyse_service_worker_best_idle`: raises on an event without
     * `service_workers`; otherwise builds a request iff the idle scan
     * answers true.
     */
    method AnalyseServiceWorkerBestIdle(data: EventData, id: EventId) returns (r: Result<Option<ChangePlanRequest>, Fault>)
      ensures r == BestIdleRequest(bestWorkers, queryQosPolicies, data, id)
    {
      if data.serviceWorkers.None? {
        return Failure(MissingServiceWorkers);
      }
      var hasIdleBestWorker := VerifyServiceWorkerBestIdle(data.serviceWorkers.value);
      if hasIdleBestWorker.Failure? {
        return Failure(hasIdleBestWorker.error);
      }
      if hasIdleBestWorker.value {
        return Success(Some(BuildChangePlanRequestData(id, ServiceWorkerBestIdlePlanRequested, data)));
      }
      return Success(None);
    }

    /**
     * `process_service_workers_stream_monitored`: run the overload analysis,
     * then the best-idle analysis, publishing the first request and
     * stopping there. The event is remembered only when no analysis raised;
     * the overload scan is recorded either way.
     */
    method ProcessServiceWorkersStreamMonitored(data: EventData, id: EventId) returns (raised: Option<Fault>)
      modifies this`overloadedWorkers, this`outbox, this`lastServiceWorkersMonitoring
      ensures overloadedWorkers == Some(OverloadedKeys(MonitoredOrEmpty(data)))
      ensures var decision := TickDecision(bestWorkers, queryQosPolicies, data, id);
        match decision
        case Failure(e) =>
          && raised == Some(e)
          && outbox == old(outbox)
          && lastServiceWorkersMonitoring == old(lastServiceWorkersMonitoring)
        case Success(request) =>
          && raised == None
          && outbox == old(outbox) + PublicationsFor(request)
          && lastServiceWorkersMonitoring == Some(data)
    {
      var serviceWorkerSizeAnalysis := [OverloadAnalysis, BestIdleAnalysis];
      for i := 0 to |serviceWorkerSizeAnalysis|
        invariant i == 0 ==> overloadedWorkers == old(overloadedWorkers)
        invariant i > 0 ==> overloadedWorkers == Some(OverloadedKeys(MonitoredOrEmpty(data))) && OverloadedRequest(data, id).None?
        invariant i == 2 ==> BestIdleRequest(bestWorkers, queryQosPolicies, data, id) == Success(None)
        invariant outbox == old(outbox)
        invariant lastServiceWorkersMonitoring == old(lastServiceWorkersMonitoring)
      {
        var result: Option<ChangePlanRequest>;
        match serviceWorkerSizeAnalysis[i] {
          case OverloadAnalysis =>
            result := AnalyseServiceWorkerOverloaded(data, id);
          case BestIdleAnalysis =>
            var outcome := AnalyseServiceWorkerBestIdle(data, id);
            if outcome.Failure? {
              return Some(outcome.error);
            }
            result := outcome.value;
        }
        if result.Some? {
          outbox := outbox + [Publication(result.value)];
          break;
        }
      }
      lastServiceWorkersMonitoring := Some(data);
      raised := None;
    }

    /**
     * `process_query_created`: publish exactly one scheduling-plan request
     * whose cause is the query event.
     */
    method ProcessQueryCreated(data: EventData, id: EventId)
      modifies this`outbox
      ensures outbox == old(outbox) + [Publication(BuildChangePlanRequestData(id, QuerySchedulingPlanRequested, data))]
    {
      var eventChangePlanData := BuildChangePlanRequestData(id, QuerySchedulingPlanRequested, data);
      outbox := outbox + [Published(QuerySchedulingPlanRequested, eventChangePlanData)];
    }

    /** `update_current_plan`: remember the plan; nothing else changes. */
    method UpdateCurrentPlan(plan: Option<string>)
      modifies this`currentPlan
      ensures currentPlan == plan
    {
      currentPlan := plan;
    }

    /**
     * `process_event_type`: an event the base service refuses is dropped;
     * otherwise the three handled event types are dispatched and any other
     * type is ignored. `accepted` is the base service's verdict and `id`
     * the id drawn for a change request.
     */
    method ProcessEventType(accepted: bool, eventType: string, data: EventData, id: EventId) returns (outcome: Outcome)
      requires Valid()
      modifies this
      ensures Valid()
      ensures currentPlan == old(currentPlan)
      ensures !accepted ==> outcome == Rejected && unchanged(this)
      ensures accepted && eventType == QueryCreated ==>
        && outcome == Handled
        && outbox == old(outbox) + [Published(QuerySchedulingPlanRequested, BuildChangePlanRequestData(id, QuerySchedulingPlanRequested, data))]
        && currentServiceWorkers == old(currentServiceWorkers) && bestWorkers == old(bestWorkers)
        && lastServiceWorkersMonitoring == old(lastServiceWorkersMonitoring) && overloadedWorkers == old(overloadedWorkers)
      ensures accepted && eventType == ServiceWorkerAnnounced ==>
        && outbox == old(outbox)
        && lastServiceWorkersMonitoring == old(lastServiceWorkersMonitoring) && overloadedWorkers == old(overloadedWorkers)
        && match data.worker
           case None => outcome == Raised(MissingWorker) && unchanged(this)
           case Some(w) =>
             && outcome == Handled
             && currentServiceWorkers == Announce(old(currentServiceWorkers), w)
             && bestWorkers == RefreshTable(old(bestWorkers), queryQosPolicies, currentServiceWorkers)
      ensures accepted && eventType == ServiceWorkersStreamMonitored ==>
        && currentServiceWorkers == old(currentServiceWorkers) && bestWorkers == old(bestWorkers)
        && overloadedWorkers == Some(OverloadedKeys(MonitoredOrEmpty(data)))
        && match TickDecision(old(bestWorkers), queryQosPolicies, data, id)
           case Failure(e) =>
             outcome == Raised(e) && outbox == old(outbox) && lastServiceWorkersMonitoring == old(lastServiceWorkersMonitoring)
           case Success(request) =>
             outcome == Handled && outbox == old(outbox) + PublicationsFor(request) && lastServiceWorkersMonitoring == Some(data)
      ensures accepted && eventType !in {QueryCreated, ServiceWorkerAnnounced, ServiceWorkersStreamMonitored} ==>
        outcome == Handled && unchanged(this)
    {
      if !accepted {
        return Rejected;
      }
      outcome := Handled;
      if eventType == QueryCreated {
        ProcessQueryCreated(data, id);
      } else if eventType == ServiceWorkerAnnounced {
        var raised := ProcessServiceWorkerAnnounced(data);
        if raised.Some? {
          outcome := Raised(raised.value);
        }
      } else if eventType == ServiceWorkersStreamMonitored {
        var raised := ProcessServiceWorkersStreamMonitored(data, id);
        if raised.Some? {
          outcome := Raised(raised.value);
        }
      }
    }
  }
}

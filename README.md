# Adaptation analyser — a Dafny model

The adaptation analyser is the component of an event-driven stream
processing platform that decides when the scheduling plan must change. It
keeps a registry of the service workers that have announced themselves. For
every QoS policy and service type it tracks the best worker so far (its
"champion"). On every monitoring event it checks two things:

- whether some worker is overloaded;
- whether the best worker of some service type sits idle while the
  type's idle count differs from its reported `total_number_workers`.

When either check fires it publishes one scheduling-plan change request.
A new query triggers a request for a plan straight away.

A second class, the uncertainty analysis of one service type, follows the
highest throughput among that type's workers. Whenever that maximum grows it
rebuilds a fuzzy inference system over the range `0 .. max capacity`. The
system's 20-rule base maps a (max capacity, queue size) pair of labels to a
usage label.

Files and modules:

| file | module | what |
|---|---|---|
| `wrappers.dfy` | `Wrappers` | `Option`, `Result` |
| `assoc.dfy` | `Assoc` | Python dicts as insertion-ordered association lists |
| `workers.dfy` | `Workers` | worker records, service-type groups, the errors the handlers raise |
| `qos.dfy` | `Qos` | the three QoS policies and their comparators; the champion fold and the champion table |
| `overload.dfy` | `Overload` | the overload test and the overload scan |
| `idle.dfy` | `Idle` | the idle test and the best-worker-idle scan |
| `service.dfy` | `Service` | the `AdaptationAnalyser` class and its event handlers |
| `fuzzy_rules.dfy` | `FuzzyRules` | the uncertainty analysis' rule base, as data |
| `ua_analysis.dfy` | `UAAnalysis` | the `UAServiceAnalysis` class |

The handlers that change state are methods of classes whose fields are the
source's attributes. Each method is proved against pure specification
functions. Those functions are:

- `Announce`, for the registry after an announcement.
- `RefreshTable`, for the champion table after an update.
- `OverloadedKeys`, for the overload scan.
- `BestIdle`, for the idle scan.
- `TickDecision`, for what a monitoring event leads to.
- `MaxThroughput`, for the tracked maximum throughput.

The properties are proved as lemmas about these functions. Publishing an
event appends a `Published` record to the analyser's `outbox`.

## Model

| member | source | states |
|---|---|---|
| `Qos.PrepareQueryQosPolicies` | adaptation_analyser/service.py:58-83 | builds the three policies, in dict order. Each reads its attribute and carries the comparator its name selects. |
| `Qos.NameTestSelectsComparators` | adaptation_analyser/service.py:77-82 | the name test picks "lower is better" for `energy_consumption=min` only. It picks "higher is better" for `latency=min` (ranked by throughput) and for `accuracy=max`. |
| `Qos.ChampionReplacedOnlyOnStrictImprovement` | adaptation_analyser/service.py:396-416 | a scan either keeps the incumbent or ends with one scanned worker. That worker has the attribute and is strictly better than the incumbent and than every earlier worker with the attribute, so on equal values the one seen first wins. |
| `Qos.ChampionIsBest` | adaptation_analyser/service.py:396-416 | after a scan, no scanned worker that has the attribute is strictly better than the champion. |
| `Qos.ChampionNeverWorse` | adaptation_analyser/service.py:407-416 | once a champion exists a scan keeps one, and the new one is never worse. |
| `Qos.ChampionKeptOnTies` | adaptation_analyser/service.py:410-414 | workers that are no better than the incumbent, ties included, never displace it. |
| `Qos.ChampionNeedsAttribute` | adaptation_analyser/service.py:398-401 | workers without the policy's attribute are skipped, so a scan that finds none leaves the entry as it was. |
| `Qos.RefreshGroupStep` | adaptation_analyser/service.py:398-416 | one worker of the inner loop: skipped without the attribute or when it does not beat the stored champion, written into the table otherwise. |
| `Qos.RefreshTableLookup` | adaptation_analyser/service.py:393-417 | after the whole update, each (policy, scanned service type) entry is the champion of scanning that type's workers from the stored entry. Every other entry is unchanged. |
| `Qos.RefreshTableSound` | adaptation_analyser/service.py:393-417 | after the update every champion dominates the workers of its type that have the attribute. No stored champion was dropped or got worse, even when its worker since announced a worse value. |
| `Service.AdaptationAnalyser.UpdateBestWorkerByServiceByQosPolicy` | adaptation_analyser/service.py:393-417 | the three nested loops compute `RefreshTable`. They return the table, and the result dominates the scanned workers and never worsens a champion. |
| `Service.AnnounceWorkerAt` | adaptation_analyser/service.py:419-425 | an announcement stores the worker under its service type and stream key. Every other record reads as before. |
| `Service.AnnounceServiceTypes` | adaptation_analyser/service.py:423-425 | service types keep their order and a new one goes last (`setdefault`). Existing groups keep their reported totals; a new group has none. The groups of every other service type are unchanged, their workers and key order included. Inside the worker's group the stream keys keep their order and a new key goes last, so re-announcing a worker does not change which worker the champion scan sees first. |
| `Service.AnnounceWellFormed` | adaptation_analyser/service.py:423-425 | an announcement keeps the registry a dict of dicts (no key twice at either level). |
| `Service.AdaptationAnalyser.ProcessServiceWorkerAnnounced` | adaptation_analyser/service.py:419-426 | stores the worker, then refreshes the champion table over the whole registry. An event without a worker raises before anything changes. |
| `Overload.IsServiceWorkerOverloaded` | adaptation_analyser/service.py:428-436 | a worker whose capacity floors to 0 is overloaded. A worker with positive capacity and an empty (or missing) queue is not. |
| `Overload.OverloadThreshold` | adaptation_analyser/service.py:428-436 | a worker whose capacity `floor(throughput * 10)` is 0 is overloaded, even with an empty queue. With positive capacity it is overloaded iff `10 * queue >= 7 * capacity`. A missing queue size or throughput reads as 0. |
| `Overload.OverloadedInGroupMembership` | adaptation_analyser/service.py:442-445 | a group's list holds exactly the keys of its overloaded workers. |
| `Overload.OverloadedKeysByGroup` | adaptation_analyser/service.py:441-447 | the scan's keys are the union of the group lists. |
| `Overload.OverloadedKeysMembership` | adaptation_analyser/service.py:438-448 | the scan returns exactly the keys of the workers, of any service type, for which the overload test holds. |
| `Overload.OverloadedKeysEmpty` | adaptation_analyser/service.py:438-448 | the scan is empty iff no worker is overloaded. |
| `Service.AdaptationAnalyser.VerifyServiceWorkersOverloaded` | adaptation_analyser/service.py:438-448 | the nested loops compute `OverloadedKeys` of the event's `service_workers`, a missing key reading as empty. |
| `Service.AdaptationAnalyser.AnalyseServiceWorkerOverloaded` | adaptation_analyser/service.py:450-459 | records the scan in `overloaded_workers`. Builds an overload request iff the scan is non-empty. |
| `Idle.IsWorkerIdle` | adaptation_analyser/service.py:461-463 | raises for a worker without a queue size. Otherwise answers true iff the queue size is 0. |
| `Idle.IdleWorkerKeysSpec` | adaptation_analyser/service.py:461-470 | collecting a group's idle keys succeeds iff every worker has a queue size. It then lists exactly the keys of the workers with queue size 0, one per such worker. Otherwise it raises for the first worker without one. |
| `Idle.IdleWorkerKeysFailurePersists` | adaptation_analyser/service.py:467-470 | once a worker without a queue size is reached, the collection raises for that worker. |
| `Service.AdaptationAnalyser.CollectIdleWorkersKeys` | adaptation_analyser/service.py:467-470 | the inner loop computes `IdleWorkerKeys`, including the `KeyError`. |
| `Idle.BestIdleIff` | adaptation_analyser/service.py:465-478 | on an event where every record has a queue size and every group a total, the scan never raises. It answers true iff some service type triggers: its idle count differs from its reported total, and some policy's champion for it is one of its idle workers. |
| `Idle.AllIdleNeverTriggers` | adaptation_analyser/service.py:472-473 | a service type whose workers are all idle, with a total equal to its number of workers, never triggers, even when its champion is idle. |
| `Service.AdaptationAnalyser.VerifyServiceWorkerBestIdle` | adaptation_analyser/service.py:465-478 | the loops compute `BestIdle` on the current champion table. That covers the early `return True`, the skipped types whose idle count equals their reported `total_number_workers` and the `KeyError`s for a missing queue size or total. |
| `Service.AdaptationAnalyser.AnalyseServiceWorkerBestIdle` | adaptation_analyser/service.py:480-489 | raises on an event without `service_workers`. Otherwise builds a best-idle request iff the idle scan answers true. |
| `Service.PublicationsFor` | adaptation_analyser/service.py:497-502 | a monitoring event publishes at most one request. |
| `Service.TickPriority` | adaptation_analyser/service.py:492-502 | the tick asks for an overload plan iff some worker is overloaded. It then never runs the idle analysis, so it can neither ask for an idle plan nor raise. |
| `Service.BuildChangePlanRequestData` | adaptation_analyser/service.py:376-384 | the request carries the drawn id, the change type and the whole cause event, and is published under that change type. |
| `Service.TickRequestsArePlanRequests` | adaptation_analyser/service.py:376-384 | a tick only asks for an overload or a best-idle plan. The request carries the drawn id and the whole event as its cause, and is published under its own change type. |
| `Service.TickSilentIff` | adaptation_analyser/service.py:491-503 | on an event where every record has a queue size and every group a total, the tick never raises. It stays silent iff no worker is overloaded and no service type triggers the idle check. |
| `Service.TickWithoutServiceWorkersRaises` | adaptation_analyser/service.py:480-484 | an event without `service_workers` passes the overload analysis (read as empty) and then raises in the idle analysis. |
| `Service.AdaptationAnalyser.ProcessServiceWorkersStreamMonitored` | adaptation_analyser/service.py:491-503 | runs the overload analysis, then the best-idle analysis, publishing the first request and stopping there. The overload scan is always recorded. The event is remembered as the last monitoring only when no analysis raised. |
| `Service.AdaptationAnalyser.ProcessQueryCreated` | adaptation_analyser/service.py:386-391 | publishes exactly one `QuerySchedulingPlanRequested` request whose cause is the query event. |
| `Service.AdaptationAnalyser.UpdateCurrentPlan` | adaptation_analyser/service.py:353-354 | remembers the plan; nothing else changes. |
| `Service.AdaptationAnalyser.ProcessEventType` | adaptation_analyser/service.py:505-514 | the base service's refusal is returned with nothing changed. `QueryCreated` publishes exactly one request. `ServiceWorkerAnnounced` publishes nothing and updates the registry and the champions. `ServiceWorkersStreamMonitored` publishes at most one request as `TickDecision` says. Any other type changes nothing. The class invariant holds throughout. |
| `Service.AdaptationAnalyser.constructor` | adaptation_analyser/service.py:45-56 | starts with an empty registry and an empty champion table, no monitoring, plan or overload scan, and the three policies. |
| `FuzzyRules.RuleCoverage` | adaptation_analyser/uncertainty/ua_analysis.py:55-143 | the rule base has 20 rules. Each (capacity, queue size) pair of labels fires exactly the rule at `RuleIndex`, which concludes the usage of the reference table `UsageTable`. |
| `FuzzyRules.FiringUsage` | adaptation_analyser/uncertainty/ua_analysis.py:55-143 | any rule that fires on a pair concludes the reference table's usage. |
| `FuzzyRules.QueueVeryLowMeansUsageVeryLow` | adaptation_analyser/uncertainty/ua_analysis.py:57-60 | a very low queue means very low usage, whatever the capacity. |
| `FuzzyRules.UsageMonotoneInQueueSize` | adaptation_analyser/uncertainty/ua_analysis.py:57-143 | for a fixed capacity label, a higher queue label never concludes a lower usage. |
| `FuzzyRules.UsageAntitoneInCapacity` | adaptation_analyser/uncertainty/ua_analysis.py:68-143 | for a fixed queue label, a higher capacity label never concludes a higher usage. |
| `UAAnalysis.MaxThroughputIsMax` | adaptation_analyser/uncertainty/ua_analysis.py:25-29 | the tracked maximum is at least the old maximum and every worker's throughput (a missing one read as 0.0). It equals one of them. |
| `UAAnalysis.MaxThroughputGrows` | adaptation_analyser/uncertainty/ua_analysis.py:25-31 | the maximum grows, and the system is rebuilt, iff some worker's throughput exceeds the old maximum. |
| `UAAnalysis.MaxThroughputMonotone` | adaptation_analyser/uncertainty/ua_analysis.py:25-29 | a larger starting maximum never gives a smaller result. |
| `UAAnalysis.CapacityMonotone` | adaptation_analyser/uncertainty/ua_analysis.py:32 | with a non-negative delta, a larger maximum throughput never gives a smaller `floor(max * delta)`. |
| `UAAnalysis.UAServiceAnalysis.SetupFromWorkers` | adaptation_analyser/uncertainty/ua_analysis.py:23-38 | raises the maximum to the workers' highest throughput. Only on a strict increase does it set `sw_max_cap = floor(max * delta)` and the universe `0 .. sw_max_cap`, then rebuild the system and its simulation; otherwise all of these stay as they were. The maximum and the capacity never shrink, and `has_changed` is false on return. |
| `UAAnalysis.UAServiceAnalysis.BuildFis` | adaptation_analyser/uncertainty/ua_analysis.py:40-145 | installs the 20-rule base over the current service universe. |
| `UAAnalysis.UAServiceAnalysis.BuildSim` | adaptation_analyser/uncertainty/ua_analysis.py:147-148 | makes a simulation of the current system. |
| `UAAnalysis.QueueSizeCeil` | adaptation_analyser/uncertainty/ua_analysis.py:151 | the clamped queue size is at most both the queue size and `sw_max_cap`, and equals one of them: it is their minimum. |
| `UAAnalysis.UAServiceAnalysis.CalculateWorkerUsage` | adaptation_analyser/uncertainty/ua_analysis.py:150-153 | feeds the simulation the capacity unchanged and the queue size `min(queue_size, sw_max_cap)` (clamped to `sw_max_cap`, not to the capacity argument). |
| `UAAnalysis.UAServiceAnalysis.constructor` | adaptation_analyser/uncertainty/ua_analysis.py:12-21 | starts with no system, maximum throughput 0.0, capacity 0, the usage universe `0 .. 100` and `has_changed` false. |
| `UAAnalysis.SetupScenarios` | tests/test_ua_analysis.py:52-81 | worker set A gives a maximum of 80.05 and a capacity of 800. Set B, alone or after set A, gives 100 and 1000. |

## Left out

- Fuzzy inference: the membership functions `automf` builds, skfuzzy's rule evaluation and defuzzification are a floating-point third-party library. `CalculateWorkerUsage` returns the crisp inputs it would set on the simulation instead of the usage the simulation computes.
- UAAnalysis.UAServiceAnalysis.CalculateWorkerUsage: when the source calls it before any rebuild it raises on the missing simulation; the model returns `None`.
- The uncertainty analysis' `parent_service` is reduced to the one value it reads, `adaptation_delta`, passed to the constructor.
- The exploratory scripts beside the uncertainty analysis are not part of this model.
- Commented-out code is not modelled, because it never runs: the entity-type dispatch, the recent-request debounce, the load-shedding analysis, the buffer-stream and subscriber-query race workaround.
- Fields the analyser's own handlers never read are left out. `recent_plan_change_requests_timestamps` is read only by the logging in `log_state`, which is left out. The validation field lists are read only by the base service, which is not part of this model. `number_of_workers` and `min_seconds_to_ask_same_change_request_type` are not read at all.
- Transport and runtime are reduced to parameters:
  - the base service's own `process_event_type` check becomes the `accepted` parameter;
  - `service_based_random_event_id()` becomes the `id` parameter;
  - publishing to the stream becomes an append to `outbox`.

  Tracing, logging, `log_state`, `run` and the command thread are left out.
- Floating point: throughputs, energy and accuracy are exact reals. `queue_size / capacity` is exact division, with no float rounding.
- Values are typed, not parsed: the `int(...)` and `float(...)` conversions of string fields are not modelled.
- A worker record always has a `stream_key` and a `service_type`. The source would file a record without them under the key `None`.
- A service-type group always has a `workers` dict. The source raises a `KeyError` when it is missing.
- An inbound event carries only the fields the analyser reads (`worker`, `service_workers`); the rest travels unread as the change's cause.
- The champion table stores worker records by value. The source stores references to the registry's dicts, but those dicts are replaced on re-announcement, never mutated, so no difference can be observed.
- The champion table is a map keyed by (policy, service type). Its iteration order is never observed by live code.
- `best_worker and ...` in the idle scan is modelled as "a champion exists". A stored champion always holds the policy's attribute, so it is never an empty dict.
- `process_event_type` dispatches only `QueryCreated`, `ServiceWorkerAnnounced` and `ServiceWorkersStreamMonitored`; an event of any other type, `SchedulingPlanExecuted` included, changes nothing.

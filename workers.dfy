/**
 * The worker records the analyser receives: announced by a worker on
 * start-up, and reported per service type by the monitoring stream.
 */
module Workers {
  import opened Wrappers
  import opened Assoc

  /**
   * One service worker's metrics. The queue size and the throughput may be
   * missing from a record; energy consumption and accuracy are optional QoS
   * attributes.
   */
  datatype Worker = Worker(
    streamKey: string,
    serviceType: string,
    queueSize: Option<int>,
    throughput: Option<real>,
    energyConsumption: Option<real>,
    accuracy: Option<real>)

  /**
   * The value of a service type's entry: `{'workers': {...}}`, and in a
   * monitoring event also `'total_number_workers'`.
   */
  datatype ServiceTypeGroup = ServiceTypeGroup(
    workers: seq<(string, Worker)>,
    totalNumberWorkers: Option<int>)

  /** service type -> group, in dict order. */
  type ServiceWorkers = seq<(string, ServiceTypeGroup)>

  /** What a Python dict of dicts guarantees: no key twice at either level. */
  ghost predicate WellFormed(sw: ServiceWorkers) {
    && UniqueKeys(sw)
    && forall i :: 0 <= i < |sw| ==> UniqueKeys(sw[i].1.workers)
  }

  /**
   * The errors the handlers raise on an incomplete event: an announcement
   * without a worker, a monitoring event without `service_workers`, and
   * the `KeyError`s of the idle scan.
   */
  datatype Fault =
    | MissingWorker
    | MissingServiceWorkers
    | MissingQueueSize(workerKey: string)
    | MissingTotalNumberWorkers(serviceType: string)

  /** `int(worker.get('queue_size', 0))` */
  function QueueSizeOrZero(w: Worker): int {
    w.queueSize.GetOr(0)
  }

  /** `float(worker.get('throughput', 0.0))` */
  function ThroughputOrZero(w: Worker): real {
    w.throughput.GetOr(0.0)
  }
}

/**
 * QoS policies and the per-policy, per-service-type champion table
 * ("best worker by service by QoS policy").
 */
module Qos {
  import opened Wrappers
  import opened Assoc
  import opened Workers

  /** The worker attribute a policy ranks workers by. */
  datatype Attribute = EnergyConsumption | Throughput | Accuracy

  /** The two comparators: `a_val < b_val` and `a_val > b_val`. */
  datatype Comparison = LowerThan | HigherThan

  /** A policy: its name, the attribute it reads, and when a value is better. */
  datatype QosPolicy = QosPolicy(name: string, attribute: Attribute, comparison: Comparison)

  /** `worker_data.get(worker_policy_attr)` */
  function AttributeValue(w: Worker, a: Attribute): Option<real> {
    match a
    case EnergyConsumption => w.energyConsumption
    case Throughput => w.throughput
    case Accuracy => w.accuracy
  }

  /** `worker_a_b_comparison(a, b)`: is `a` strictly better than `b`? */
  function Compare(c: Comparison, a: real, b: real): bool {
    match c
    case LowerThan => a < b
    case HigherThan => a > b
  }

  /** `sub` occurs in `s` starting at position `i`. */
  predicate OccursAt(s: string, sub: string, i: int) {
    0 <= i <= |s| - |sub| && s[i..i + |sub|] == sub
  }

  /** Python's `sub in s` on strings. */
  predicate Contains(s: string, sub: string) {
    exists i :: 0 <= i <= |s| && OccursAt(s, sub, i)
  }

  /** The comparator the source picks from a policy's name. */
  function ComparisonFor(name: string): Comparison {
    if Contains(name, "=min") && Contains(name, "energy_consumption") then LowerThan else HigherThan
  }

  /**
   * The three policies in dict order: lower energy is better, higher
   * throughput is better (the "latency=min" policy), higher accuracy is
   * better.
   */
  function QueryQosPolicies(): seq<QosPolicy> {
    [ QosPolicy("energy_consumption=min", EnergyConsumption, LowerThan),
      QosPolicy("latency=min", Throughput, HigherThan),
      QosPolicy("accuracy=max", Accuracy, HigherThan) ]
  }

  lemma NameTestSelectsComparators()
    ensures ComparisonFor("energy_consumption=min") == LowerThan
    ensures ComparisonFor("latency=min") == HigherThan
    ensures ComparisonFor("accuracy=max") == HigherThan
  {
    assert OccursAt("energy_consumption=min", "=min", 18);
    assert OccursAt("energy_consumption=min", "energy_consumption", 0);
    forall i ensures !OccursAt("accuracy=max", "=min", i) {
      if 0 <= i <= 8 {
        assert 'i' !in "accuracy=max";
        assert "accuracy=max"[i..i + 4][2] == "accuracy=max"[i + 2];
      }
    }
  }

  /**
   * Builds the policy table: attach to each named policy the comparator
   * chosen by its name (`'=min'` and `'energy_consumption'` in the name:
   * lower is better; otherwise higher is better).
   */
  method PrepareQueryQosPolicies() returns (policies: seq<QosPolicy>)
    ensures policies == QueryQosPolicies()
  {
    var named := [("energy_consumption=min", EnergyConsumption), ("latency=min", Throughput), ("accuracy=max", Accuracy)];
    policies := [];
    for i := 0 to |named|
      invariant |policies| == i
      invariant forall j :: 0 <= j < i ==> policies[j] == QosPolicy(named[j].0, named[j].1, ComparisonFor(named[j].0))
    {
      var (name, attribute) := named[i];
      var comparison := if Contains(name, "=min") && Contains(name, "energy_consumption") then LowerThan else HigherThan;
      policies := policies + [QosPolicy(name, attribute, comparison)];
    }
    NameTestSelectsComparators();
  }

  ghost predicate Distinct(ps: seq<QosPolicy>) {
    forall i, j :: 0 <= i < j < |ps| ==> ps[i] != ps[j]
  }

  /** The policy's attribute value of a worker, if the worker has one. */
  function Value(p: QosPolicy, w: Worker): Option<real> {
    AttributeValue(w, p.attribute)
  }

  /** A stored champion always has the policy's attribute. */
  predicate HoldsAttribute(p: QosPolicy, champion: Option<Worker>) {
    champion.Some? ==> Value(p, champion.value).Some?
  }

  /** `a` is at least as good as `b` under `p`: `b` does not beat it. */
  predicate AtLeastAsGood(p: QosPolicy, a: Worker, b: Worker)
    requires Value(p, a).Some? && Value(p, b).Some?
  {
    !Compare(p.comparison, Value(p, b).value, Value(p, a).value)
  }

  /**
   * One iteration of the innermost loop: a worker without the attribute is
   * skipped; otherwise it takes the place of the champion if there is none
   * or if it is strictly better.
   */
  function Consider(p: QosPolicy, champion: Option<Worker>, w: Worker): (r: Option<Worker>)
    requires HoldsAttribute(p, champion)
    ensures HoldsAttribute(p, r)
  {
    match Value(p, w)
    case None => champion
    case Some(v) =>
      if champion.None? || Compare(p.comparison, v, Value(p, champion.value).value) then Some(w)
      else champion
  }

  /** The champion after scanning the workers `ws` in order. */
  function Champion(p: QosPolicy, champion: Option<Worker>, ws: seq<(string, Worker)>): (r: Option<Worker>)
    requires HoldsAttribute(p, champion)
    ensures HoldsAttribute(p, r)
    decreases |ws|
  {
    if ws == [] then champion
    else Consider(p, Champion(p, champion, ws[..|ws| - 1]), ws[|ws| - 1].1)
  }

  /** Once a champion exists it stays, and it never gets worse. */
  lemma {:induction false} ChampionNeverWorse(p: QosPolicy, champion: Option<Worker>, ws: seq<(string, Worker)>)
    requires HoldsAttribute(p, champion) && champion.Some?
    ensures Champion(p, champion, ws).Some?
    ensures AtLeastAsGood(p, Champion(p, champion, ws).value, champion.value)
    decreases |ws|
  {
    if ws != [] {
      ChampionNeverWorse(p, champion, ws[..|ws| - 1]);
    }
  }

  /** No scanned worker that has the attribute is strictly better than the champion. */
  lemma {:induction false} ChampionIsBest(p: QosPolicy, champion: Option<Worker>, ws: seq<(string, Worker)>, k: int)
    requires HoldsAttribute(p, champion)
    requires 0 <= k < |ws| && Value(p, ws[k].1).Some?
    ensures Champion(p, champion, ws).Some?
    ensures AtLeastAsGood(p, Champion(p, champion, ws).value, ws[k].1)
    decreases |ws|
  {
    var n := |ws| - 1;
    if k < n {
      assert ws[..n][k] == ws[k];
      ChampionIsBest(p, champion, ws[..n], k);
    }
  }

  /**
   * `ws[k]` is the first scanned worker with the winning value: it has the
   * attribute, it beats the incumbent strictly, and it beats every earlier
   * worker that has the attribute strictly.
   */
  ghost predicate FirstStrictlyBetter(p: QosPolicy, champion: Option<Worker>, ws: seq<(string, Worker)>, k: int)
    requires HoldsAttribute(p, champion)
    requires 0 <= k < |ws|
  {
    && Value(p, ws[k].1).Some?
    && (champion.Some? ==> Compare(p.comparison, Value(p, ws[k].1).value, Value(p, champion.value).value))
    && forall j :: 0 <= j < k && Value(p, ws[j].1).Some? ==>
         Compare(p.comparison, Value(p, ws[k].1).value, Value(p, ws[j].1).value)
  }

  /**
   * The champion changes only on a strict improvement: either the incumbent
   * stays, or the new champion is a scanned worker with the attribute that
   * is strictly better than the incumbent and than every worker before it
   * (so on equal values the one seen first wins).
   */
  lemma {:induction false} ChampionReplacedOnlyOnStrictImprovement(p: QosPolicy, champion: Option<Worker>, ws: seq<(string, Worker)>)
    requires HoldsAttribute(p, champion)
    ensures var r := Champion(p, champion, ws);
      r == champion || exists k :: 0 <= k < |ws| && FirstStrictlyBetter(p, champion, ws, k) && r == Some(ws[k].1)
    decreases |ws|
  {
    if ws != [] {
      var n := |ws| - 1;
      var prev := Champion(p, champion, ws[..n]);
      var w := ws[n].1;
      ChampionReplacedOnlyOnStrictImprovement(p, champion, ws[..n]);
      if Consider(p, prev, w) == prev {
        if prev != champion {
          var k :| 0 <= k < n && FirstStrictlyBetter(p, champion, ws[..n], k) && prev == Some(ws[..n][k].1);
          assert FirstStrictlyBetter(p, champion, ws, k) by {
            forall j | 0 <= j < k ensures ws[..n][j] == ws[j] { }
          }
        }
      } else {
        var v := Value(p, w).value;
        if champion.Some? {
          ChampionNeverWorse(p, champion, ws[..n]);
        }
        forall j | 0 <= j < n && Value(p, ws[j].1).Some?
          ensures Compare(p.comparison, v, Value(p, ws[j].1).value)
        {
          assert ws[..n][j] == ws[j];
          ChampionIsBest(p, champion, ws[..n], j);
        }
        assert FirstStrictlyBetter(p, champion, ws, n);
      }
    }
  }

  /** On ties the incumbent is kept: equal values never displace it. */
  lemma ChampionKeptOnTies(p: QosPolicy, champion: Option<Worker>, ws: seq<(string, Worker)>)
    requires HoldsAttribute(p, champion) && champion.Some?
    requires forall k :: 0 <= k < |ws| && Value(p, ws[k].1).Some? ==> AtLeastAsGood(p, champion.value, ws[k].1)
    ensures Champion(p, champion, ws) == champion
  {
    ChampionReplacedOnlyOnStrictImprovement(p, champion, ws);
  }

  /** A scan that finds no worker with the attribute leaves the entry alone. */
  lemma ChampionNeedsAttribute(p: QosPolicy, champion: Option<Worker>, ws: seq<(string, Worker)>)
    requires HoldsAttribute(p, champion)
    requires forall k :: 0 <= k < |ws| ==> Value(p, ws[k].1).None?
    ensures Champion(p, champion, ws) == champion
  {
    ChampionReplacedOnlyOnStrictImprovement(p, champion, ws);
  }

  /** `best_workers_by_service_by_qos_policy`, keyed by (policy, service type). */
  type ChampionTable = map<(QosPolicy, string), Worker>

  /** `table.get(qos_policy, {}).get(service_type)` */
  function Lookup(t: ChampionTable, p: QosPolicy, st: string): Option<Worker> {
    if (p, st) in t then Some(t[(p, st)]) else None
  }

  ghost predicate TableHoldsAttributes(t: ChampionTable) {
    forall key :: key in t ==> Value(key.0, t[key]).Some?
  }

  /** Scan one service type's workers for one policy, writing the winner back. */
  function RefreshGroup(t: ChampionTable, p: QosPolicy, st: string, ws: seq<(string, Worker)>): (r: ChampionTable)
    requires TableHoldsAttributes(t)
    ensures TableHoldsAttributes(r)
  {
    var c := Champion(p, Lookup(t, p, st), ws);
    if c.Some? then t[(p, st) := c.value] else t
  }

  /** Scan every service type, in order, for one policy. */
  function RefreshPolicy(t: ChampionTable, p: QosPolicy, sw: ServiceWorkers): (r: ChampionTable)
    requires TableHoldsAttributes(t)
    ensures TableHoldsAttributes(r)
    decreases |sw|
  {
    if sw == [] then t
    else
      var n := |sw| - 1;
      RefreshGroup(RefreshPolicy(t, p, sw[..n]), p, sw[n].0, sw[n].1.workers)
  }

  /** The whole update: every policy, in order, over every service type. */
  function RefreshTable(t: ChampionTable, ps: seq<QosPolicy>, sw: ServiceWorkers): (r: ChampionTable)
    requires TableHoldsAttributes(t)
    ensures TableHoldsAttributes(r)
    decreases |ps|
  {
    if ps == [] then t
    else
      var n := |ps| - 1;
      RefreshPolicy(RefreshTable(t, ps[..n], sw), ps[n], sw)
  }

  lemma RefreshGroupLookup(t: ChampionTable, p: QosPolicy, st: string, ws: seq<(string, Worker)>, p': QosPolicy, st': string)
    requires TableHoldsAttributes(t)
    ensures Lookup(RefreshGroup(t, p, st, ws), p', st') ==
      if p' == p && st' == st then Champion(p, Lookup(t, p, st), ws) else Lookup(t, p', st')
  {
    if Lookup(t, p, st).Some? {
      ChampionNeverWorse(p, Lookup(t, p, st), ws);
    }
  }

  /**
   * One worker of the innermost loop: skipped without the attribute or when
   * it does not beat the stored champion, written back otherwise.
   */
  lemma RefreshGroupStep(t: ChampionTable, p: QosPolicy, st: string, ws: seq<(string, Worker)>, k: int)
    requires TableHoldsAttributes(t) && 0 <= k < |ws|
    ensures var before := RefreshGroup(t, p, st, ws[..k]);
      var v := Value(p, ws[k].1);
      var best := Lookup(before, p, st);
      RefreshGroup(t, p, st, ws[..k + 1]) ==
        if v.None? || (best.Some? && !Compare(p.comparison, v.value, Value(p, best.value).value)) then before
        else before[(p, st) := ws[k].1]
  {
    assert ws[..k + 1][..k] == ws[..k];
    var before := RefreshGroup(t, p, st, ws[..k]);
    RefreshGroupLookup(t, p, st, ws[..k], p, st);
    var c := Champion(p, Lookup(t, p, st), ws[..k]);
    if c.Some? {
      assert before == t[(p, st) := c.value];
      assert before[(p, st) := c.value] == before;
    }
  }

  lemma {:induction false} RefreshPolicyLookupScanned(t: ChampionTable, p: QosPolicy, sw: ServiceWorkers)
    requires TableHoldsAttributes(t) && UniqueKeys(sw)
    ensures forall j :: 0 <= j < |sw| ==>
      Lookup(RefreshPolicy(t, p, sw), p, sw[j].0) == Champion(p, Lookup(t, p, sw[j].0), sw[j].1.workers)
    decreases |sw|
  {
    if sw != [] {
      var n := |sw| - 1;
      var prefix := sw[..n];
      var t' := RefreshPolicy(t, p, prefix);
      LastKeyIsNew(sw);
      RefreshPolicyLookupScanned(t, p, prefix);
      RefreshPolicyLookupOthers(t, p, prefix);
      forall j | 0 <= j < |sw|
        ensures Lookup(RefreshPolicy(t, p, sw), p, sw[j].0) == Champion(p, Lookup(t, p, sw[j].0), sw[j].1.workers)
      {
        RefreshGroupLookup(t', p, sw[n].0, sw[n].1.workers, p, sw[j].0);
        if j < n {
          assert prefix[j] == sw[j];
          assert sw[j].0 != sw[n].0;
        }
      }
    }
  }

  lemma {:induction false} RefreshPolicyLookupOthers(t: ChampionTable, p: QosPolicy, sw: ServiceWorkers)
    requires TableHoldsAttributes(t)
    ensures forall p', st' :: p' != p || st' !in Keys(sw) ==>
      Lookup(RefreshPolicy(t, p, sw), p', st') == Lookup(t, p', st')
    decreases |sw|
  {
    if sw != [] {
      var n := |sw| - 1;
      var prefix := sw[..n];
      var t' := RefreshPolicy(t, p, prefix);
      RefreshPolicyLookupOthers(t, p, prefix);
      KeysOfPrefix(sw, n);
      forall p', st' | p' != p || st' !in Keys(sw)
        ensures Lookup(RefreshPolicy(t, p, sw), p', st') == Lookup(t, p', st')
      {
        RefreshGroupLookup(t', p, sw[n].0, sw[n].1.workers, p', st');
        if p' == p {
          assert st' != Keys(sw)[n];
          assert st' !in Keys(prefix);
        }
      }
    }
  }

  /**
   * What the update leaves in the table: for a policy in `ps` and a service
   * type in `sw`, the champion of scanning that type's workers starting
   * from the stored one; every other entry as it was.
   */
  lemma {:induction false} RefreshTableLookup(t: ChampionTable, ps: seq<QosPolicy>, sw: ServiceWorkers)
    requires TableHoldsAttributes(t) && UniqueKeys(sw) && Distinct(ps)
    ensures forall p, j :: p in ps && 0 <= j < |sw| ==>
      Lookup(RefreshTable(t, ps, sw), p, sw[j].0) == Champion(p, Lookup(t, p, sw[j].0), sw[j].1.workers)
    ensures forall p, st :: p !in ps || st !in Keys(sw) ==>
      Lookup(RefreshTable(t, ps, sw), p, st) == Lookup(t, p, st)
    decreases |ps|
  {
    if ps != [] {
      var n := |ps| - 1;
      var t' := RefreshTable(t, ps[..n], sw);
      RefreshTableLookup(t, ps[..n], sw);
      RefreshPolicyLookupScanned(t', ps[n], sw);
      RefreshPolicyLookupOthers(t', ps[n], sw);
      assert ps[n] !in ps[..n] by {
        forall m | 0 <= m < n ensures ps[..n][m] != ps[n] {
          assert ps[..n][m] == ps[m];
        }
      }
      forall p, j | p in ps && 0 <= j < |sw|
        ensures Lookup(RefreshTable(t, ps, sw), p, sw[j].0) == Champion(p, Lookup(t, p, sw[j].0), sw[j].1.workers)
      {
        if p != ps[n] {
          assert p in ps[..n];
        }
      }
      forall p, st | p !in ps || st !in Keys(sw)
        ensures Lookup(RefreshTable(t, ps, sw), p, st) == Lookup(t, p, st)
      {
        if p !in ps {
          assert p !in ps[..n];
        }
      }
    }
  }

  /**
   * No worker of a scanned service type that has a policy's attribute is
   * strictly better than that type's champion for the policy.
   */
  ghost predicate ChampionsDominate(t: ChampionTable, ps: seq<QosPolicy>, sw: ServiceWorkers) {
    forall p, j, k :: p in ps && 0 <= j < |sw| && 0 <= k < |sw[j].1.workers| && Value(p, sw[j].1.workers[k].1).Some? ==>
      && Lookup(t, p, sw[j].0).Some?
      && Value(p, Lookup(t, p, sw[j].0).value).Some?
      && AtLeastAsGood(p, Lookup(t, p, sw[j].0).value, sw[j].1.workers[k].1)
  }

  /** Every champion of `t` is still a champion in `t'`, and no worse. */
  ghost predicate NoChampionWorse(t: ChampionTable, t': ChampionTable)
    requires TableHoldsAttributes(t) && TableHoldsAttributes(t')
  {
    forall key :: key in t ==> key in t' && AtLeastAsGood(key.0, t'[key], t[key])
  }

  /**
   * After the update every champion dominates the workers of its service
   * type, and no stored champion got worse, even if its own worker has
   * since announced a worse value.
   */
  lemma RefreshTableSound(t: ChampionTable, ps: seq<QosPolicy>, sw: ServiceWorkers)
    requires TableHoldsAttributes(t) && UniqueKeys(sw) && Distinct(ps)
    ensures ChampionsDominate(RefreshTable(t, ps, sw), ps, sw)
    ensures NoChampionWorse(t, RefreshTable(t, ps, sw))
  {
    var r := RefreshTable(t, ps, sw);
    RefreshTableLookup(t, ps, sw);
    forall p, j, k | p in ps && 0 <= j < |sw| && 0 <= k < |sw[j].1.workers| && Value(p, sw[j].1.workers[k].1).Some?
      ensures Lookup(r, p, sw[j].0).Some? && AtLeastAsGood(p, Lookup(r, p, sw[j].0).value, sw[j].1.workers[k].1)
    {
      ChampionIsBest(p, Lookup(t, p, sw[j].0), sw[j].1.workers, k);
    }
    forall key | key in t
      ensures key in r && AtLeastAsGood(key.0, r[key], t[key])
    {
      var (p, st) := key;
      assert Lookup(t, p, st) == Some(t[key]);
      if p in ps && st in Keys(sw) {
        var j :| 0 <= j < |sw| && Keys(sw)[j] == st;
        ChampionNeverWorse(p, Lookup(t, p, st), sw[j].1.workers);
      }
    }
  }
}

/**
 * The rule base of the uncertainty analysis' fuzzy inference system, as
 * data: which usage label each (max capacity, queue size) pair of labels
 * leads to. The membership functions and the inference itself are not
 * modelled.
 */
module FuzzyRules {

  /** The five membership-function labels of every fuzzy variable. */
  datatype Label = VeryLow | Low | Medium | High | VeryHigh

  /** The labels' order, from `very_low` (0) to `very_high` (4). */
  function Rank(l: Label): nat {
    match l
    case VeryLow => 0
    case Low => 1
    case Medium => 2
    case High => 3
    case VeryHigh => 4
  }

  /** The capacity side of a rule: absent, or a disjunction of labels. */
  datatype CapacityCondition = AnyCapacity | CapacityIn(labels: set<Label>)

  /** `ctrl.Rule(adp_max_cap[...] & queue_size[...], usage[...])` */
  datatype Rule = Rule(capacity: CapacityCondition, queueSize: Label, usage: Label)

  function Cap(l: Label): CapacityCondition {
    CapacityIn({l})
  }

  /** `build_fis`'s rules, in the order they are appended. */
  function RuleBase(): seq<Rule> {
    [
      // queue size very_low
      Rule(AnyCapacity, VeryLow, VeryLow),
      // queue size low
      Rule(Cap(VeryLow), Low, High),
      Rule(Cap(Low), Low, Medium),
      Rule(CapacityIn({Medium, High}), Low, Low),
      Rule(Cap(VeryHigh), Low, VeryLow),
      // queue size medium
      Rule(Cap(VeryLow), Medium, VeryHigh),
      Rule(Cap(Low), Medium, High),
      Rule(Cap(Medium), Medium, High),
      Rule(Cap(High), Medium, Medium),
      Rule(Cap(VeryHigh), Medium, Low),
      // queue size high
      Rule(Cap(VeryLow), High, VeryHigh),
      Rule(Cap(Low), High, VeryHigh),
      Rule(Cap(Medium), High, VeryHigh),
      Rule(Cap(High), High, High),
      Rule(Cap(VeryHigh), High, Medium),
      // queue size very_high
      Rule(Cap(VeryLow), VeryHigh, VeryHigh),
      Rule(Cap(Low), VeryHigh, VeryHigh),
      Rule(Cap(Medium), VeryHigh, VeryHigh),
      Rule(Cap(High), VeryHigh, VeryHigh),
      Rule(Cap(VeryHigh), VeryHigh, High)
    ]
  }

  /** A rule's antecedent matches a pair of crisp labels. */
  predicate Fires(r: Rule, capacity: Label, queueSize: Label) {
    && r.queueSize == queueSize
    && (r.capacity.AnyCapacity? || capacity in r.capacity.labels)
  }

  /**
   * The usage each pair of labels leads to, written as a table: rows by queue
   * size, columns by max capacity from `very_low` to `very_high`.
   */
  function UsageTable(capacity: Label, queueSize: Label): Label {
    var row := match queueSize
      case VeryLow => [VeryLow, VeryLow, VeryLow, VeryLow, VeryLow]
      case Low => [High, Medium, Low, Low, VeryLow]
      case Medium => [VeryHigh, High, High, Medium, Low]
      case High => [VeryHigh, VeryHigh, VeryHigh, High, Medium]
      case VeryHigh => [VeryHigh, VeryHigh, VeryHigh, VeryHigh, High];
    row[Rank(capacity)]
  }

  /**
   * Where in the rule base the rule for a pair sits: the one unconditional
   * rule first, then four rules for a low queue (medium and high capacity
   * share one), then five per remaining queue label.
   */
  function RuleIndex(capacity: Label, queueSize: Label): nat {
    match queueSize
    case VeryLow => 0
    case Low => (match capacity case VeryLow => 1 case Low => 2 case Medium => 3 case High => 3 case VeryHigh => 4)
    case Medium => 5 + Rank(capacity)
    case High => 10 + Rank(capacity)
    case VeryHigh => 15 + Rank(capacity)
  }

  /**
   * The rule base is complete and unambiguous: of its 20 rules, exactly the
   * one at `RuleIndex` fires on a pair of labels, and it concludes the
   * table's usage.
   */
  lemma RuleCoverage(capacity: Label, queueSize: Label)
    ensures |RuleBase()| == 20
    ensures forall i :: 0 <= i < |RuleBase()| ==> (Fires(RuleBase()[i], capacity, queueSize) <==> i == RuleIndex(capacity, queueSize))
    ensures RuleBase()[RuleIndex(capacity, queueSize)].usage == UsageTable(capacity, queueSize)
  {
  }

  /** Any rule that fires on a pair concludes the table's usage. */
  lemma FiringUsage(capacity: Label, queueSize: Label, i: int)
    requires 0 <= i < |RuleBase()| && Fires(RuleBase()[i], capacity, queueSize)
    ensures RuleBase()[i].usage == UsageTable(capacity, queueSize)
  {
    RuleCoverage(capacity, queueSize);
  }

  /** An empty queue means very low usage, whatever the capacity. */
  lemma QueueVeryLowMeansUsageVeryLow(capacity: Label, i: int)
    requires 0 <= i < |RuleBase()| && Fires(RuleBase()[i], capacity, VeryLow)
    ensures RuleBase()[i].usage == VeryLow
  {
    FiringUsage(capacity, VeryLow, i);
  }

  /** For a fixed capacity, a longer queue never means lower usage. */
  lemma UsageMonotoneInQueueSize(capacity: Label, q1: Label, q2: Label, i: int, j: int)
    requires Rank(q1) <= Rank(q2)
    requires 0 <= i < |RuleBase()| && Fires(RuleBase()[i], capacity, q1)
    requires 0 <= j < |RuleBase()| && Fires(RuleBase()[j], capacity, q2)
    ensures Rank(RuleBase()[i].usage) <= Rank(RuleBase()[j].usage)
  {
    FiringUsage(capacity, q1, i);
    FiringUsage(capacity, q2, j);
  }

  /** For a fixed queue size, a larger capacity never means higher usage. */
  lemma UsageAntitoneInCapacity(c1: Label, c2: Label, queueSize: Label, i: int, j: int)
    requires Rank(c1) <= Rank(c2)
    requires 0 <= i < |RuleBase()| && Fires(RuleBase()[i], c1, queueSize)
    requires 0 <= j < |RuleBase()| && Fires(RuleBase()[j], c2, queueSize)
    ensures Rank(RuleBase()[j].usage) <= Rank(RuleBase()[i].usage)
  {
    FiringUsage(c1, queueSize, i);
    FiringUsage(c2, queueSize, j);
  }
}

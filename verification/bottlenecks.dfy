/**
 * The bottleneck detector: five threshold rules, each contributing at most one
 * item, sorted stably by severity (critical, high, medium) and cut to four.
 */
module Bottlenecks {
  import opened Optional
  import opened Benchmarks
  import opened Types
  import opened Resolvers
  import opened Lists

  // ─── The five rules ─────────────────────────────────────────────────────────

  /** Rule 1: a start slower than the "poor" mark is critical, slower than "acceptable" high. */
  function StartTimeRule(days: real): (item: Option<BottleneckItem>)
    ensures item.Some? ==> item.value.rule == StartTime
    ensures item.Some? && item.value.severity == Critical <==> days > BENCHMARKS.referralToStart.poor
    ensures item.Some? && item.value.severity == High <==>
      BENCHMARKS.referralToStart.acceptable < days <= BENCHMARKS.referralToStart.poor
    ensures item.None? <==> days <= BENCHMARKS.referralToStart.acceptable
    ensures item.Some? ==> item.value.severity != Medium
  {
    if days > BENCHMARKS.referralToStart.poor then
      Some(BottleneckItem(StartTime, "Critical Therapy Start Delay", Critical))
    else if days > BENCHMARKS.referralToStart.acceptable then
      Some(BottleneckItem(StartTime, "Above-Benchmark Therapy Start Time", High))
    else None
  }

  /**
   * Rule 2: leakage over "acceptable" is high, or critical over "poor";
   * leakage over "good" alone is medium.
   */
  function LeakageRule(pct: real): (item: Option<BottleneckItem>)
    ensures item.Some? ==> item.value.rule == Leakage
    ensures item.Some? && item.value.severity == Critical <==> pct > BENCHMARKS.referralLeakage.poor
    ensures item.Some? && item.value.severity == High <==>
      BENCHMARKS.referralLeakage.acceptable < pct <= BENCHMARKS.referralLeakage.poor
    ensures item.Some? && item.value.severity == Medium <==>
      BENCHMARKS.referralLeakage.good < pct <= BENCHMARKS.referralLeakage.acceptable
    ensures item.None? <==> pct <= BENCHMARKS.referralLeakage.good
  {
    var b := BENCHMARKS.referralLeakage;
    if pct > b.acceptable then
      Some(BottleneckItem(Leakage, "High Referral Leakage Rate", if pct > b.poor then Critical else High))
    else if pct > b.good then
      Some(BottleneckItem(Leakage, "Elevated Referral Leakage", Medium))
    else None
  }

  /** Rule 3: a caseload over max is critical, over targetMax high. */
  function NurseCapacityRule(ipn: real): (item: Option<BottleneckItem>)
    ensures item.Some? ==> item.value.rule == Caseload
    ensures item.Some? && item.value.severity == Critical <==> ipn > BENCHMARKS.nurseCapacity.max
    ensures item.Some? && item.value.severity == High <==>
      BENCHMARKS.nurseCapacity.targetMax < ipn <= BENCHMARKS.nurseCapacity.max
    ensures item.None? <==> ipn <= BENCHMARKS.nurseCapacity.targetMax
    ensures item.Some? ==> item.value.severity != Medium
  {
    if ipn > BENCHMARKS.nurseCapacity.max then
      Some(BottleneckItem(Caseload, "Nurse Capacity Constraint", Critical))
    else if ipn > BENCHMARKS.nurseCapacity.targetMax then
      Some(BottleneckItem(Caseload, "Near-Capacity Staffing", High))
    else None
  }

  /** Rule 4: with positive revenue, a margin share under 15% is high, under 8% critical. */
  function MarginRule(revenue: real, marginPct: real): (item: Option<BottleneckItem>)
    ensures item.Some? ==> item.value.rule == Margin
    ensures item.Some? <==> revenue > 0.0 && marginPct < 15.0
    ensures item.Some? ==> (item.value.severity == Critical <==> marginPct < 8.0)
    ensures item.Some? ==> item.value.severity != Medium
  {
    if marginPct < 15.0 && revenue > 0.0 then
      Some(BottleneckItem(Margin, "Margin Compression Risk", if marginPct < 8.0 then Critical else High))
    else None
  }

  /** Rule 5: a reported readmission rate over "acceptable" is high, over "poor" critical. */
  function ReadmissionRule(rate: Option<real>): (item: Option<BottleneckItem>)
    ensures item.Some? ==> item.value.rule == Readmission
    ensures item.Some? <==> rate.Some? && rate.value > BENCHMARKS.readmissionRate.acceptable
    ensures item.Some? ==> (item.value.severity == Critical <==> rate.value > BENCHMARKS.readmissionRate.poor)
    ensures item.Some? ==> item.value.severity != Medium
  {
    if rate.Some? && rate.value > BENCHMARKS.readmissionRate.acceptable then
      Some(BottleneckItem(Readmission, "Elevated Readmission Rate",
        if rate.value > BENCHMARKS.readmissionRate.poor then Critical else High))
    else None
  }

  function AsSeq(item: Option<BottleneckItem>): (s: seq<BottleneckItem>)
    ensures item.Some? ==> s == [item.value]
    ensures item.None? ==> s == []
  {
    match item
    case Some(x) => [x]
    case None => []
  }

  /** The position of a rule in the order the detector evaluates them. */
  function RuleOrder(r: Rule): nat {
    match r
    case StartTime => 0
    case Leakage => 1
    case Caseload => 2
    case Margin => 3
    case Readmission => 4
  }

  /** The figures the five rules read, derived once from the inputs. */
  datatype Readings = Readings(
    days: real, lossPercent: real, infusionsPerNurse: real,
    revenue: real, marginPct: real, readmission: Option<real>)

  function ReadingsOf(inputs: FormInputs): (r: Readings)
    ensures r.days == inputs.daysToInfusionStart && r.lossPercent == inputs.referralLossPercent
    ensures r.infusionsPerNurse == InfusionsPerNurse(inputs)
    ensures r.revenue == ResolveRevenuePerInfusion(inputs) && r.marginPct == MarginPercent(inputs)
    ensures r.readmission == inputs.readmissionRate
  {
    Readings(inputs.daysToInfusionStart, inputs.referralLossPercent, InfusionsPerNurse(inputs),
      ResolveRevenuePerInfusion(inputs), MarginPercent(inputs), inputs.readmissionRate)
  }

  predicate RulesIncreasing(s: seq<BottleneckItem>) {
    forall i, j :: 0 <= i < j < |s| ==> RuleOrder(s[i].rule) < RuleOrder(s[j].rule)
  }

  predicate RulesBelow(s: seq<BottleneckItem>, k: nat) {
    forall i :: 0 <= i < |s| ==> RuleOrder(s[i].rule) < k
  }

  /** Appending the item of rule number `k` to items of earlier rules keeps them in rule order. */
  lemma AppendRule(s: seq<BottleneckItem>, item: Option<BottleneckItem>, k: nat)
    requires RulesIncreasing(s) && RulesBelow(s, k)
    requires item.Some? ==> RuleOrder(item.value.rule) == k
    ensures RulesIncreasing(s + AsSeq(item)) && RulesBelow(s + AsSeq(item), k + 1)
    ensures |s + AsSeq(item)| <= |s| + 1
  {
  }

  /** Five rules' outcomes, numbered 0 to 4 in rule order, joined into one list. */
  function Join(o0: Option<BottleneckItem>, o1: Option<BottleneckItem>, o2: Option<BottleneckItem>,
                o3: Option<BottleneckItem>, o4: Option<BottleneckItem>): seq<BottleneckItem>
  {
    AsSeq(o0) + AsSeq(o1) + AsSeq(o2) + AsSeq(o3) + AsSeq(o4)
  }

  /** When the k-th outcome belongs to rule number k, the joined list is in rule order. */
  lemma JoinInRuleOrder(o0: Option<BottleneckItem>, o1: Option<BottleneckItem>, o2: Option<BottleneckItem>,
                        o3: Option<BottleneckItem>, o4: Option<BottleneckItem>)
    requires o0.Some? ==> RuleOrder(o0.value.rule) == 0
    requires o1.Some? ==> RuleOrder(o1.value.rule) == 1
    requires o2.Some? ==> RuleOrder(o2.value.rule) == 2
    requires o3.Some? ==> RuleOrder(o3.value.rule) == 3
    requires o4.Some? ==> RuleOrder(o4.value.rule) == 4
    ensures |Join(o0, o1, o2, o3, o4)| <= 5
    ensures RulesIncreasing(Join(o0, o1, o2, o3, o4))
  {
    var a, b, c, d, e := AsSeq(o0), AsSeq(o1), AsSeq(o2), AsSeq(o3), AsSeq(o4);
    assert RulesIncreasing(a) && RulesBelow(a, 1) && |a| <= 1 by {
      AppendRule([], o0, 0);
      assert [] + a == a;
    }
    assert RulesIncreasing(a + b) && RulesBelow(a + b, 2) && |a + b| <= 2 by {
      AppendRule(a, o1, 1);
    }
    assert RulesIncreasing(a + b + c) && RulesBelow(a + b + c, 3) && |a + b + c| <= 3 by {
      AppendRule(a + b, o2, 2);
    }
    assert RulesIncreasing(a + b + c + d) && RulesBelow(a + b + c + d, 4) && |a + b + c + d| <= 4 by {
      AppendRule(a + b + c, o3, 3);
    }
    AppendRule(a + b + c + d, o4, 4);
  }

  /** The joined list holds exactly the items of the outcomes that fired. */
  lemma JoinContents(o0: Option<BottleneckItem>, o1: Option<BottleneckItem>, o2: Option<BottleneckItem>,
                     o3: Option<BottleneckItem>, o4: Option<BottleneckItem>)
    ensures forall x :: x in Join(o0, o1, o2, o3, o4) <==>
      o0 == Some(x) || o1 == Some(x) || o2 == Some(x) || o3 == Some(x) || o4 == Some(x)
  {
    forall x
      ensures x in Join(o0, o1, o2, o3, o4) <==>
        o0 == Some(x) || o1 == Some(x) || o2 == Some(x) || o3 == Some(x) || o4 == Some(x)
    {
      assert x in Join(o0, o1, o2, o3, o4) <==>
        x in AsSeq(o0) || x in AsSeq(o1) || x in AsSeq(o2) || x in AsSeq(o3) || x in AsSeq(o4);
    }
  }

  /** When only the second outcome may be medium, every medium item of the joined list is that outcome. */
  lemma JoinMedium(o0: Option<BottleneckItem>, o1: Option<BottleneckItem>, o2: Option<BottleneckItem>,
                   o3: Option<BottleneckItem>, o4: Option<BottleneckItem>)
    requires o0.Some? ==> o0.value.severity != Medium
    requires o2.Some? ==> o2.value.severity != Medium
    requires o3.Some? ==> o3.value.severity != Medium
    requires o4.Some? ==> o4.value.severity != Medium
    ensures forall x :: x in Join(o0, o1, o2, o3, o4) && x.severity == Medium ==> o1 == Some(x)
  {
    forall x | x in Join(o0, o1, o2, o3, o4) && x.severity == Medium
      ensures o1 == Some(x)
    {
      assert x in AsSeq(o0) || x in AsSeq(o1) || x in AsSeq(o2) || x in AsSeq(o3) || x in AsSeq(o4);
    }
  }

  /**
   * The outcomes of the five rules, in rule order: an item is listed exactly
   * when one of the rules fired with it.
   */
  function Collected(r: Readings): (items: seq<BottleneckItem>)
    ensures |items| <= 5
    ensures RulesIncreasing(items)
    ensures forall x :: x in items <==>
      StartTimeRule(r.days) == Some(x) || LeakageRule(r.lossPercent) == Some(x)
      || NurseCapacityRule(r.infusionsPerNurse) == Some(x)
      || MarginRule(r.revenue, r.marginPct) == Some(x) || ReadmissionRule(r.readmission) == Some(x)
  {
    var o0, o1, o2 := StartTimeRule(r.days), LeakageRule(r.lossPercent), NurseCapacityRule(r.infusionsPerNurse);
    var o3, o4 := MarginRule(r.revenue, r.marginPct), ReadmissionRule(r.readmission);
    JoinInRuleOrder(o0, o1, o2, o3, o4);
    JoinContents(o0, o1, o2, o3, o4);
    Join(o0, o1, o2, o3, o4)
  }

  /** Only the leakage rule, for leakage between "good" and "acceptable", adds a medium item. */
  lemma MediumOnlyFromLeakage(r: Readings)
    ensures forall x :: x in Collected(r) && x.severity == Medium ==>
      x.rule == Leakage
      && BENCHMARKS.referralLeakage.good < r.lossPercent <= BENCHMARKS.referralLeakage.acceptable
  {
    var o1 := LeakageRule(r.lossPercent);
    JoinMedium(StartTimeRule(r.days), o1, NurseCapacityRule(r.infusionsPerNurse),
      MarginRule(r.revenue, r.marginPct), ReadmissionRule(r.readmission));
  }

  // ─── Stable sort by severity ────────────────────────────────────────────────

  predicate Sorted(s: seq<BottleneckItem>) {
    forall i, j :: 0 <= i < j < |s| ==> s[i].severity.Rank() <= s[j].severity.Rank()
  }

  /** The items of one severity, in their original order. */
  function Filter(s: seq<BottleneckItem>, v: Severity): (r: seq<BottleneckItem>)
    ensures |r| <= |s|
  {
    if s == [] then []
    else (if s[0].severity == v then [s[0]] else []) + Filter(s[1..], v)
  }

  /** Critical items, then high, then medium, each group in original order. */
  function Buckets(s: seq<BottleneckItem>): seq<BottleneckItem> {
    Filter(s, Critical) + Filter(s, High) + Filter(s, Medium)
  }

  /** Places `x` in front of the first item that does not outrank it. */
  function Insert(x: BottleneckItem, s: seq<BottleneckItem>): (r: seq<BottleneckItem>)
    ensures |r| == |s| + 1
    ensures multiset(r) == multiset(s) + multiset{x}
  {
    if s == [] || x.severity.Rank() <= s[0].severity.Rank() then [x] + s
    else
      assert s == [s[0]] + s[1..];
      [s[0]] + Insert(x, s[1..])
  }

  /**
   * The comparison sort with comparator `rank(a) - rank(b)`: an insertion sort that
   * keeps items of equal severity in their original order.
   */
  function SortBySeverity(s: seq<BottleneckItem>): (r: seq<BottleneckItem>)
    ensures |r| == |s|
    ensures multiset(r) == multiset(s)
  {
    if s == [] then []
    else
      assert s == [s[0]] + s[1..];
      Insert(s[0], SortBySeverity(s[1..]))
  }

  /** One step of `Filter`: the head joins the result exactly when it has the severity. */
  lemma FilterCons(h: BottleneckItem, t: seq<BottleneckItem>, v: Severity)
    ensures Filter([h] + t, v) == (if h.severity == v then [h] else []) + Filter(t, v)
  {
    assert ([h] + t)[1..] == t;
  }

  /** Inserting `x` adds it to the front of its own severity group and leaves the others alone. */
  lemma {:induction false} FilterInsert(x: BottleneckItem, s: seq<BottleneckItem>, v: Severity)
    ensures Filter(Insert(x, s), v) == if x.severity == v then [x] + Filter(s, v) else Filter(s, v)
    decreases |s|
  {
    if s == [] || x.severity.Rank() <= s[0].severity.Rank() {
      FilterCons(x, s, v);
    } else {
      var h, t := s[0], s[1..];
      assert s == [h] + t;
      FilterInsert(x, t, v);
      FilterCons(h, Insert(x, t), v);
      FilterCons(h, t, v);
      assert h.severity != x.severity;
    }
  }

  /** Sorting keeps every severity group intact and in its original order (stability). */
  lemma {:induction false} SortKeepsGroups(s: seq<BottleneckItem>, v: Severity)
    ensures Filter(SortBySeverity(s), v) == Filter(s, v)
    decreases |s|
  {
    if s != [] {
      SortKeepsGroups(s[1..], v);
      FilterInsert(s[0], SortBySeverity(s[1..]), v);
    }
  }

  /** Every item of `s` has rank at least `k`. */
  predicate AllAtLeast(s: seq<BottleneckItem>, k: nat) {
    forall i :: 0 <= i < |s| ==> s[i].severity.Rank() >= k
  }

  /** A sorted tail behind a head that outranks all of it is sorted. */
  lemma SortedCons(h: BottleneckItem, t: seq<BottleneckItem>)
    requires Sorted(t) && AllAtLeast(t, h.severity.Rank())
    ensures Sorted([h] + t)
  {
    var r := [h] + t;
    forall i, j | 0 <= i < j < |r|
      ensures r[i].severity.Rank() <= r[j].severity.Rank()
    {
      assert r[j] == t[j - 1];
      if i > 0 {
        assert r[i] == t[i - 1];
      }
    }
  }

  /** Inserting an item of rank at least `k` among such items keeps the bound. */
  lemma {:induction false} InsertAtLeast(x: BottleneckItem, s: seq<BottleneckItem>, k: nat)
    requires AllAtLeast(s, k) && x.severity.Rank() >= k
    ensures AllAtLeast(Insert(x, s), k)
    decreases |s|
  {
    if s != [] && x.severity.Rank() > s[0].severity.Rank() {
      var t := s[1..];
      assert forall i :: 0 <= i < |t| ==> t[i] == s[i + 1];
      InsertAtLeast(x, t, k);
      var r := Insert(x, s);
      assert r == [s[0]] + Insert(x, t);
      assert forall i :: 1 <= i < |r| ==> r[i] == Insert(x, t)[i - 1];
    }
  }

  lemma {:induction false} InsertSorted(x: BottleneckItem, s: seq<BottleneckItem>)
    requires Sorted(s)
    ensures Sorted(Insert(x, s))
    decreases |s|
  {
    if s == [] || x.severity.Rank() <= s[0].severity.Rank() {
      assert forall i :: 0 <= i < |s| ==> s[0].severity.Rank() <= s[i].severity.Rank();
      SortedCons(x, s);
    } else {
      var t := s[1..];
      assert forall i :: 0 <= i < |t| ==> t[i] == s[i + 1];
      assert Sorted(t);
      InsertSorted(x, t);
      InsertAtLeast(x, t, s[0].severity.Rank());
      SortedCons(s[0], Insert(x, t));
      assert Insert(x, s) == [s[0]] + Insert(x, t);
    }
  }

  lemma {:induction false} SortSorted(s: seq<BottleneckItem>)
    ensures Sorted(SortBySeverity(s))
    decreases |s|
  {
    if s != [] {
      SortSorted(s[1..]);
      InsertSorted(s[0], SortBySeverity(s[1..]));
    }
  }

  lemma {:induction false} NoneOfFilter(s: seq<BottleneckItem>, v: Severity)
    requires forall i :: 0 <= i < |s| ==> s[i].severity != v
    ensures Filter(s, v) == []
    decreases |s|
  {
    if s != [] {
      assert forall i :: 0 <= i < |s[1..]| ==> s[1..][i] == s[i + 1];
      NoneOfFilter(s[1..], v);
    }
  }

  /** The tail of a sorted list is sorted and outranked by its head. */
  lemma SortedTail(s: seq<BottleneckItem>)
    requires Sorted(s) && s != []
    ensures Sorted(s[1..]) && AllAtLeast(s[1..], s[0].severity.Rank())
  {
    var t := s[1..];
    assert forall i :: 0 <= i < |t| ==> t[i] == s[i + 1];
  }

  /** The grouping of a list whose head outranks its tail: the head joins the front of its own group. */
  lemma BucketsCons(h: BottleneckItem, t: seq<BottleneckItem>)
    requires AllAtLeast(t, h.severity.Rank())
    ensures Buckets([h] + t) == [h] + Buckets(t)
  {
    var s := [h] + t;
    assert s[1..] == t;
    match h.severity
    case Critical =>
    case High =>
      NoneOfFilter(t, Critical);
    case Medium =>
      NoneOfFilter(t, Critical);
      NoneOfFilter(t, High);
  }

  /** A list already sorted by severity is its own grouping into severities. */
  lemma {:induction false} SortedIsBuckets(s: seq<BottleneckItem>)
    requires Sorted(s)
    ensures s == Buckets(s)
    decreases |s|
  {
    if s != [] {
      SortedTail(s);
      SortedIsBuckets(s[1..]);
      BucketsCons(s[0], s[1..]);
      assert s == [s[0]] + s[1..];
    }
  }

  /**
   * The sort agrees with an independent definition: critical items, then high,
   * then medium, each group in the order the rules produced them.
   */
  lemma {:induction false} SortIsStable(s: seq<BottleneckItem>)
    ensures SortBySeverity(s) == Buckets(s)
  {
    var r := SortBySeverity(s);
    SortSorted(s);
    SortedIsBuckets(r);
    SortKeepsGroups(s, Critical);
    SortKeepsGroups(s, High);
    SortKeepsGroups(s, Medium);
  }

  // ─── The detector ───────────────────────────────────────────────────────────

  /**
   * Sort by severity and keep the first four: a sorted prefix of the severity
   * grouping, drawn from the given items.
   */
  function Prioritize(items: seq<BottleneckItem>): (r: seq<BottleneckItem>)
    ensures |r| <= 4 && |r| <= |items|
    ensures Sorted(r)
    ensures r == Take(Buckets(items), 4)
    ensures forall x :: x in r ==> x in items
  {
    SortSorted(items);
    SortIsStable(items);
    SortedMembers(items);
    TakeKeeps(SortBySeverity(items), 4);
    Take(SortBySeverity(items), 4)
  }

  lemma SortedMembers(items: seq<BottleneckItem>)
    ensures forall x :: x in SortBySeverity(items) ==> x in items
  {
    var sorted := SortBySeverity(items);
    forall x | x in sorted ensures x in items {
      assert x in multiset(sorted);
    }
  }

  /** A prefix of a sorted list is sorted and holds only items of the list. */
  lemma TakeKeeps(s: seq<BottleneckItem>, n: nat)
    ensures Sorted(s) ==> Sorted(Take(s, n))
    ensures forall x :: x in Take(s, n) ==> x in s
  {
    var t := Take(s, n);
    assert forall i :: 0 <= i < |t| ==> t[i] == s[i];
  }

  /** `calcBottlenecks`: the triggered rules' items, sorted by severity, at most four. */
  function CalcBottlenecks(inputs: FormInputs): (r: seq<BottleneckItem>)
    ensures |r| <= 4
    ensures Sorted(r)
    ensures r == Take(Buckets(Collected(ReadingsOf(inputs))), 4)
    ensures forall x :: x in r && x.severity == Medium ==>
      x.rule == Leakage
      && BENCHMARKS.referralLeakage.good < inputs.referralLossPercent <= BENCHMARKS.referralLeakage.acceptable
  {
    MediumOnlyFromLeakage(ReadingsOf(inputs));
    Prioritize(Collected(ReadingsOf(inputs)))
  }
}

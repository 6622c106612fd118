/** `analyze_bottlenecks`: over the results of several scheduling runs, pick
    the run with the least total tardiness, the equipment type with the
    highest utilisation in that run, and the (at most) two orders with the
    highest tardiness, their ids read as integers. */
module Bottleneck {
  import opened Domain
  import opened Config
  import opened Sorting
  import opened Scheduler
  import opened Simulation
  import opened Metrics

  /** What `analyze_bottlenecks` returns. */
  datatype Analysis = Analysis(equipment: Option<string>, utilization: real, constrainingOrders: seq<int>)

  // ---------------------------------------------------------------------
  // The best run
  // ---------------------------------------------------------------------

  /** `min(results, key=total_tardiness)`: the first run whose total
      tardiness is the least. */
  function BestIndex(results: seq<(string, Metrics)>): (i: nat)
    requires results != []
    ensures i < |results|
    ensures forall j :: 0 <= j < |results| ==> results[i].1.totalTardiness <= results[j].1.totalTardiness
    ensures forall j :: 0 <= j < i ==> results[j].1.totalTardiness > results[i].1.totalTardiness
  {
    if |results| == 1 then 0
    else
      var init := results[..|results| - 1];
      var b := BestIndex(init);
      assert forall j :: 0 <= j < |init| ==> results[j] == init[j];
      if results[|results| - 1].1.totalTardiness < results[b].1.totalTardiness then |results| - 1 else b
  }

  // ---------------------------------------------------------------------
  // The most utilised equipment type
  // ---------------------------------------------------------------------

  /** `(bottleneck_equip, max_util)` after the utilisation loop has seen
      `util`: starting from `(None, 0)`, an entry replaces the pair only when
      its utilisation is strictly greater. */
  function Peak(util: seq<(string, real)>): (p: (Option<string>, real))
    ensures p.1 >= 0.0 && forall i :: 0 <= i < |util| ==> util[i].1 <= p.1
    ensures p.0.None? <==> forall i :: 0 <= i < |util| ==> util[i].1 <= 0.0
    ensures p.0.None? ==> p.1 == 0.0
    ensures p.0.Some? ==> exists i :: 0 <= i < |util| && util[i] == (p.0.value, p.1)
                                      && forall j :: 0 <= j < i ==> util[j].1 < p.1
  {
    if util == [] then (None, 0.0)
    else
      var init := util[..|util| - 1];
      var last := util[|util| - 1];
      var q := Peak(init);
      assert forall j :: 0 <= j < |init| ==> util[j] == init[j];
      if last.1 > q.1 then (Some(last.0), last.1) else q
  }

  /** The utilisation loop of `analyze_bottlenecks`. */
  method MostUtilized(util: seq<(string, real)>) returns (equipment: Option<string>, maxUtil: real)
    ensures (equipment, maxUtil) == Peak(util)
  {
    equipment, maxUtil := None, 0.0;
    for i := 0 to |util|
      invariant (equipment, maxUtil) == Peak(util[..i])
    {
      assert util[..i + 1][..i] == util[..i];
      if util[i].1 > maxUtil {
        maxUtil := util[i].1;
        equipment := Some(util[i].0);
      }
    }
    assert util[..|util|] == util;
  }

  // ---------------------------------------------------------------------
  // The constraining orders
  // ---------------------------------------------------------------------

  /** `sorted(..., key=tardiness_days, reverse=True)` is a stable sort on the
      negated tardiness. */
  function TardinessKey(e: (string, OrderCompletion)): Key
  {
    Key(-e.1.tardinessDays, 0.0)
  }

  /** The first two entries of the order completions by descending
      tardiness. */
  function Top(entries: seq<(string, OrderCompletion)>): seq<(string, OrderCompletion)>
  {
    var sorted := SortBy(entries, TardinessKey);
    sorted[..if |sorted| < 2 then |sorted| else 2]
  }

  /** At most two entries are taken, each a distinct entry of the
      completions, and every entry left out is no tardier than any entry
      taken; the first taken is at least as tardy as the second. */
  lemma TopSpec(entries: seq<(string, OrderCompletion)>)
    ensures |Top(entries)| == if |entries| < 2 then |entries| else 2
    ensures forall e :: e in Top(entries) ==> e in entries
    ensures multiset(Top(entries)) <= multiset(entries)
    ensures forall e, t :: e in entries && t in Top(entries) && e !in Top(entries) ==>
              e.1.tardinessDays <= t.1.tardinessDays
    ensures |Top(entries)| == 2 ==> Top(entries)[0].1.tardinessDays >= Top(entries)[1].1.tardinessDays
  {
    var sorted := SortBy(entries, TardinessKey);
    var top := Top(entries);
    var n := |top|;
    assert top == sorted[..n];
    PrefixSubMultiset(sorted, n);
    forall e | e in top ensures e in entries {
      assert e in multiset(sorted);
    }
    forall e, t | e in entries && t in top && e !in top
      ensures e.1.tardinessDays <= t.1.tardinessDays
    {
      assert e in multiset(sorted);
      var j :| 0 <= j < |sorted| && sorted[j] == e;
      var i :| 0 <= i < n && top[i] == t;
      assert j >= n;
      assert KeyLe(TardinessKey(sorted[i]), TardinessKey(sorted[j]));
    }
    if n == 2 {
      assert KeyLe(TardinessKey(sorted[0]), TardinessKey(sorted[1]));
    }
  }

  /** Python's `int(s)` on a string of decimal digits. */
  predicate IsDecimal(s: string)
  {
    |s| > 0 && forall i :: 0 <= i < |s| ==> '0' <= s[i] <= '9'
  }

  function DecimalValue(s: string): (n: nat)
    requires forall i :: 0 <= i < |s| ==> '0' <= s[i] <= '9'
  {
    if s == [] then 0
    else DecimalValue(s[..|s| - 1]) * 10 + (s[|s| - 1] as int - '0' as int)
  }

  /** `str(n)`: the decimal digits of `n`, without leading zeros. */
  function ShowNat(n: nat): (s: string)
    ensures IsDecimal(s)
  {
    if n < 10 then [('0' as int + n) as char]
    else ShowNat(n / 10) + [('0' as int + n % 10) as char]
  }

  /** `int(str(n)) == n`. */
  lemma {:induction false} DecimalValueShow(n: nat)
    ensures DecimalValue(ShowNat(n)) == n
  {
    var s := ShowNat(n);
    if n >= 10 {
      DecimalValueShow(n / 10);
      assert s[..|s| - 1] == ShowNat(n / 10);
    }
  }

  /** `[int(order_id) for order_id, _ in top]`; `None` when an id is not a
      decimal number (`int` raises). */
  function ParseIds(entries: seq<(string, OrderCompletion)>): (r: Option<seq<int>>)
    ensures r.Some? <==> forall i :: 0 <= i < |entries| ==> IsDecimal(entries[i].0)
    ensures r.Some? ==> |r.value| == |entries|
    ensures r.Some? ==> forall i :: 0 <= i < |entries| ==> r.value[i] == DecimalValue(entries[i].0)
  {
    if entries == [] then Some([])
    else
      var init := entries[..|entries| - 1];
      var last := entries[|entries| - 1];
      var rest := ParseIds(init);
      assert forall i :: 0 <= i < |init| ==> entries[i] == init[i];
      if rest.Some? && IsDecimal(last.0) then Some(rest.value + [DecimalValue(last.0)]) else None
  }

  /** `constraining_orders`: empty when no order has a completion entry,
      otherwise the ids of the two tardiest orders as integers. */
  function ConstrainingOrders(entries: seq<(string, OrderCompletion)>): Option<seq<int>>
  {
    if entries == [] then Some([]) else ParseIds(Top(entries))
  }

  // ---------------------------------------------------------------------
  // The comparison of heuristics in main()
  // ---------------------------------------------------------------------

  /** The names `main` gives the three heuristics, in the order it runs them. */
  const HeuristicNames: seq<string> := ["FIFO", "EDD", "Critical Ratio"]

  /** The schedule heuristic `a` (FIFO, EDD, critical ratio) builds. */
  function HeuristicSchedule(plant: PlantData, a: nat): (schedule: seq<ScheduleEntry>)
    requires WellFormed(plant) && a < 3
    ensures CanExpand(plant.orders, plant.products)
    ensures IsScheduleOf(schedule, Expand(plant.orders, plant.products))
  {
    WellFormedCanExpand(plant);
    ExpandBatchSizes(plant.orders, plant.products);
    var batches := Expand(plant.orders, plant.products);
    if a == 0 then
      ScheduleOfPermutation(SortBy(batches, FifoKey), batches);
      Map(SortBy(batches, FifoKey), ToEntry)
    else if a == 1 then
      ScheduleOfPermutation(SortBy(batches, EddKey), batches);
      Map(SortBy(batches, EddKey), ToEntry)
    else
      var decorated := SortBy(Decorate(batches, plant.hoursPerDay), DecoratedKey);
      UndecoratePermutation(batches, plant.hoursPerDay, decorated);
      ScheduleOfPermutation(CrOrder(batches, plant.hoursPerDay), batches);
      Map(CrOrder(batches, plant.hoursPerDay), ToEntry)
  }

  /** `results[a]` of `main`: heuristic `a`'s name with the metrics of the
      simulation of its schedule, which a well-formed configuration makes
      possible. */
  predicate HeuristicResult(plant: PlantData, a: nat, occupancy: map<string, real>, r: (string, Metrics))
    requires WellFormed(plant) && a < 3
  {
    && r.0 == HeuristicNames[a]
    && Simulatable(plant, HeuristicSchedule(plant, a), occupancy)
    && r.1 == ScheduleMetrics(plant, HeuristicSchedule(plant, a), occupancy)
  }

  /** The loop of `main` over the heuristics: each schedule is simulated and
      its metrics collected under the heuristic's name, so the list handed to
      `analyze_bottlenecks` is never empty. `occupancies[a]` stands for the
      pool occupancies the run of heuristic `a` observes. */
  method CompareHeuristics(plant: PlantData, occupancies: seq<map<string, real>>)
    returns (results: seq<(string, Metrics)>)
    requires WellFormed(plant) && |occupancies| == 3
    requires forall a, t :: 0 <= a < 3 && t in TypeOrder(plant.equipment) ==> t in occupancies[a]
    ensures |results| == 3 && results != []
    ensures forall a :: 0 <= a < 3 ==> HeuristicResult(plant, a, occupancies[a], results[a])
  {
    results := [];
    for a := 0 to 3
      invariant |results| == a
      invariant forall b :: 0 <= b < a ==> HeuristicResult(plant, b, occupancies[b], results[b])
    {
      var r := RunHeuristic(plant, a, occupancies[a]);
      ghost var prev := results;
      results := results + [r];
      forall b | 0 <= b < a + 1 ensures HeuristicResult(plant, b, occupancies[b], results[b]) {
        if b < a {
          assert results[b] == prev[b];
        } else {
          assert results[b] == r;
        }
      }
    }
  }

  /** One pass of that loop: `schedule = algo_func()`, then
      `scheduler.simulate_schedule(schedule)`. */
  method RunHeuristic(plant: PlantData, a: nat, occupancy: map<string, real>) returns (r: (string, Metrics))
    requires WellFormed(plant) && a < 3
    requires forall t :: t in TypeOrder(plant.equipment) ==> t in occupancy
    ensures HeuristicResult(plant, a, occupancy, r)
  {
    WellFormedCanExpand(plant);
    var schedule;
    if a == 0 {
      schedule := CreateScheduleFifo(plant);
    } else if a == 1 {
      schedule := CreateScheduleEdd(plant);
    } else {
      schedule := CreateScheduleCr(plant);
    }
    assert schedule == HeuristicSchedule(plant, a);
    ScheduleSimulatable(plant, schedule, occupancy);
    var metrics := SimulateSchedule(plant, schedule, occupancy);
    r := (HeuristicNames[a], metrics);
  }

  // ---------------------------------------------------------------------
  // analyze_bottlenecks
  // ---------------------------------------------------------------------

  /** Picks the best run, then its most utilised equipment type (with the
      utilisation as a fraction) and its constraining orders. `None` when an
      order id taken is not a decimal number. */
  method AnalyzeBottlenecks(results: seq<(string, Metrics)>) returns (r: Option<Analysis>)
    requires results != []
    ensures var best := results[BestIndex(results)].1;
            var peak := Peak(best.utilization);
            var orders := ConstrainingOrders(best.orderCompletion);
            && (r.None? <==> orders.None?)
            && (r.Some? ==> r.value == Analysis(peak.0, peak.1 / 100.0, orders.value))
  {
    var best := results[BestIndex(results)].1;
    var equipment, maxUtil := MostUtilized(best.utilization);
    var orders := ConstrainingOrders(best.orderCompletion);
    if orders.None? {
      return None;
    }
    r := Some(Analysis(equipment, maxUtil / 100.0, orders.value));
  }

  /** What the analysis reports: the run with the least tardiness, the
      first equipment type of strictly greatest positive utilisation (none
      when no utilisation is positive), and the ids of at most two of that
      run's orders, taken from distinct entries in descending tardiness,
      each no less tardy than any order not taken. */
  lemma AnalysisSpec(results: seq<(string, Metrics)>)
    requires results != []
    ensures var best := results[BestIndex(results)].1;
            var peak := Peak(best.utilization);
            && (forall j :: 0 <= j < |results| ==> best.totalTardiness <= results[j].1.totalTardiness)
            && (peak.0.None? <==> forall i :: 0 <= i < |best.utilization| ==> best.utilization[i].1 <= 0.0)
            && (forall i :: 0 <= i < |best.utilization| ==> best.utilization[i].1 <= peak.1)
            && (ConstrainingOrders(best.orderCompletion).Some? ==>
                  && |ConstrainingOrders(best.orderCompletion).value| == (if |best.orderCompletion| < 2 then |best.orderCompletion| else 2)
                  && multiset(Top(best.orderCompletion)) <= multiset(best.orderCompletion)
                  && (|Top(best.orderCompletion)| == 2 ==>
                        Top(best.orderCompletion)[0].1.tardinessDays >= Top(best.orderCompletion)[1].1.tardinessDays)
                  && forall i :: 0 <= i < |ConstrainingOrders(best.orderCompletion).value| ==>
                       && Top(best.orderCompletion)[i] in best.orderCompletion
                       && ConstrainingOrders(best.orderCompletion).value[i] == DecimalValue(Top(best.orderCompletion)[i].0)
                       && forall e :: e in best.orderCompletion && e !in Top(best.orderCompletion) ==>
                            e.1.tardinessDays <= Top(best.orderCompletion)[i].1.tardinessDays)
  {
    var best := results[BestIndex(results)].1;
    TopSpec(best.orderCompletion);
  }
}

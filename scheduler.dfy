/** `ProductionScheduler`: expansion of orders into batches and the three
    ordering heuristics (FIFO, Earliest Due Date, Critical Ratio). Every
    heuristic schedules all batches at start time 0.0; it acts only through
    the order in which batches are submitted to the simulation. */
module Scheduler {
  import opened Domain
  import opened Config
  import opened Sorting

  /** `(order, product, batch_number)` */
  datatype BatchJob = BatchJob(order: Order, product: Product, batchNum: nat)

  /** `(order_id, product_id, batch_num, start_time)` */
  datatype ScheduleEntry = ScheduleEntry(orderId: string, productId: string, batchNum: nat, startTime: real)

  /** Every order names a product, and that product's batch size is not
      zero (otherwise `next` or the division raises). */
  predicate CanExpand(orders: seq<Order>, products: seq<Product>)
  {
    forall k :: 0 <= k < |orders| ==>
      HasProduct(products, orders[k].productId) && FindProduct(products, orders[k].productId).batchSize != 0.0
  }

  /** A well-formed configuration can be expanded into batches. */
  lemma WellFormedCanExpand(plant: PlantData)
    requires WellFormed(plant)
    ensures CanExpand(plant.orders, plant.products)
  {
    forall k | 0 <= k < |plant.orders|
      ensures FindProduct(plant.products, plant.orders[k].productId).batchSize != 0.0
    {
      var p := FindProduct(plant.products, plant.orders[k].productId);
      var j :| 0 <= j < |plant.products| && plant.products[j] == p;
    }
  }

  /** `range(ceil(quantity / batch_size))` has this many values. */
  function BatchCount(o: Order, products: seq<Product>): nat
    requires HasProduct(products, o.productId) && FindProduct(products, o.productId).batchSize != 0.0
  {
    RangeLength(BatchesNeeded(o, FindProduct(products, o.productId)))
  }

  /** The batches of one order, numbered from 0. */
  function Block(o: Order, products: seq<Product>): (b: seq<BatchJob>)
    requires HasProduct(products, o.productId) && FindProduct(products, o.productId).batchSize != 0.0
  {
    var p := FindProduct(products, o.productId);
    seq(BatchCount(o, products), n requires 0 <= n => BatchJob(o, p, n))
  }

  /** The batches of all orders, order after order in input order. */
  function Expand(orders: seq<Order>, products: seq<Product>): seq<BatchJob>
    requires CanExpand(orders, products)
  {
    if orders == [] then []
    else
      assert CanExpand(orders[..|orders| - 1], products);
      Expand(orders[..|orders| - 1], products) + Block(orders[|orders| - 1], products)
  }

  function TotalBatches(orders: seq<Order>, products: seq<Product>): nat
    requires CanExpand(orders, products)
  {
    if orders == [] then 0
    else
      assert CanExpand(orders[..|orders| - 1], products);
      TotalBatches(orders[..|orders| - 1], products) + BatchCount(orders[|orders| - 1], products)
  }

  lemma PrefixCanExpand(orders: seq<Order>, products: seq<Product>, i: nat)
    requires CanExpand(orders, products) && i <= |orders|
    ensures CanExpand(orders[..i], products)
  {
  }

  /** Expansion makes exactly `ceil(quantity / batch_size)` batches per order
      (none for a non-positive count) and nothing else. */
  lemma {:induction false} ExpandLength(orders: seq<Order>, products: seq<Product>)
    requires CanExpand(orders, products)
    ensures |Expand(orders, products)| == TotalBatches(orders, products)
  {
    if orders != [] {
      PrefixCanExpand(orders, products, |orders| - 1);
      ExpandLength(orders[..|orders| - 1], products);
    }
  }

  /** Batch `n` of order `i` sits at offset `|Expand(orders[..i])| + n`,
      carrying that order, its product and the number `n`. */
  lemma {:induction false} ExpandBlock(orders: seq<Order>, products: seq<Product>, i: nat, n: nat)
    requires CanExpand(orders, products) && i < |orders|
    requires n < BatchCount(orders[i], products)
    ensures CanExpand(orders[..i], products)
    ensures |Expand(orders[..i], products)| + n < |Expand(orders, products)|
    ensures Expand(orders, products)[|Expand(orders[..i], products)| + n]
            == BatchJob(orders[i], FindProduct(products, orders[i].productId), n)
    decreases |orders|
  {
    PrefixCanExpand(orders, products, i);
    var init := orders[..|orders| - 1];
    PrefixCanExpand(orders, products, |orders| - 1);
    if i == |orders| - 1 {
      assert orders[..i] == init;
    } else {
      assert init[..i] == orders[..i];
      assert init[i] == orders[i];
      ExpandBlock(init, products, i, n);
    }
  }

  /** Every generated batch belongs to an input order, with that order's
      product and a number below the order's batch count. */
  lemma {:induction false} ExpandMembers(orders: seq<Order>, products: seq<Product>, j: nat)
    requires CanExpand(orders, products) && j < |Expand(orders, products)|
    ensures var b := Expand(orders, products)[j];
            exists k :: 0 <= k < |orders| && b.order == orders[k]
              && b.product == FindProduct(products, orders[k].productId)
              && b.batchNum < BatchCount(orders[k], products)
    decreases |orders|
  {
    var init := orders[..|orders| - 1];
    PrefixCanExpand(orders, products, |orders| - 1);
    var e := Expand(init, products);
    if j < |e| {
      ExpandMembers(init, products, j);
      var k :| 0 <= k < |init| && e[j].order == init[k]
               && e[j].product == FindProduct(products, init[k].productId)
               && e[j].batchNum < BatchCount(init[k], products);
      assert orders[k] == init[k];
    } else {
      assert Expand(orders, products)[j] == Block(orders[|orders| - 1], products)[j - |e|];
    }
  }

  /** All generated batches carry a product with a non-zero batch size. */
  lemma ExpandBatchSizes(orders: seq<Order>, products: seq<Product>)
    requires CanExpand(orders, products)
    ensures forall j :: 0 <= j < |Expand(orders, products)| ==> Expand(orders, products)[j].product.batchSize != 0.0
  {
    forall j | 0 <= j < |Expand(orders, products)| ensures Expand(orders, products)[j].product.batchSize != 0.0 {
      ExpandMembers(orders, products, j);
    }
  }

  /** `generate_batches_for_orders` */
  method GenerateBatches(orders: seq<Order>, products: seq<Product>) returns (batches: seq<BatchJob>)
    requires CanExpand(orders, products)
    ensures batches == Expand(orders, products)
  {
    batches := [];
    var i := 0;
    while i < |orders|
      invariant 0 <= i <= |orders|
      invariant CanExpand(orders[..i], products)
      invariant batches == Expand(orders[..i], products)
    {
      var order := orders[i];
      var product := FindProduct(products, order.productId);
      var needed := BatchesNeeded(order, product);
      ghost var before := batches;
      ghost var block := Block(order, products);
      var n := 0;
      while n < needed
        invariant 0 <= n <= RangeLength(needed)
        invariant batches == before + block[..n]
      {
        assert block[..n + 1] == block[..n] + [BatchJob(order, product, n)];
        batches := batches + [BatchJob(order, product, n)];
        n := n + 1;
      }
      assert block[..n] == block;
      assert orders[..i + 1][..i] == orders[..i];
      PrefixCanExpand(orders, products, i + 1);
      i := i + 1;
    }
    assert orders[..i] == orders;
  }

  function ToEntry(b: BatchJob): ScheduleEntry
  {
    ScheduleEntry(b.order.id, b.product.id, b.batchNum, 0.0)
  }

  /** FIFO key: higher priority first, then earlier due date. */
  function FifoKey(b: BatchJob): Key
  {
    Key(-(b.order.priority as real), b.order.dueDate)
  }

  /** EDD key: due date only. */
  function EddKey(b: BatchJob): Key
  {
    Key(b.order.dueDate, 0.0)
  }

  /** The schedule built by appending every sorted batch at start time 0.0. */
  method AppendEntries(sorted: seq<BatchJob>) returns (schedule: seq<ScheduleEntry>)
    ensures schedule == Map(sorted, ToEntry)
  {
    schedule := [];
    var i := 0;
    while i < |sorted|
      invariant 0 <= i <= |sorted|
      invariant schedule == Map(sorted[..i], ToEntry)
    {
      MapAppend(sorted[..i], [sorted[i]], ToEntry);
      assert sorted[..i + 1] == sorted[..i] + [sorted[i]];
      schedule := schedule + [ToEntry(sorted[i])];
      i := i + 1;
    }
    assert sorted[..i] == sorted;
  }

  /** What every heuristic's schedule satisfies: one entry per generated
      batch (the same entries, reordered), every start time 0.0. */
  predicate IsScheduleOf(schedule: seq<ScheduleEntry>, batches: seq<BatchJob>)
  {
    && multiset(schedule) == multiset(Map(batches, ToEntry))
    && |schedule| == |batches|
    && forall i :: 0 <= i < |schedule| ==> schedule[i].startTime == 0.0
  }

  lemma ScheduleOfPermutation(sorted: seq<BatchJob>, batches: seq<BatchJob>)
    requires multiset(sorted) == multiset(batches) && |sorted| == |batches|
    ensures IsScheduleOf(Map(sorted, ToEntry), batches)
  {
    MapPreservesMultiset(sorted, batches, ToEntry);
  }

  /** `create_schedule_simple_fifo` */
  method CreateScheduleFifo(plant: PlantData) returns (schedule: seq<ScheduleEntry>)
    requires CanExpand(plant.orders, plant.products)
    ensures schedule == Map(SortBy(Expand(plant.orders, plant.products), FifoKey), ToEntry)
    ensures IsScheduleOf(schedule, Expand(plant.orders, plant.products))
  {
    var allBatches := GenerateBatches(plant.orders, plant.products);
    var sorted := SortBy(allBatches, FifoKey);
    schedule := AppendEntries(sorted);
    ScheduleOfPermutation(sorted, allBatches);
  }

  /** `create_schedule_edd` */
  method CreateScheduleEdd(plant: PlantData) returns (schedule: seq<ScheduleEntry>)
    requires CanExpand(plant.orders, plant.products)
    ensures schedule == Map(SortBy(Expand(plant.orders, plant.products), EddKey), ToEntry)
    ensures IsScheduleOf(schedule, Expand(plant.orders, plant.products))
  {
    var allBatches := GenerateBatches(plant.orders, plant.products);
    var sorted := SortBy(allBatches, EddKey);
    schedule := AppendEntries(sorted);
    ScheduleOfPermutation(sorted, allBatches);
  }

  /** FIFO order: for any two positions, the earlier batch has a strictly
      higher priority, or the same priority and a due date no later. Batches
      that tie on both keep their generation order. */
  lemma FifoOrdered(batches: seq<BatchJob>, i: nat, j: nat, k: Key)
    requires i < j < |batches|
    ensures var s := SortBy(batches, FifoKey);
            s[i].order.priority > s[j].order.priority
            || (s[i].order.priority == s[j].order.priority && s[i].order.dueDate <= s[j].order.dueDate)
    ensures FilterKey(SortBy(batches, FifoKey), FifoKey, k) == FilterKey(batches, FifoKey, k)
  {
    var s := SortBy(batches, FifoKey);
    assert KeyLe(FifoKey(s[i]), FifoKey(s[j]));
    SortByStable(batches, FifoKey, k);
  }

  /** EDD order: due dates are non-decreasing, and batches with the same due
      date keep their generation order (priority plays no part). */
  lemma EddOrdered(batches: seq<BatchJob>, i: nat, j: nat, due: real)
    requires i < j < |batches|
    ensures var s := SortBy(batches, EddKey);
            s[i].order.dueDate <= s[j].order.dueDate
    ensures FilterKey(SortBy(batches, EddKey), EddKey, Key(due, 0.0)) == FilterKey(batches, EddKey, Key(due, 0.0))
  {
    var s := SortBy(batches, EddKey);
    assert KeyLe(EddKey(s[i]), EddKey(s[j]));
    SortByStable(batches, EddKey, Key(due, 0.0));
  }

  // ---------------------------------------------------------------------
  // Critical ratio
  // ---------------------------------------------------------------------

  /** Work needed by an order, in days:
      `total_processing_time / HOURS_PER_DAY * ceil(quantity / batch_size)`. */
  function TimeNeeded(o: Order, p: Product, hoursPerDay: real): real
    requires p.batchSize != 0.0 && hoursPerDay != 0.0
  {
    (TotalProcessingTime(p) / hoursPerDay) * (BatchesNeeded(o, p) as real)
  }

  /** `critical_ratio(order, product)`: slack per unit of work, or 999 when
      no positive work is needed. */
  function CriticalRatio(o: Order, p: Product, hoursPerDay: real): (r: real)
    requires p.batchSize != 0.0 && hoursPerDay != 0.0
    ensures TimeNeeded(o, p, hoursPerDay) <= 0.0 ==> r == 999.0
    ensures TimeNeeded(o, p, hoursPerDay) > 0.0 ==>
              r * TimeNeeded(o, p, hoursPerDay) == o.dueDate - TimeNeeded(o, p, hoursPerDay)
  {
    var totalTimeNeeded := TimeNeeded(o, p, hoursPerDay);
    var slack := o.dueDate - totalTimeNeeded;
    if totalTimeNeeded > 0.0 then slack / totalTimeNeeded else 999.0
  }

  /** An order whose product has no steps needs no time and gets ratio 999,
      without dividing by zero. */
  lemma EmptyRecipeRatio(o: Order, p: Product, hoursPerDay: real)
    requires p.batchSize != 0.0 && hoursPerDay != 0.0 && p.recipe == []
    ensures CriticalRatio(o, p, hoursPerDay) == 999.0
  {
    assert TotalProcessingTime(p) == 0.0;
  }

  /** Each batch paired with its critical-ratio key, computed once per
      element as `list.sort(key=...)` does. */
  function Decorate(batches: seq<BatchJob>, hoursPerDay: real): (r: seq<(BatchJob, Key)>)
    requires hoursPerDay != 0.0
    requires forall j :: 0 <= j < |batches| ==> batches[j].product.batchSize != 0.0
    ensures |r| == |batches|
    ensures forall j :: 0 <= j < |r| ==>
              r[j].0 == batches[j] && r[j].1 == Key(CriticalRatio(batches[j].order, batches[j].product, hoursPerDay), 0.0)
  {
    if batches == [] then []
    else [(batches[0], Key(CriticalRatio(batches[0].order, batches[0].product, hoursPerDay), 0.0))]
         + Decorate(batches[1..], hoursPerDay)
  }

  function DecoratedKey(d: (BatchJob, Key)): Key { d.1 }
  function Undecorate(d: (BatchJob, Key)): BatchJob { d.0 }

  /** Undecorating a permutation of the decorated list gives a permutation of
      the original list. */
  lemma UndecoratePermutation(batches: seq<BatchJob>, hoursPerDay: real, sorted: seq<(BatchJob, Key)>)
    requires hoursPerDay != 0.0
    requires forall j :: 0 <= j < |batches| ==> batches[j].product.batchSize != 0.0
    requires multiset(sorted) == multiset(Decorate(batches, hoursPerDay))
    ensures multiset(Map(sorted, Undecorate)) == multiset(batches)
  {
    var d := Decorate(batches, hoursPerDay);
    MapPreservesMultiset(sorted, d, Undecorate);
    assert Map(d, Undecorate) == batches;
  }

  /** The batches sorted by critical ratio. */
  function CrOrder(batches: seq<BatchJob>, hoursPerDay: real): seq<BatchJob>
    requires hoursPerDay != 0.0
    requires forall j :: 0 <= j < |batches| ==> batches[j].product.batchSize != 0.0
  {
    Map(SortBy(Decorate(batches, hoursPerDay), DecoratedKey), Undecorate)
  }

  /** `create_schedule_cr` */
  method CreateScheduleCr(plant: PlantData) returns (schedule: seq<ScheduleEntry>)
    requires CanExpand(plant.orders, plant.products) && plant.hoursPerDay != 0.0
    ensures forall j :: 0 <= j < |Expand(plant.orders, plant.products)| ==> Expand(plant.orders, plant.products)[j].product.batchSize != 0.0
    ensures schedule == Map(CrOrder(Expand(plant.orders, plant.products), plant.hoursPerDay), ToEntry)
    ensures IsScheduleOf(schedule, Expand(plant.orders, plant.products))
  {
    var allBatches := GenerateBatches(plant.orders, plant.products);
    ExpandBatchSizes(plant.orders, plant.products);
    var decorated := SortBy(Decorate(allBatches, plant.hoursPerDay), DecoratedKey);
    var sorted := Map(decorated, Undecorate);
    assert sorted == CrOrder(allBatches, plant.hoursPerDay);
    UndecoratePermutation(allBatches, plant.hoursPerDay, decorated);
    schedule := AppendEntries(sorted);
    ScheduleOfPermutation(sorted, allBatches);
  }

  /** A batch's critical ratio as a sort key (the guard only keeps the key
      total; the sort sees batches with non-zero batch sizes). */
  function RatioKey(hoursPerDay: real): BatchJob -> Key
  {
    (b: BatchJob) => if b.product.batchSize != 0.0 && hoursPerDay != 0.0
         then Key(CriticalRatio(b.order, b.product, hoursPerDay), 0.0) else Key(0.0, 0.0)
  }

  /** Batches with equal critical ratios keep their generation order. */
  lemma CrStable(batches: seq<BatchJob>, hoursPerDay: real, k: Key)
    requires hoursPerDay != 0.0
    requires forall l :: 0 <= l < |batches| ==> batches[l].product.batchSize != 0.0
    ensures FilterKey(CrOrder(batches, hoursPerDay), RatioKey(hoursPerDay), k) == FilterKey(batches, RatioKey(hoursPerDay), k)
  {
    var d := Decorate(batches, hoursPerDay);
    var sd := SortBy(d, DecoratedKey);
    var key := RatioKey(hoursPerDay);
    forall i | 0 <= i < |sd| ensures DecoratedKey(sd[i]) == key(Undecorate(sd[i])) {
      assert sd[i] in multiset(d);
      var a :| 0 <= a < |d| && d[a] == sd[i];
    }
    MapFilter(sd, Undecorate, DecoratedKey, key, k);
    SortByStable(d, DecoratedKey, k);
    MapFilter(d, Undecorate, DecoratedKey, key, k);
    assert Map(d, Undecorate) == batches;
  }

  /** The Critical-Ratio order is non-decreasing in the ratio. */
  lemma CrOrdered(batches: seq<BatchJob>, hoursPerDay: real, i: nat, j: nat)
    requires hoursPerDay != 0.0
    requires forall l :: 0 <= l < |batches| ==> batches[l].product.batchSize != 0.0
    requires i < j < |batches|
    ensures var s := Map(SortBy(Decorate(batches, hoursPerDay), DecoratedKey), Undecorate);
            s[i].product.batchSize != 0.0 && s[j].product.batchSize != 0.0
            && CriticalRatio(s[i].order, s[i].product, hoursPerDay) <= CriticalRatio(s[j].order, s[j].product, hoursPerDay)
  {
    var d := Decorate(batches, hoursPerDay);
    var sd := SortBy(d, DecoratedKey);
    assert KeyLe(DecoratedKey(sd[i]), DecoratedKey(sd[j]));
    assert sd[i] in multiset(d) && sd[j] in multiset(d);
    var a :| 0 <= a < |d| && d[a] == sd[i];
    var b :| 0 <= b < |d| && d[b] == sd[j];
  }
}

/** `ProductionScheduler.calculate_metrics`: per-order completion and
    tardiness, their totals, the makespan, utilisation per equipment type and
    per-batch details, all in days. An order gets an entry as soon as any of
    its batches has a truthy end time; a batch whose end time is 0 counts as
    unfinished. */
module Metrics {
  import opened Domain
  import opened Config
  import opened Scheduler
  import opened Dicts
  import opened Machine
  import opened Timing
  import opened Simulation

  /** What `calculate_metrics` reads from one `BatchProcess`. */
  datatype BatchRecord = BatchRecord(id: BatchId, orderId: string, productId: string,
                                     startTime: Option<real>, endTime: Option<real>)

  /** Python truthiness of `end_time`: unset and 0 are both false. */
  predicate Truthy(t: Option<real>)
  {
    t.Some? && t.value != 0.0
  }

  /** A finished batch has a start time (otherwise the division raises). */
  predicate StartsRecorded(batches: seq<BatchRecord>)
  {
    forall k :: 0 <= k < |batches| && Truthy(batches[k].endTime) ==> batches[k].startTime.Some?
  }

  datatype BatchDetail = BatchDetail(batchId: BatchId, product: string, start: real, end: real, duration: real)
  datatype OrderCompletion = OrderCompletion(completionDay: real, dueDay: real, tardinessDays: real, numBatches: nat)
  datatype Metrics = Metrics(makespan: real, totalTardiness: real, numLateOrders: nat,
                             utilization: seq<(string, real)>,
                             orderCompletion: seq<(string, OrderCompletion)>,
                             batchDetails: seq<BatchDetail>)

  // ---------------------------------------------------------------------
  // Batch loop
  // ---------------------------------------------------------------------

  /** `order_batch_completions` after the batch loop has seen `batches`. */
  function Completions(batches: seq<BatchRecord>): seq<(string, seq<real>)>
  {
    if batches == [] then []
    else
      var d := Completions(batches[..|batches| - 1]);
      var b := batches[|batches| - 1];
      if Truthy(b.endTime) then
        var prev := Get(d, b.orderId);
        Set(d, b.orderId, (if prev.Some? then prev.value else []) + [b.endTime.value])
      else d
  }

  /** The truthy end times of the batches of order `oid`, in batch order. */
  function EndsOf(batches: seq<BatchRecord>, oid: string): seq<real>
  {
    if batches == [] then []
    else
      var b := batches[|batches| - 1];
      EndsOf(batches[..|batches| - 1], oid) + (if b.orderId == oid && Truthy(b.endTime) then [b.endTime.value] else [])
  }

  /** An order has an entry exactly when one of its batches finished, and
      the entry lists the end times of all its finished batches. */
  lemma {:induction false} CompletionsSpec(batches: seq<BatchRecord>, oid: string)
    ensures DistinctKeys(Completions(batches))
    ensures Get(Completions(batches), oid) == if EndsOf(batches, oid) == [] then None else Some(EndsOf(batches, oid))
  {
    if batches != [] {
      var init := batches[..|batches| - 1];
      var b := batches[|batches| - 1];
      CompletionsSpec(init, oid);
      CompletionsSpec(init, b.orderId);
      var d := Completions(init);
      assert EndsOf(batches, oid) == EndsOf(init, oid) + (if b.orderId == oid && Truthy(b.endTime) then [b.endTime.value] else []);
      if Truthy(b.endTime) {
        var prev := Get(d, b.orderId);
        var v := (if prev.Some? then prev.value else []) + [b.endTime.value];
        assert v == EndsOf(init, b.orderId) + [b.endTime.value];
        assert Completions(batches) == Set(d, b.orderId, v);
        SetGet(d, b.orderId, v, oid);
        if oid == b.orderId {
          assert EndsOf(batches, oid) == v;
        } else {
          assert EndsOf(batches, oid) == EndsOf(init, oid);
        }
      } else {
        assert Completions(batches) == d;
        assert EndsOf(batches, oid) == EndsOf(init, oid);
      }
    }
  }

  /** A finished batch contributes its end time to its order. */
  lemma {:induction false} EndsOfMembers(batches: seq<BatchRecord>, oid: string)
    ensures EndsOf(batches, oid) != [] <==>
              exists k :: 0 <= k < |batches| && batches[k].orderId == oid && Truthy(batches[k].endTime)
    ensures |EndsOf(batches, oid)| <= |batches|
  {
    if batches != [] {
      var init := batches[..|batches| - 1];
      EndsOfMembers(init, oid);
      if exists k :: 0 <= k < |init| && init[k].orderId == oid && Truthy(init[k].endTime) {
        var k :| 0 <= k < |init| && init[k].orderId == oid && Truthy(init[k].endTime);
        assert batches[k] == init[k];
      }
      if exists k :: 0 <= k < |batches| && batches[k].orderId == oid && Truthy(batches[k].endTime) {
        var k :| 0 <= k < |batches| && batches[k].orderId == oid && Truthy(batches[k].endTime);
        if k < |init| { assert init[k] == batches[k]; }
      }
    }
  }

  function DetailOf(b: BatchRecord, hoursPerDay: real): BatchDetail
    requires hoursPerDay != 0.0 && Truthy(b.endTime) && b.startTime.Some?
  {
    BatchDetail(b.id, b.productId, b.startTime.value / hoursPerDay, b.endTime.value / hoursPerDay,
                (b.endTime.value - b.startTime.value) / hoursPerDay)
  }

  /** `metrics['batch_details']` after the batch loop has seen `batches`. */
  function Details(batches: seq<BatchRecord>, hoursPerDay: real): seq<BatchDetail>
    requires hoursPerDay != 0.0 && StartsRecorded(batches)
  {
    if batches == [] then []
    else
      var init := batches[..|batches| - 1];
      var b := batches[|batches| - 1];
      Details(init, hoursPerDay) + (if Truthy(b.endTime) then [DetailOf(b, hoursPerDay)] else [])
  }

  /** The details are those of the finished batches, and only those. */
  lemma {:induction false} DetailsSpec(batches: seq<BatchRecord>, hoursPerDay: real)
    requires hoursPerDay != 0.0 && StartsRecorded(batches)
    ensures forall d :: d in Details(batches, hoursPerDay) ==>
              exists k :: 0 <= k < |batches| && Truthy(batches[k].endTime) && d == DetailOf(batches[k], hoursPerDay)
    ensures forall k :: 0 <= k < |batches| && Truthy(batches[k].endTime) ==>
              DetailOf(batches[k], hoursPerDay) in Details(batches, hoursPerDay)
  {
    if batches != [] {
      var init := batches[..|batches| - 1];
      DetailsSpec(init, hoursPerDay);
      forall k | 0 <= k < |init| ensures batches[k] == init[k] { }
    }
  }

  // ---------------------------------------------------------------------
  // Order loop
  // ---------------------------------------------------------------------

  /** `max(0, completion - due)`. */
  function Tardiness(completion: real, due: real): (t: real)
    ensures t >= 0.0 && t >= completion - due
    ensures t == 0.0 || t == completion - due
    ensures t > 0.0 <==> completion > due
  {
    if completion - due > 0.0 then completion - due else 0.0
  }

  /** `max(values)`. */
  function MaxOf(values: seq<real>): (m: real)
    requires values != []
    ensures m in values && forall i :: 0 <= i < |values| ==> values[i] <= m
  {
    if |values| == 1 then values[0]
    else
      var m := MaxOf(values[..|values| - 1]);
      assert forall i :: 0 <= i < |values| - 1 ==> values[i] == values[..|values| - 1][i];
      if values[|values| - 1] > m then values[|values| - 1] else m
  }

  function CompletionOf(o: Order, ends: seq<real>, hoursPerDay: real): OrderCompletion
    requires ends != [] && hoursPerDay != 0.0
  {
    var c := MaxOf(ends) / hoursPerDay;
    OrderCompletion(c, o.dueDate, Tardiness(c, o.dueDate), |ends|)
  }

  /** What the order loop accumulates. */
  datatype Totals = Totals(makespan: real, totalTardiness: real, numLateOrders: nat,
                           orderCompletion: seq<(string, OrderCompletion)>)

  predicate NonEmptyValues(completions: seq<(string, seq<real>)>)
  {
    forall i :: 0 <= i < |completions| ==> completions[i].1 != []
  }

  /** The entry of order `o`, if it has one. */
  function EntryOf(o: Order, completions: seq<(string, seq<real>)>, hoursPerDay: real): Option<OrderCompletion>
    requires NonEmptyValues(completions) && hoursPerDay != 0.0
  {
    var e := Get(completions, o.id);
    if e.Some? then Some(CompletionOf(o, e.value, hoursPerDay)) else None
  }

  /** The totals after the order loop has seen `orders`. */
  function OrderTotals(orders: seq<Order>, completions: seq<(string, seq<real>)>, hoursPerDay: real): Totals
    requires NonEmptyValues(completions) && hoursPerDay != 0.0
  {
    if orders == [] then Totals(0.0, 0.0, 0, [])
    else
      var a := OrderTotals(orders[..|orders| - 1], completions, hoursPerDay);
      var o := orders[|orders| - 1];
      var e := EntryOf(o, completions, hoursPerDay);
      if e.Some? then
        var c := e.value;
        Totals(if c.completionDay > a.makespan then c.completionDay else a.makespan,
               a.totalTardiness + c.tardinessDays,
               a.numLateOrders + (if c.tardinessDays > 0.0 then 1 else 0),
               Set(a.orderCompletion, o.id, c))
      else a
  }

  /** The makespan is the largest completion day among the orders with an
      entry, or 0 when there is none. */
  lemma {:induction false} MakespanIsMax(orders: seq<Order>, completions: seq<(string, seq<real>)>, hoursPerDay: real)
    requires NonEmptyValues(completions) && hoursPerDay != 0.0
    ensures var a := OrderTotals(orders, completions, hoursPerDay);
            && a.makespan >= 0.0
            && (forall k :: 0 <= k < |orders| && EntryOf(orders[k], completions, hoursPerDay).Some? ==>
                  EntryOf(orders[k], completions, hoursPerDay).value.completionDay <= a.makespan)
            && (a.makespan == 0.0 || exists k :: 0 <= k < |orders| && EntryOf(orders[k], completions, hoursPerDay).Some?
                                                && EntryOf(orders[k], completions, hoursPerDay).value.completionDay == a.makespan)
  {
    if orders != [] {
      var init := orders[..|orders| - 1];
      MakespanIsMax(init, completions, hoursPerDay);
      var a := OrderTotals(init, completions, hoursPerDay);
      forall k | 0 <= k < |init| ensures orders[k] == init[k] { }
      if a.makespan != 0.0 {
        var k :| 0 <= k < |init| && EntryOf(init[k], completions, hoursPerDay).Some?
                 && EntryOf(init[k], completions, hoursPerDay).value.completionDay == a.makespan;
        assert orders[k] == init[k];
      }
    }
  }

  /** Tardiness is summed and counted: the total is never negative, the late
      orders are at most the orders, and there are no late orders exactly
      when the total tardiness is 0. */
  lemma {:induction false} TardinessTotals(orders: seq<Order>, completions: seq<(string, seq<real>)>, hoursPerDay: real)
    requires NonEmptyValues(completions) && hoursPerDay != 0.0
    ensures var a := OrderTotals(orders, completions, hoursPerDay);
            && a.totalTardiness >= 0.0
            && a.numLateOrders <= |orders|
            && (a.numLateOrders == 0 <==> a.totalTardiness == 0.0)
  {
    if orders != [] {
      TardinessTotals(orders[..|orders| - 1], completions, hoursPerDay);
    }
  }

  /** The entry kept for an order id is the one computed for the last order
      with that id; ids without a finished batch get no entry. */
  lemma {:induction false} OrderEntries(orders: seq<Order>, completions: seq<(string, seq<real>)>, hoursPerDay: real, k: nat)
    requires NonEmptyValues(completions) && hoursPerDay != 0.0 && DistinctKeys(completions)
    requires k < |orders| && forall j :: k < j < |orders| ==> orders[j].id != orders[k].id
    ensures var a := OrderTotals(orders, completions, hoursPerDay);
            DistinctKeys(a.orderCompletion)
            && Get(a.orderCompletion, orders[k].id) == EntryOf(orders[k], completions, hoursPerDay)
  {
    var init := orders[..|orders| - 1];
    var o := orders[|orders| - 1];
    var a := OrderTotals(init, completions, hoursPerDay);
    OrderKeysDistinct(init, completions, hoursPerDay);
    if k < |orders| - 1 {
      assert init[k] == orders[k];
      OrderEntries(init, completions, hoursPerDay, k);
      if EntryOf(o, completions, hoursPerDay).Some? {
        SetGet(a.orderCompletion, o.id, EntryOf(o, completions, hoursPerDay).value, orders[k].id);
      }
    } else {
      if EntryOf(o, completions, hoursPerDay).Some? {
        SetGet(a.orderCompletion, o.id, EntryOf(o, completions, hoursPerDay).value, o.id);
      } else {
        OrderKeysFromCompletions(init, completions, hoursPerDay, o.id);
      }
    }
  }

  lemma {:induction false} OrderKeysDistinct(orders: seq<Order>, completions: seq<(string, seq<real>)>, hoursPerDay: real)
    requires NonEmptyValues(completions) && hoursPerDay != 0.0
    ensures DistinctKeys(OrderTotals(orders, completions, hoursPerDay).orderCompletion)
  {
    if orders != [] {
      var init := orders[..|orders| - 1];
      var o := orders[|orders| - 1];
      OrderKeysDistinct(init, completions, hoursPerDay);
      var e := EntryOf(o, completions, hoursPerDay);
      if e.Some? {
        SetGet(OrderTotals(init, completions, hoursPerDay).orderCompletion, o.id, e.value, o.id);
      }
    }
  }

  /** Only ids with a finished batch get an entry. */
  lemma {:induction false} OrderKeysFromCompletions(orders: seq<Order>, completions: seq<(string, seq<real>)>, hoursPerDay: real, oid: string)
    requires NonEmptyValues(completions) && hoursPerDay != 0.0 && Get(completions, oid).None?
    ensures Get(OrderTotals(orders, completions, hoursPerDay).orderCompletion, oid).None?
  {
    if orders != [] {
      var init := orders[..|orders| - 1];
      var o := orders[|orders| - 1];
      OrderKeysFromCompletions(init, completions, hoursPerDay, oid);
      OrderKeysDistinct(init, completions, hoursPerDay);
      var e := EntryOf(o, completions, hoursPerDay);
      if e.Some? {
        SetGet(OrderTotals(init, completions, hoursPerDay).orderCompletion, o.id, e.value, oid);
      }
    }
  }

  // ---------------------------------------------------------------------
  // Utilisation loop
  // ---------------------------------------------------------------------

  /** `metrics['utilization']` over the pools in dictionary order: recorded
      only when the clock is past 0. The occupancy means are inputs. */
  function Utilization(types: seq<string>, now: real, occupancy: map<string, real>): seq<(string, real)>
    requires forall t :: t in types ==> t in occupancy
  {
    if types == [] then []
    else
      var u := Utilization(types[..|types| - 1], now, occupancy);
      var t := types[|types| - 1];
      if now > 0.0 then Set(u, t, occupancy[t] * 100.0) else u
  }

  /** Nothing is recorded while the clock is at or before 0. */
  lemma {:induction false} UtilizationAtZero(types: seq<string>, now: real, occupancy: map<string, real>)
    requires forall t :: t in types ==> t in occupancy
    requires now <= 0.0
    ensures Utilization(types, now, occupancy) == []
  {
    if types != [] {
      var init := types[..|types| - 1];
      assert forall t :: t in init ==> t in types;
      UtilizationAtZero(init, now, occupancy);
    }
  }

  /** Past time 0, each pool's entry is its occupancy as a percentage, and
      no other key has an entry. */
  lemma {:induction false} UtilizationSpec(types: seq<string>, now: real, occupancy: map<string, real>, t: string)
    requires forall t :: t in types ==> t in occupancy
    requires now > 0.0
    ensures DistinctKeys(Utilization(types, now, occupancy))
    ensures Get(Utilization(types, now, occupancy), t) == if t in types then Some(occupancy[t] * 100.0) else None
  {
    if types != [] {
      var init := types[..|types| - 1];
      var last := types[|types| - 1];
      InitMembers(types);
      UtilizationSpec(init, now, occupancy, t);
      var u := Utilization(init, now, occupancy);
      var v := occupancy[last] * 100.0;
      SetGet(u, last, v, t);
      var r := Utilization(types, now, occupancy);
      assert r == Set(u, last, v);
      assert DistinctKeys(r);
      if t == last {
        assert Get(r, t) == Some(v);
      } else {
        assert Get(r, t) == Get(u, t);
        assert t in types <==> t in init;
      }
    }
  }

  /** A non-empty sequence's members are those of its prefix and its last
      element. */
  lemma InitMembers<T>(xs: seq<T>)
    requires xs != []
    ensures forall x :: x in xs <==> x in xs[..|xs| - 1] || x == xs[|xs| - 1]
  {
    assert xs == xs[..|xs| - 1] + [xs[|xs| - 1]];
  }

  // ---------------------------------------------------------------------
  // calculate_metrics
  // ---------------------------------------------------------------------

  /** The metrics of a finished run. */
  function MetricsOf(batches: seq<BatchRecord>, orders: seq<Order>, hoursPerDay: real,
                     types: seq<string>, now: real, occupancy: map<string, real>): Metrics
    requires hoursPerDay != 0.0 && StartsRecorded(batches)
    requires forall t :: t in types ==> t in occupancy
  {
    var comps := Completions(batches);
    CompletionsNonEmpty(batches);
    var a := OrderTotals(orders, comps, hoursPerDay);
    Metrics(a.makespan, a.totalTardiness, a.numLateOrders, Utilization(types, now, occupancy),
            a.orderCompletion, Details(batches, hoursPerDay))
  }

  lemma CompletionsNonEmpty(batches: seq<BatchRecord>)
    ensures NonEmptyValues(Completions(batches))
  {
    forall i | 0 <= i < |Completions(batches)| ensures Completions(batches)[i].1 != [] {
      var oid := Completions(batches)[i].0;
      CompletionsSpec(batches, oid);
      GetAt(Completions(batches), i);
    }
  }

  /** The three loops of `calculate_metrics`. */
  method CalculateMetrics(batches: seq<BatchRecord>, orders: seq<Order>, hoursPerDay: real,
                          types: seq<string>, now: real, occupancy: map<string, real>) returns (metrics: Metrics)
    requires hoursPerDay != 0.0 && StartsRecorded(batches)
    requires forall t :: t in types ==> t in occupancy
    ensures metrics == MetricsOf(batches, orders, hoursPerDay, types, now, occupancy)
  {
    var completions, details := CollectCompletions(batches, hoursPerDay);
    CompletionsNonEmpty(batches);
    var makespan, total, late, entries := PerOrderMetrics(orders, completions, hoursPerDay);
    var utilization := EquipmentUtilization(types, now, occupancy);
    ghost var a := OrderTotals(orders, completions, hoursPerDay);
    assert makespan == a.makespan && total == a.totalTardiness && late == a.numLateOrders && entries == a.orderCompletion;
    metrics := Metrics(makespan, total, late, utilization, entries, details);
  }

  /** The first loop of `calculate_metrics`: end times per order and the
      batch details, over the batches with a truthy end time. */
  method CollectCompletions(batches: seq<BatchRecord>, hoursPerDay: real)
    returns (completions: seq<(string, seq<real>)>, details: seq<BatchDetail>)
    requires hoursPerDay != 0.0 && StartsRecorded(batches)
    ensures completions == Completions(batches) && details == Details(batches, hoursPerDay)
  {
    completions, details := [], [];
    for i := 0 to |batches|
      invariant completions == Completions(batches[..i])
      invariant StartsRecorded(batches[..i]) && details == Details(batches[..i], hoursPerDay)
    {
      assert batches[..i + 1][..i] == batches[..i];
      var b := batches[i];
      if Truthy(b.endTime) {
        var prev := Get(completions, b.orderId);
        if prev.None? {
          completions := Set(completions, b.orderId, []);
          prev := Some([]);
        }
        completions := Set(completions, b.orderId, prev.value + [b.endTime.value]);
        details := details + [DetailOf(b, hoursPerDay)];
      }
    }
    assert batches[..|batches|] == batches;
  }

  /** The second loop of `calculate_metrics`: per-order entries and the
      running totals. */
  method PerOrderMetrics(orders: seq<Order>, completions: seq<(string, seq<real>)>, hoursPerDay: real)
    returns (makespan: real, total: real, late: nat, entries: seq<(string, OrderCompletion)>)
    requires hoursPerDay != 0.0 && NonEmptyValues(completions)
    ensures Totals(makespan, total, late, entries) == OrderTotals(orders, completions, hoursPerDay)
  {
    makespan, total, late, entries := 0.0, 0.0, 0, [];
    for i := 0 to |orders|
      invariant Totals(makespan, total, late, entries) == OrderTotals(orders[..i], completions, hoursPerDay)
    {
      assert orders[..i + 1][..i] == orders[..i];
      var o := orders[i];
      var e := Get(completions, o.id);
      if e.Some? {
        var c := CompletionOf(o, e.value, hoursPerDay);
        entries := Set(entries, o.id, c);
        total := total + c.tardinessDays;
        if c.tardinessDays > 0.0 {
          late := late + 1;
        }
        makespan := if c.completionDay > makespan then c.completionDay else makespan;
      }
    }
    assert orders[..|orders|] == orders;
  }

  /** The third loop of `calculate_metrics`: utilisation per pool. */
  method EquipmentUtilization(types: seq<string>, now: real, occupancy: map<string, real>)
    returns (utilization: seq<(string, real)>)
    requires forall t :: t in types ==> t in occupancy
    ensures utilization == Utilization(types, now, occupancy)
  {
    utilization := [];
    for i := 0 to |types|
      invariant utilization == Utilization(types[..i], now, occupancy)
    {
      assert types[..i + 1][..i] == types[..i];
      if now > 0.0 {
        utilization := Set(utilization, types[i], occupancy[types[i]] * 100.0);
      }
    }
    assert types[..|types|] == types;
  }

  // ---------------------------------------------------------------------
  // simulate_schedule
  // ---------------------------------------------------------------------

  /** What `calculate_metrics` reads from the batch processes after the run:
      the order and product of each batch and its recorded times. */
  function Records(w: World, ids: seq<BatchId>, s: Sim): seq<BatchRecord>
    requires |ids| == |w.specs| == |s.procs|
  {
    seq(|s.procs|, i requires 0 <= i < |s.procs| =>
      BatchRecord(ids[i], w.specs[i].order.id, w.specs[i].product.id, s.procs[i].startTime, s.procs[i].endTime))
  }

  /** A batch whose end time is truthy has run all its steps: it has a start
      time, and at least its total processing time passed between the two. */
  lemma FinishedRecords(w: World, ids: seq<BatchId>, s: Sim)
    requires WorldOk(w) && Timed(w, s) && |ids| == |w.specs| == |s.procs|
    ensures StartsRecorded(Records(w, ids, s))
    ensures forall i :: 0 <= i < |s.procs| && Truthy(Records(w, ids, s)[i].endTime) ==>
              && s.procs[i].phase == Done
              && Records(w, ids, s)[i].startTime.value >= 0.0
              && Records(w, ids, s)[i].endTime.value - Records(w, ids, s)[i].startTime.value
                 >= TotalProcessingTime(w.specs[i].product)
  {
    var recs := Records(w, ids, s);
    forall i | 0 <= i < |s.procs| && Truthy(recs[i].endTime)
      ensures s.procs[i].phase == Done && recs[i].startTime.Some? && recs[i].startTime.value >= 0.0
      ensures recs[i].endTime.value - recs[i].startTime.value >= TotalProcessingTime(w.specs[i].product)
    {
      EndTimeOnlyWhenDone(w, s, i);
      CompletedBatch(w, s, i);
    }
  }

  /** The requirements under which `simulate_schedule` runs to the end: every
      entry names an order and a product, every step of a scheduled product
      has equipment of its type, no step takes negative time, days have
      non-zero length, and the occupancy of every pool is given. */
  predicate Simulatable(plant: PlantData, schedule: seq<ScheduleEntry>, occupancy: map<string, real>)
  {
    && Resolvable(plant, schedule)
    && (forall k :: 0 <= k < |schedule| ==> Equipped(plant, [SpecOf(plant, schedule[k])]))
    && (forall k :: 0 <= k < |schedule| ==> NonNegativeDurations(SpecOf(plant, schedule[k]).product.recipe))
    && plant.hoursPerDay != 0.0
    && (forall t :: t in TypeOrder(plant.equipment) ==> t in occupancy)
  }

  /** The batch processes `simulate_schedule` creates for `schedule`. */
  function WorldOf(plant: PlantData, schedule: seq<ScheduleEntry>): World
    requires Resolvable(plant, schedule)
  {
    World(seq(|schedule|, k requires 0 <= k < |schedule| => SpecOf(plant, schedule[k])), plant.changeovers)
  }

  function IdsOf(schedule: seq<ScheduleEntry>): seq<BatchId>
  {
    seq(|schedule|, k requires 0 <= k < |schedule| =>
      BatchId(k, schedule[k].orderId, schedule[k].productId, schedule[k].batchNum))
  }

  /** The state at the simulation horizon. */
  function FinalState(plant: PlantData, schedule: seq<ScheduleEntry>): Sim
    requires Resolvable(plant, schedule)
    requires forall k :: 0 <= k < |schedule| ==> Equipped(plant, [SpecOf(plant, schedule[k])])
  {
    var w := WorldOf(plant, schedule);
    WorldOfEquipped(plant, schedule);
    RunFromInitial(plant, w);
    Run(w, InitialSim(w.specs, InitialPools(plant.equipment)), plant.simulationTime)
  }

  lemma WorldOfEquipped(plant: PlantData, schedule: seq<ScheduleEntry>)
    requires Resolvable(plant, schedule)
    requires forall k :: 0 <= k < |schedule| ==> Equipped(plant, [SpecOf(plant, schedule[k])])
    ensures Equipped(plant, WorldOf(plant, schedule).specs)
  {
    var specs := WorldOf(plant, schedule).specs;
    forall i, k | 0 <= i < |specs| && 0 <= k < |specs[i].product.recipe|
      ensures OfType(plant.equipment, specs[i].product.recipe[k].equipmentType) != []
    {
      assert Equipped(plant, [SpecOf(plant, schedule[i])]);
      assert [SpecOf(plant, schedule[i])][0] == specs[i];
    }
  }

  /** The run of a simulatable schedule keeps its timing facts, so every
      finished batch has a start time. */
  lemma FinalTimed(plant: PlantData, schedule: seq<ScheduleEntry>, occupancy: map<string, real>)
    requires Simulatable(plant, schedule, occupancy)
    ensures var w := WorldOf(plant, schedule);
            var s := FinalState(plant, schedule);
            |s.procs| == |w.specs| == |schedule| && WorldOk(w) && Timed(w, s)
  {
    var w := WorldOf(plant, schedule);
    WorldOfEquipped(plant, schedule);
    RunFromInitial(plant, w);
    assert WorldOk(w) by {
      forall i, k | 0 <= i < |w.specs| && 0 <= k < |Recipe(w, i)| ensures Recipe(w, i)[k].duration >= 0.0 {
        assert NonNegativeDurations(SpecOf(plant, schedule[i]).product.recipe);
      }
    }
  }

  /** The metrics `simulate_schedule` returns: those of the records at the
      horizon, with the clock at the horizon. */
  function ScheduleMetrics(plant: PlantData, schedule: seq<ScheduleEntry>, occupancy: map<string, real>): Metrics
    requires Simulatable(plant, schedule, occupancy)
  {
    FinalRecordsSpec(plant, schedule, occupancy);
    MetricsOf(FinalRecords(plant, schedule), plant.orders, plant.hoursPerDay,
              TypeOrder(plant.equipment), plant.simulationTime, occupancy)
  }

  /** `simulate_schedule`: set up, create the batches, run to the horizon,
      then compute the metrics from the batches' recorded times. */
  method SimulateSchedule(plant: PlantData, schedule: seq<ScheduleEntry>, occupancy: map<string, real>)
    returns (metrics: Metrics)
    requires Simulatable(plant, schedule, occupancy)
    ensures metrics == ScheduleMetrics(plant, schedule, occupancy)
  {
    var w, ids, final := RunSchedule(plant, schedule);
    assert w == WorldOf(plant, schedule);
    assert ids == IdsOf(schedule);
    assert final == FinalState(plant, schedule);
    var batches := Records(w, ids, final);
    assert batches == FinalRecords(plant, schedule);
    FinalRecordsSpec(plant, schedule, occupancy);
    metrics := CalculateMetrics(batches, plant.orders, plant.hoursPerDay, TypeOrder(plant.equipment), final.now, occupancy);
  }

  /** A detail's duration, in days of `hoursPerDay` hours, covers `hours`. */
  predicate LastsAtLeast(d: BatchDetail, hoursPerDay: real, hours: real)
  {
    d.duration * hoursPerDay >= hours
  }

  /** Every detail `simulate_schedule` reports is that of a scheduled batch
      that ran: it starts no earlier than time 0, ends no earlier than it
      starts, and lasts at least its product's total processing time. */
  lemma SimulatedDetails(plant: PlantData, schedule: seq<ScheduleEntry>, occupancy: map<string, real>)
    requires Simulatable(plant, schedule, occupancy) && plant.hoursPerDay > 0.0
    ensures forall d :: d in ScheduleMetrics(plant, schedule, occupancy).batchDetails ==>
              && 0.0 <= d.start <= d.end
              && d.duration == d.end - d.start
              && exists k :: 0 <= k < |schedule| && d.batchId == IdsOf(schedule)[k]
                             && d.product == schedule[k].productId
                             && LastsAtLeast(d, plant.hoursPerDay, TotalProcessingTime(SpecOf(plant, schedule[k]).product))
  {
    var recs := FinalRecords(plant, schedule);
    FinalRecordsSpec(plant, schedule, occupancy);
    var totals := seq(|schedule|, k requires 0 <= k < |schedule| => TotalProcessingTime(SpecOf(plant, schedule[k]).product));
    var h := plant.hoursPerDay;
    RecordDetails(recs, totals, h);
    ScheduleDetails(plant, schedule, occupancy);
    forall d | d in Details(recs, h)
      ensures 0.0 <= d.start <= d.end && d.duration == d.end - d.start
      ensures exists k :: 0 <= k < |schedule| && d.batchId == IdsOf(schedule)[k]
                          && d.product == schedule[k].productId
                          && LastsAtLeast(d, h, TotalProcessingTime(SpecOf(plant, schedule[k]).product))
    {
      var k :| 0 <= k < |recs| && d.batchId == recs[k].id && d.product == recs[k].productId && LastsAtLeast(d, h, totals[k]);
      assert d.batchId == IdsOf(schedule)[k];
    }
  }

  lemma ScheduleDetails(plant: PlantData, schedule: seq<ScheduleEntry>, occupancy: map<string, real>)
    requires Simulatable(plant, schedule, occupancy)
    ensures StartsRecorded(FinalRecords(plant, schedule))
    ensures ScheduleMetrics(plant, schedule, occupancy).batchDetails == Details(FinalRecords(plant, schedule), plant.hoursPerDay)
  {
    FinalRecordsSpec(plant, schedule, occupancy);
  }

  /** A schedule of all the batches of a well-formed configuration, as each
      heuristic returns, can be simulated once the occupancy of every pool
      type is known. */
  lemma ScheduleSimulatable(plant: PlantData, schedule: seq<ScheduleEntry>, occupancy: map<string, real>)
    requires WellFormed(plant) && CanExpand(plant.orders, plant.products)
    requires IsScheduleOf(schedule, Expand(plant.orders, plant.products))
    requires forall t :: t in TypeOrder(plant.equipment) ==> t in occupancy
    ensures Simulatable(plant, schedule, occupancy)
  {
    WellFormedSchedule(plant, schedule);
  }

  /** The records `calculate_metrics` reads after the run of `schedule`. */
  function FinalRecords(plant: PlantData, schedule: seq<ScheduleEntry>): seq<BatchRecord>
    requires Resolvable(plant, schedule)
    requires forall k :: 0 <= k < |schedule| ==> Equipped(plant, [SpecOf(plant, schedule[k])])
  {
    var s := FinalState(plant, schedule);
    assert |s.procs| == |schedule| by {
      WorldOfEquipped(plant, schedule);
      RunFromInitial(plant, WorldOf(plant, schedule));
    }
    Records(WorldOf(plant, schedule), IdsOf(schedule), s)
  }

  /** Record `k` is that of schedule entry `k`; a finished one started at or
      after time 0 and ran at least its product's total processing time. */
  lemma FinalRecordsSpec(plant: PlantData, schedule: seq<ScheduleEntry>, occupancy: map<string, real>)
    requires Simulatable(plant, schedule, occupancy)
    ensures var recs := FinalRecords(plant, schedule);
            && |recs| == |schedule| && StartsRecorded(recs)
            && (forall k :: 0 <= k < |schedule| ==>
                  recs[k].id == IdsOf(schedule)[k] && recs[k].productId == schedule[k].productId
                  && recs[k].orderId == schedule[k].orderId)
            && (forall k :: 0 <= k < |schedule| && Truthy(recs[k].endTime) ==>
                  recs[k].startTime.value >= 0.0
                  && 0.0 <= TotalProcessingTime(SpecOf(plant, schedule[k]).product)
                         <= recs[k].endTime.value - recs[k].startTime.value)
  {
    var w := WorldOf(plant, schedule);
    var s := FinalState(plant, schedule);
    FinalTimed(plant, schedule, occupancy);
    FinishedRecords(w, IdsOf(schedule), s);
    var recs := Records(w, IdsOf(schedule), s);
    assert FinalRecords(plant, schedule) == recs;
    forall k | 0 <= k < |recs|
      ensures w.specs[k] == SpecOf(plant, schedule[k])
      ensures recs[k].id == IdsOf(schedule)[k] && recs[k].productId == schedule[k].productId
      ensures recs[k].orderId == schedule[k].orderId
      ensures Truthy(recs[k].endTime) ==> 0.0 <= TotalProcessingTime(w.specs[k].product)
    {
      assert NonNegativeDurations(Recipe(w, k));
      SumDurationsBounds(Recipe(w, k));
    }
  }

  /** Each detail is that of a finished record, starts no earlier than 0,
      ends no earlier than it starts and lasts at least the record's bound. */
  lemma RecordDetails(recs: seq<BatchRecord>, totals: seq<real>, h: real)
    requires h > 0.0 && StartsRecorded(recs) && |totals| == |recs|
    requires forall k :: 0 <= k < |recs| && Truthy(recs[k].endTime) ==>
               recs[k].startTime.value >= 0.0 && 0.0 <= totals[k] <= recs[k].endTime.value - recs[k].startTime.value
    ensures forall d :: d in Details(recs, h) ==>
              && 0.0 <= d.start <= d.end
              && d.duration == d.end - d.start
              && exists k :: 0 <= k < |recs| && d.batchId == recs[k].id && d.product == recs[k].productId
                             && LastsAtLeast(d, h, totals[k])
  {
    DetailsSpec(recs, h);
    forall d | d in Details(recs, h)
      ensures 0.0 <= d.start <= d.end && d.duration == d.end - d.start
      ensures exists k :: 0 <= k < |recs| && d.batchId == recs[k].id && d.product == recs[k].productId
                          && LastsAtLeast(d, h, totals[k])
    {
      var k :| 0 <= k < |recs| && Truthy(recs[k].endTime) && d == DetailOf(recs[k], h);
      DetailOfBounds(recs[k], h, totals[k]);
    }
  }

  /** One finished batch's detail, in days. */
  lemma DetailOfBounds(b: BatchRecord, h: real, total: real)
    requires h > 0.0 && Truthy(b.endTime) && b.startTime.Some?
    requires 0.0 <= total <= b.endTime.value - b.startTime.value && b.startTime.value >= 0.0
    ensures var d := DetailOf(b, h);
            0.0 <= d.start <= d.end && d.duration == d.end - d.start && LastsAtLeast(d, h, total)
  {
    var st, en := b.startTime.value, b.endTime.value;
    DivMonotone(st, en, h);
    DivMonotone(0.0, st, h);
  }

  lemma DivMonotone(x: real, y: real, h: real)
    requires h > 0.0 && x <= y
    ensures x / h <= y / h && y / h - x / h == (y - x) / h && (y - x) / h * h == y - x
  {
  }

  /** The totals `simulate_schedule` reports: tardiness is never negative,
      the late orders are at most the orders and there are none exactly when
      the total tardiness is 0; the makespan is the latest completion day;
      utilisation has one entry per equipment type, its occupancy as a
      percentage, when the horizon is past 0, and no entry otherwise. */
  lemma SimulatedTotals(plant: PlantData, schedule: seq<ScheduleEntry>, occupancy: map<string, real>, t: string)
    requires Simulatable(plant, schedule, occupancy)
    ensures var m := ScheduleMetrics(plant, schedule, occupancy);
            && m.totalTardiness >= 0.0 && m.makespan >= 0.0
            && m.numLateOrders <= |plant.orders|
            && (m.numLateOrders == 0 <==> m.totalTardiness == 0.0)
            && (forall k :: 0 <= k < |plant.orders| && Get(m.orderCompletion, plant.orders[k].id).Some? ==>
                  Get(m.orderCompletion, plant.orders[k].id).value.completionDay <= m.makespan)
            && Get(m.utilization, t) == if plant.simulationTime > 0.0 && t in TypeOrder(plant.equipment)
                                        then Some(occupancy[t] * 100.0) else None
  {
    var h := plant.hoursPerDay;
    var recs := FinalRecords(plant, schedule);
    FinalRecordsSpec(plant, schedule, occupancy);
    var comps := Completions(recs);
    CompletionsNonEmpty(recs);
    var m := ScheduleMetrics(plant, schedule, occupancy);
    var a := OrderTotals(plant.orders, comps, h);
    assert m.orderCompletion == a.orderCompletion && m.makespan == a.makespan;
    assert m.totalTardiness == a.totalTardiness && m.numLateOrders == a.numLateOrders;
    assert m.utilization == Utilization(TypeOrder(plant.equipment), plant.simulationTime, occupancy);
    TardinessTotals(plant.orders, comps, h);
    MakespanIsMax(plant.orders, comps, h);
    forall k | 0 <= k < |plant.orders| && Get(a.orderCompletion, plant.orders[k].id).Some?
      ensures Get(a.orderCompletion, plant.orders[k].id).value.completionDay <= a.makespan
    {
      CompletionsSpec(recs, "");
      LastWithId(plant.orders, comps, h, k);
    }
    if plant.simulationTime > 0.0 {
      UtilizationSpec(TypeOrder(plant.equipment), plant.simulationTime, occupancy, t);
    } else {
      UtilizationAtZero(TypeOrder(plant.equipment), plant.simulationTime, occupancy);
    }
  }

  /** An order id's entry is no later than the makespan, whichever of the
      orders with that id it came from. */
  lemma LastWithId(orders: seq<Order>, completions: seq<(string, seq<real>)>, hoursPerDay: real, k: nat)
    requires NonEmptyValues(completions) && hoursPerDay != 0.0 && DistinctKeys(completions) && k < |orders|
    requires Get(OrderTotals(orders, completions, hoursPerDay).orderCompletion, orders[k].id).Some?
    ensures Get(OrderTotals(orders, completions, hoursPerDay).orderCompletion, orders[k].id).value.completionDay
            <= OrderTotals(orders, completions, hoursPerDay).makespan
    decreases |orders| - k
  {
    if j :| k < j < |orders| && orders[j].id == orders[k].id {
      LastWithId(orders, completions, hoursPerDay, j);
    } else {
      OrderEntries(orders, completions, hoursPerDay, k);
      MakespanIsMax(orders, completions, hoursPerDay);
    }
  }
}

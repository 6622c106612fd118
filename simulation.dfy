/** `ProductionScheduler.setup_simulation` and `simulate_schedule`: one
    resource pool per equipment type with as many units as there are pieces
    of equipment of that type, an empty changeover tracker, one batch process
    per schedule entry, and a run up to the simulation horizon. */
module Simulation {
  import opened Domain
  import opened Config
  import opened Scheduler
  import opened Sorting
  import opened Pool
  import opened Machine
  import opened Accounting
  import opened Timing

  // ---------------------------------------------------------------------
  // Pools per equipment type
  // ---------------------------------------------------------------------

  /** The equipment of type `t`, in configuration order. */
  function OfType(equipment: seq<Equipment>, t: string): seq<Equipment>
  {
    if equipment == [] then []
    else
      var last := equipment[|equipment| - 1];
      OfType(equipment[..|equipment| - 1], t) + (if last.equipmentType == t then [last] else [])
  }

  /** `equipment_by_type` once its loop has gone through `equipment`. */
  function GroupByType(equipment: seq<Equipment>): map<string, seq<Equipment>>
  {
    if equipment == [] then map[]
    else
      var g := GroupByType(equipment[..|equipment| - 1]);
      var e := equipment[|equipment| - 1];
      g[e.equipmentType := (if e.equipmentType in g then g[e.equipmentType] else []) + [e]]
  }

  /** Grouping puts each piece of equipment under its own type, keeps
      configuration order within a type, and has a key exactly for the types
      that occur. */
  lemma {:induction false} GroupByTypeIsOfType(equipment: seq<Equipment>)
    ensures forall t :: t in GroupByType(equipment) <==> OfType(equipment, t) != []
    ensures forall t :: t in GroupByType(equipment) ==> GroupByType(equipment)[t] == OfType(equipment, t)
  {
    if equipment != [] {
      GroupByTypeIsOfType(equipment[..|equipment| - 1]);
    }
  }

  /** A type has equipment exactly when some entry of the list has that type. */
  lemma {:induction false} OfTypeNonEmpty(equipment: seq<Equipment>, t: string)
    ensures OfType(equipment, t) != [] <==> exists k :: 0 <= k < |equipment| && equipment[k].equipmentType == t
  {
    if equipment != [] {
      var init := equipment[..|equipment| - 1];
      OfTypeNonEmpty(init, t);
      if exists k :: 0 <= k < |init| && init[k].equipmentType == t {
        var k :| 0 <= k < |init| && init[k].equipmentType == t;
        assert equipment[k].equipmentType == t;
      }
      if exists k :: 0 <= k < |equipment| && equipment[k].equipmentType == t {
        var k :| 0 <= k < |equipment| && equipment[k].equipmentType == t;
        if k < |init| { assert init[k].equipmentType == t; }
      }
    }
  }

  /** The keys of `equipment_by_type` (and so of `equipment_resources`) in
      dictionary order: each type where it first occurs. */
  function TypeOrder(equipment: seq<Equipment>): seq<string>
  {
    if equipment == [] then []
    else
      var ts := TypeOrder(equipment[..|equipment| - 1]);
      var t := equipment[|equipment| - 1].equipmentType;
      if t in ts then ts else ts + [t]
  }

  /** Each type with equipment occurs exactly once. */
  lemma {:induction false} TypeOrderSpec(equipment: seq<Equipment>)
    ensures forall i, j :: 0 <= i < j < |TypeOrder(equipment)| ==> TypeOrder(equipment)[i] != TypeOrder(equipment)[j]
    ensures forall t :: t in TypeOrder(equipment) <==> OfType(equipment, t) != []
  {
    if equipment != [] {
      TypeOrderSpec(equipment[..|equipment| - 1]);
    }
  }

  /** The types are listed in the order they first occur: whenever a piece
      of equipment has a later-listed type, a piece of every earlier-listed
      type comes before it. */
  lemma TypeOrderFirstSeen(equipment: seq<Equipment>)
    ensures var ts := TypeOrder(equipment);
            forall i, j, b :: 0 <= i < j < |ts| && 0 <= b < |equipment| && equipment[b].equipmentType == ts[j] ==>
              exists a :: 0 <= a < b && equipment[a].equipmentType == ts[i]
  {
    forall i, j, b | 0 <= i < j < |TypeOrder(equipment)| && 0 <= b < |equipment| && equipment[b].equipmentType == TypeOrder(equipment)[j]
      ensures exists a :: 0 <= a < b && equipment[a].equipmentType == TypeOrder(equipment)[i]
    {
      FirstSeenAt(equipment, i, j, b);
    }
  }

  /** `TypeOrderFirstSeen` for one pair of positions and one piece. */
  lemma {:induction false} FirstSeenAt(equipment: seq<Equipment>, i: nat, j: nat, b: nat)
    requires i < j < |TypeOrder(equipment)| && b < |equipment| && equipment[b].equipmentType == TypeOrder(equipment)[j]
    ensures exists a :: 0 <= a < b && equipment[a].equipmentType == TypeOrder(equipment)[i]
    decreases |equipment|
  {
    var n := |equipment|;
    var init := equipment[..n - 1];
    var ts0, t := TypeOrder(init), equipment[n - 1].equipmentType;
    TypeOrderSpec(init);
    assert TypeOrder(equipment)[i] == ts0[i] && ts0[i] in ts0;
    OfTypeNonEmpty(init, ts0[i]);
    var a :| 0 <= a < n - 1 && init[a].equipmentType == ts0[i];
    if b < n - 1 {
      assert init[b] == equipment[b];
      if j == |ts0| {
        // `t` was new, so no earlier piece has it
        OfTypeNonEmpty(init, t);
        assert false;
      }
      FirstSeenAt(init, i, j, b);
      var a' :| 0 <= a' < b && init[a'].equipmentType == ts0[i];
      assert equipment[a'] == init[a'];
    } else {
      assert equipment[a] == init[a];
    }
  }

  /** The pools `setup_simulation` creates, as values. */
  function InitialPools(equipment: seq<Equipment>): (pools: map<string, PoolState>)
    ensures forall t :: t in pools <==> OfType(equipment, t) != []
    ensures forall t :: t in pools ==> pools[t] == EmptyPool(|OfType(equipment, t)|)
  {
    GroupByTypeIsOfType(equipment);
    EmptyPools(GroupByType(equipment))
  }

  /** One empty pool per group, as many units as the group has members. */
  function EmptyPools(byType: map<string, seq<Equipment>>): map<string, PoolState>
  {
    map t | t in byType :: EmptyPool(|byType[t]|)
  }

  /** The current state of each pool object. */
  function PoolsOf(resources: map<string, ResourcePool>): map<string, PoolState>
    reads resources.Values
  {
    map t | t in resources :: resources[t].State()
  }

  /** The first loop of `setup_simulation`: `equipment_by_type`. */
  method GroupEquipment(equipment: seq<Equipment>) returns (byType: map<string, seq<Equipment>>)
    ensures byType == GroupByType(equipment)
  {
    byType := map[];
    for i := 0 to |equipment|
      invariant byType == GroupByType(equipment[..i])
    {
      assert equipment[..i + 1][..i] == equipment[..i];
      var e := equipment[i];
      if e.equipmentType !in byType {
        byType := byType[e.equipmentType := []];
      }
      byType := byType[e.equipmentType := byType[e.equipmentType] + [e]];
    }
    assert equipment[..|equipment|] == equipment;
  }

  /** The second loop of `setup_simulation`: one pool object per type, with
      as many units as the type has pieces of equipment. */
  method CreatePools(byType: map<string, seq<Equipment>>) returns (resources: map<string, ResourcePool>)
    ensures resources.Keys == byType.Keys
    ensures forall t :: t in resources ==> fresh(resources[t]) && resources[t].name == t
    ensures forall t :: t in resources ==> resources[t].State() == EmptyPool(|byType[t]|)
    ensures forall t, u :: t in resources && u in resources && t != u ==> resources[t] != resources[u]
    ensures PoolsOf(resources) == EmptyPools(byType)
  {
    resources := map[];
    var remaining := byType.Keys;
    while remaining != {}
      invariant remaining <= byType.Keys
      invariant resources.Keys == byType.Keys - remaining
      invariant forall t :: t in resources ==> fresh(resources[t]) && resources[t].name == t
      invariant forall t :: t in resources ==> resources[t].State() == EmptyPool(|byType[t]|)
      invariant forall t, u :: t in resources && u in resources && t != u ==> resources[t] != resources[u]
      decreases remaining
    {
      var t :| t in remaining;
      var pool := new ResourcePool(t, |byType[t]|);
      resources := resources[t := pool];
      remaining := remaining - {t};
    }
    PoolsOfEmpty(resources, byType);
  }

  /** Pool objects that are each empty with their group's size read as
      `EmptyPools`. */
  lemma PoolsOfEmpty(resources: map<string, ResourcePool>, byType: map<string, seq<Equipment>>)
    requires resources.Keys == byType.Keys
    requires forall t :: t in resources ==> resources[t].State() == EmptyPool(|byType[t]|)
    ensures PoolsOf(resources) == EmptyPools(byType)
  {
    var pools, empty := PoolsOf(resources), EmptyPools(byType);
    assert pools.Keys == empty.Keys;
  }

  /** Groups the equipment by type, then creates one pool per type whose
      capacity is the number of pieces of that type, and resets the tracker. */
  method SetupSimulation(equipment: seq<Equipment>) returns (resources: map<string, ResourcePool>, tracker: map<string, string>)
    ensures tracker == map[]
    ensures forall t :: t in resources <==> OfType(equipment, t) != []
    ensures forall t :: t in resources ==> fresh(resources[t]) && resources[t].name == t
    ensures forall t, u :: t in resources && u in resources && t != u ==> resources[t] != resources[u]
    ensures PoolsOf(resources) == InitialPools(equipment)
  {
    var byType := GroupEquipment(equipment);
    GroupByTypeIsOfType(equipment);
    resources := CreatePools(byType);
    tracker := map[];
    assert PoolsOf(resources) == EmptyPools(byType);
  }

  // ---------------------------------------------------------------------
  // Batch processes
  // ---------------------------------------------------------------------

  /** `B{idx:03d}-O{order_id}-P{product_id}-{batch_num}`, kept as its parts. */
  datatype BatchId = BatchId(index: nat, orderId: string, productId: string, batchNum: nat)

  /** Every schedule entry names an order and a product of the plant. */
  predicate Resolvable(plant: PlantData, schedule: seq<ScheduleEntry>)
  {
    forall k :: 0 <= k < |schedule| ==>
      HasOrder(plant.orders, schedule[k].orderId) && HasProduct(plant.products, schedule[k].productId)
  }

  /** The batch process for one schedule entry: the first order and product
      with the entry's ids, started after the entry's start time. */
  function SpecOf(plant: PlantData, e: ScheduleEntry): (b: BatchSpec)
    requires HasOrder(plant.orders, e.orderId) && HasProduct(plant.products, e.productId)
    ensures b.order.id == e.orderId && b.product.id == e.productId && b.startDelay == e.startTime
    ensures b.order in plant.orders && b.product in plant.products
  {
    BatchSpec(FindProduct(plant.products, e.productId), FindOrder(plant.orders, e.orderId), e.startTime)
  }

  /** Each recipe step of a scheduled product has equipment of its type
      (otherwise the pool lookup raises). */
  predicate Equipped(plant: PlantData, specs: seq<BatchSpec>)
  {
    forall i, k :: 0 <= i < |specs| && 0 <= k < |specs[i].product.recipe| ==>
      OfType(plant.equipment, specs[i].product.recipe[k].equipmentType) != []
  }

  /** Each entry of a schedule of the batches of a well-formed configuration
      names a known order and product, the product's steps all have
      equipment, and none takes negative time. */
  lemma WellFormedEntry(plant: PlantData, schedule: seq<ScheduleEntry>, k: nat)
    requires WellFormed(plant) && CanExpand(plant.orders, plant.products)
    requires IsScheduleOf(schedule, Expand(plant.orders, plant.products)) && k < |schedule|
    ensures HasOrder(plant.orders, schedule[k].orderId) && HasProduct(plant.products, schedule[k].productId)
    ensures Equipped(plant, [SpecOf(plant, schedule[k])])
    ensures NonNegativeDurations(SpecOf(plant, schedule[k]).product.recipe)
  {
    ScheduledOrder(plant, schedule, k);
    var o :| 0 <= o < |plant.orders| && plant.orders[o].id == schedule[k].orderId
             && plant.orders[o].productId == schedule[k].productId;
    KnownProductRuns(plant, schedule[k], o);
  }

  /** Each entry of a schedule of the batches carries the id and product id
      of an input order. */
  lemma ScheduledOrder(plant: PlantData, schedule: seq<ScheduleEntry>, k: nat)
    requires CanExpand(plant.orders, plant.products)
    requires IsScheduleOf(schedule, Expand(plant.orders, plant.products)) && k < |schedule|
    ensures exists o :: 0 <= o < |plant.orders| && plant.orders[o].id == schedule[k].orderId
                        && plant.orders[o].productId == schedule[k].productId
  {
    var batches := Expand(plant.orders, plant.products);
    assert schedule[k] in multiset(Map(batches, ToEntry));
    var j :| 0 <= j < |batches| && Map(batches, ToEntry)[j] == schedule[k];
    ExpandMembers(plant.orders, plant.products, j);
    var o :| 0 <= o < |plant.orders| && batches[j].order == plant.orders[o]
             && batches[j].product == FindProduct(plant.products, plant.orders[o].productId)
             && batches[j].batchNum < BatchCount(plant.orders[o], plant.products);
    assert plant.orders[o].id == schedule[k].orderId;
  }

  /** In a well-formed configuration the batch of a known order, whose
      product some order `o` names, has equipment for each step and no step
      of negative time. */
  lemma KnownProductRuns(plant: PlantData, e: ScheduleEntry, o: nat)
    requires WellFormed(plant) && HasOrder(plant.orders, e.orderId)
    requires o < |plant.orders| && plant.orders[o].productId == e.productId
    ensures HasProduct(plant.products, e.productId)
    ensures Equipped(plant, [SpecOf(plant, e)])
    ensures NonNegativeDurations(SpecOf(plant, e).product.recipe)
  {
    var spec := SpecOf(plant, e);
    assert Runnable(plant.equipment, spec.product);
    forall s | 0 <= s < |spec.product.recipe|
      ensures OfType(plant.equipment, spec.product.recipe[s].equipmentType) != []
    {
      assert HasEquipment(plant.equipment, spec.product.recipe[s].equipmentType);
      OfTypeNonEmpty(plant.equipment, spec.product.recipe[s].equipmentType);
    }
  }

  /** Every schedule of the batches of a well-formed configuration, as each
      heuristic returns, can be simulated: `simulate_schedule` raises no
      lookup error and holds no negative time. */
  lemma WellFormedSchedule(plant: PlantData, schedule: seq<ScheduleEntry>)
    requires WellFormed(plant) && CanExpand(plant.orders, plant.products)
    requires IsScheduleOf(schedule, Expand(plant.orders, plant.products))
    ensures Resolvable(plant, schedule)
    ensures forall k :: 0 <= k < |schedule| ==> Equipped(plant, [SpecOf(plant, schedule[k])])
    ensures forall k :: 0 <= k < |schedule| ==> NonNegativeDurations(SpecOf(plant, schedule[k]).product.recipe)
  {
    forall k | 0 <= k < |schedule|
      ensures HasOrder(plant.orders, schedule[k].orderId) && HasProduct(plant.products, schedule[k].productId)
    {
      WellFormedEntry(plant, schedule, k);
    }
    forall k | 0 <= k < |schedule|
      ensures Equipped(plant, [SpecOf(plant, schedule[k])])
      ensures NonNegativeDurations(SpecOf(plant, schedule[k]).product.recipe)
    {
      WellFormedEntry(plant, schedule, k);
    }
  }

  /** Every batch created, none started; creation gives batch `i` the `i`th
      event sequence number at time 0. */
  function InitialSim(specs: seq<BatchSpec>, pools: map<string, PoolState>): (s: Sim)
    ensures s.now == 0.0 && s.pools == pools && s.tracker == map[] && |s.procs| == |specs|
    ensures forall i :: 0 <= i < |specs| ==> s.procs[i] == Proc(Created, Some(Wake(0.0, i)), None, None, StatusCreated, 0)
  {
    Sim(0.0, |specs|, pools, map[], seq(|specs|, i requires 0 <= i => Proc(Created, Some(Wake(0.0, i)), None, None, StatusCreated, 0)))
  }

  /** The initial state satisfies the structural invariant, the pool
      accounting and, when no step takes negative time, the timing facts. */
  lemma InitialInvariants(plant: PlantData, w: World)
    requires Equipped(plant, w.specs)
    ensures var s := InitialSim(w.specs, InitialPools(plant.equipment));
            Shape(w, s) && Accounted(w, s) && (WorldOk(w) ==> Timed(w, s))
  {
    var s := InitialSim(w.specs, InitialPools(plant.equipment));
    assert Shape(w, s) by {
      forall i, k | 0 <= i < |w.specs| && 0 <= k < |Recipe(w, i)| ensures Recipe(w, i)[k].equipmentType in s.pools {
        assert OfType(plant.equipment, w.specs[i].product.recipe[k].equipmentType) != [];
      }
    }
    forall t | t in s.pools
      ensures Holders(w, s.procs, t) == {} && Waiters(w, s.procs, t) == {}
    {
    }
  }

  /** The loop of `simulate_schedule`: one batch process per schedule entry,
      in schedule order. */
  method CreateBatches(plant: PlantData, schedule: seq<ScheduleEntry>) returns (specs: seq<BatchSpec>, ids: seq<BatchId>)
    requires Resolvable(plant, schedule)
    ensures |specs| == |schedule| && |ids| == |schedule|
    ensures forall k :: 0 <= k < |schedule| ==>
              specs[k] == SpecOf(plant, schedule[k])
              && ids[k] == BatchId(k, schedule[k].orderId, schedule[k].productId, schedule[k].batchNum)
  {
    specs, ids := [], [];
    for idx := 0 to |schedule|
      invariant |specs| == idx && |ids| == idx
      invariant forall k :: 0 <= k < idx ==>
                  specs[k] == SpecOf(plant, schedule[k])
                  && ids[k] == BatchId(k, schedule[k].orderId, schedule[k].productId, schedule[k].batchNum)
    {
      var e := schedule[idx];
      specs := specs + [SpecOf(plant, e)];
      ids := ids + [BatchId(idx, e.orderId, e.productId, e.batchNum)];
    }
  }

  /** A run keeps the pool accounting, so the batches holding a unit of a
      type never outnumber the pool's capacity; it keeps the timing facts
      when the horizon is not behind the clock. */
  lemma RunKeeps(w: World, s: Sim, horizon: real)
    requires Shape(w, s) && Accounted(w, s)
    ensures var r := Run(w, s, horizon);
            && Accounted(w, r)
            && (forall t :: t in r.pools ==> |Holders(w, r.procs, t)| <= r.pools[t].capacity)
            && (WorldOk(w) && Timed(w, s) && s.now <= horizon ==> Timed(w, r))
  {
    var r := Run(w, s, horizon);
    RunAccounted(w, s, horizon);
    forall t | t in r.pools ensures |Holders(w, r.procs, t)| <= r.pools[t].capacity {
      HoldersWithinCapacity(w, r, t);
    }
    if WorldOk(w) && Timed(w, s) && s.now <= horizon {
      RunTimed(w, s, horizon);
    }
  }

  /** What holds at the end of a run from the initial state: the pools
      account for every batch, so the batches holding a unit of a type never
      outnumber its pieces of equipment; and, when no step takes negative
      time, every batch's timing facts. */
  lemma RunFromInitial(plant: PlantData, w: World)
    requires Equipped(plant, w.specs)
    ensures var s0 := InitialSim(w.specs, InitialPools(plant.equipment));
            Shape(w, s0) &&
            var r := Run(w, s0, plant.simulationTime);
            && Accounted(w, r)
            && (forall t :: t in r.pools ==> |Holders(w, r.procs, t)| <= |OfType(plant.equipment, t)|)
            && (WorldOk(w) ==> Timed(w, r))
  {
    var s0 := InitialSim(w.specs, InitialPools(plant.equipment));
    InitialInvariants(plant, w);
    RunKeeps(w, s0, plant.simulationTime);
    var r := Run(w, s0, plant.simulationTime);
    RunCapacities(w, s0, plant.simulationTime);
    assert forall t :: t in r.pools ==> r.pools[t].capacity == Capacities(r)[t] == Capacities(s0)[t];
    if WorldOk(w) && plant.simulationTime < 0.0 {
      NegativeHorizon(w, s0, plant.simulationTime);
    }
  }

  /** A horizon before time 0 resumes nothing: every batch stays created. */
  lemma NegativeHorizon(w: World, s0: Sim, horizon: real)
    requires WorldOk(w) && s0 == InitialSim(w.specs, s0.pools) && Shape(w, s0) && horizon < 0.0
    ensures Run(w, s0, horizon) == s0.(now := horizon)
    ensures Timed(w, s0.(now := horizon))
  {
    var e := Earliest(s0.procs);
    if e.Some? {
      assert s0.procs[e.value].wake.value.time == 0.0;
    }
  }

  /** The part of `simulate_schedule` before the metrics: set up the pools
      and the tracker, create one batch process per schedule entry, then run
      the event loop to the simulation horizon. */
  method RunSchedule(plant: PlantData, schedule: seq<ScheduleEntry>) returns (w: World, ids: seq<BatchId>, final: Sim)
    requires Resolvable(plant, schedule)
    requires forall k :: 0 <= k < |schedule| ==> Equipped(plant, [SpecOf(plant, schedule[k])])
    ensures w.matrix == plant.changeovers && |w.specs| == |schedule| && |ids| == |schedule|
    ensures forall k :: 0 <= k < |schedule| ==>
              w.specs[k] == SpecOf(plant, schedule[k])
              && ids[k] == BatchId(k, schedule[k].orderId, schedule[k].productId, schedule[k].batchNum)
    ensures Equipped(plant, w.specs)
    ensures Shape(w, InitialSim(w.specs, InitialPools(plant.equipment)))
    ensures final == Run(w, InitialSim(w.specs, InitialPools(plant.equipment)), plant.simulationTime)
  {
    var resources, tracker := SetupSimulation(plant.equipment);
    var pools := PoolsOf(resources);
    var specs;
    specs, ids := CreateBatches(plant, schedule);
    w := World(specs, plant.changeovers);
    assert Equipped(plant, w.specs) by {
      forall i, k | 0 <= i < |specs| && 0 <= k < |specs[i].product.recipe|
        ensures OfType(plant.equipment, specs[i].product.recipe[k].equipmentType) != []
      {
        assert Equipped(plant, [SpecOf(plant, schedule[i])]);
        assert [SpecOf(plant, schedule[i])][0] == specs[i];
      }
    }
    RunFromInitial(plant, w);
    var start := InitialSim(specs, pools).(tracker := tracker);
    assert start == InitialSim(specs, pools);
    final := Run(w, start, plant.simulationTime);
  }
}

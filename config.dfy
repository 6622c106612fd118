/** Plant configuration. `car_dict_input.py` builds it from a configuration
    dictionary (with defaults for the optional keys); `cli_code/main.py` holds
    the same records as static class constants. Both end up as a `PlantData`
    value that nothing changes afterwards. */
module Config {
  import opened Domain

  /** One `{"from_product", "to_product", "time"}` entry of the dictionary. */
  datatype ChangeoverEntry = ChangeoverEntry(fromProduct: string, toProduct: string, time: real)

  /** One order entry; `priority` may be absent. */
  datatype OrderEntry = OrderEntry(id: string, productId: string, quantity: real, dueDate: real, priority: Option<int>)

  /** The configuration dictionary: required keys are plain fields, optional
      keys are `Option`s. Equipment and product entries carry the same fields
      as their records. */
  datatype ConfigDict = ConfigDict(
    equipment: seq<Equipment>,
    products: seq<Product>,
    changeovers: Option<seq<ChangeoverEntry>>,
    orders: seq<OrderEntry>,
    hoursPerDay: Option<real>,
    simulationTimeDays: Option<real>)

  datatype PlantData = PlantData(
    equipment: seq<Equipment>,
    products: seq<Product>,
    changeovers: ChangeoverMatrix,
    orders: seq<Order>,
    hoursPerDay: real,
    simulationTime: real)

  const DefaultPriority: int := 1
  const DefaultHoursPerDay: real := 24.0
  const DefaultSimulationDays: real := 30.0

  /** The map obtained by assigning the entries one after another: a later
      entry for the same (from, to) pair overwrites an earlier one. */
  function ChangeoverMap(entries: seq<ChangeoverEntry>): map<(string, string), real>
  {
    if entries == [] then map[]
    else
      var last := entries[|entries| - 1];
      ChangeoverMap(entries[..|entries| - 1])[(last.fromProduct, last.toProduct) := last.time]
  }

  /** A pair is in the map exactly when some entry names it, and its value is
      the time of the LAST entry naming it. */
  lemma {:induction false} ChangeoverMapLastWins(entries: seq<ChangeoverEntry>, key: (string, string))
    ensures key in ChangeoverMap(entries) <==>
            exists j :: 0 <= j < |entries| && (entries[j].fromProduct, entries[j].toProduct) == key
    ensures forall j :: 0 <= j < |entries| && (entries[j].fromProduct, entries[j].toProduct) == key
              && (forall l :: j < l < |entries| ==> (entries[l].fromProduct, entries[l].toProduct) != key)
              ==> key in ChangeoverMap(entries) && ChangeoverMap(entries)[key] == entries[j].time
  {
    if entries != [] {
      var init := entries[..|entries| - 1];
      var last := entries[|entries| - 1];
      ChangeoverMapLastWins(init, key);
      if (last.fromProduct, last.toProduct) != key {
        forall j | 0 <= j < |entries| && (entries[j].fromProduct, entries[j].toProduct) == key
          ensures j < |entries| - 1 && entries[j] == init[j]
        {
        }
        if key in ChangeoverMap(entries) {
          var j :| 0 <= j < |init| && (init[j].fromProduct, init[j].toProduct) == key;
          assert entries[j] == init[j];
        }
      }
    }
  }

  /** The loop of `PlantData.__init__` that fills the changeover dictionary. */
  method BuildChangeovers(entries: seq<ChangeoverEntry>) returns (m: map<(string, string), real>)
    ensures m == ChangeoverMap(entries)
    ensures forall k :: k in m <==> exists j :: 0 <= j < |entries| && (entries[j].fromProduct, entries[j].toProduct) == k
  {
    m := map[];
    var i := 0;
    while i < |entries|
      invariant 0 <= i <= |entries|
      invariant m == ChangeoverMap(entries[..i])
    {
      assert entries[..i + 1][..i] == entries[..i];
      m := m[(entries[i].fromProduct, entries[i].toProduct) := entries[i].time];
      i := i + 1;
    }
    assert entries[..i] == entries;
    forall k ensures k in m <==> exists j :: 0 <= j < |entries| && (entries[j].fromProduct, entries[j].toProduct) == k {
      ChangeoverMapLastWins(entries, k);
    }
  }

  /** An order record from its dictionary entry: priority defaults to 1. */
  function ParseOrder(e: OrderEntry): (o: Order)
    ensures o.id == e.id && o.productId == e.productId && o.quantity == e.quantity && o.dueDate == e.dueDate
    ensures e.priority.None? ==> o.priority == 1
    ensures e.priority.Some? ==> o.priority == e.priority.value
  {
    Order(e.id, e.productId, e.quantity, e.dueDate,
          match e.priority case Some(p) => p case None => DefaultPriority)
  }

  /** `PlantData.__init__(config_dict)`. */
  method ParsePlantData(config: ConfigDict) returns (plant: PlantData)
    ensures plant.equipment == config.equipment && plant.products == config.products
    ensures |plant.orders| == |config.orders|
    ensures forall k :: 0 <= k < |plant.orders| ==> plant.orders[k] == ParseOrder(config.orders[k])
    ensures plant.changeovers.matrix == ChangeoverMap(match config.changeovers case Some(c) => c case None => [])
    ensures plant.hoursPerDay == (match config.hoursPerDay case Some(h) => h case None => 24.0)
    ensures plant.simulationTime
            == (match config.simulationTimeDays case Some(d) => d case None => 30.0) * plant.hoursPerDay
  {
    var entries := match config.changeovers case Some(c) => c case None => [];
    var matrix := BuildChangeovers(entries);
    var orders := seq(|config.orders|, k requires 0 <= k < |config.orders| => ParseOrder(config.orders[k]));
    var hours := match config.hoursPerDay case Some(h) => h case None => DefaultHoursPerDay;
    var days := match config.simulationTimeDays case Some(d) => d case None => DefaultSimulationDays;
    plant := PlantData(config.equipment, config.products, ChangeoverMatrix(matrix), orders, hours, days * hours);
  }

  /** The checks on the configuration whose failure raises in the source:
      `next` on a missing product, a division by a zero batch size, a
      `KeyError` on an equipment type with no equipment, and a zero day
      length in `critical_ratio`. Negative step durations are excluded too,
      since their handling is not modelled. Only products some order names
      are checked, as only those are ever looked up. */
  predicate WellFormed(plant: PlantData)
  {
    && (forall k :: 0 <= k < |plant.orders| ==>
          HasProduct(plant.products, plant.orders[k].productId)
          && Runnable(plant.equipment, FindProduct(plant.products, plant.orders[k].productId)))
    && plant.hoursPerDay != 0.0
  }

  /** A product no order names does not change whether a configuration is
      well formed, whatever its batch size, durations or equipment types. */
  lemma WellFormedIgnoresUnordered(plant: PlantData, p: Product)
    requires forall k :: 0 <= k < |plant.orders| ==> plant.orders[k].productId != p.id
    ensures WellFormed(plant.(products := plant.products + [p])) <==> WellFormed(plant)
  {
    var more := plant.(products := plant.products + [p]);
    forall k | 0 <= k < |plant.orders|
      ensures HasProduct(more.products, plant.orders[k].productId) <==> HasProduct(plant.products, plant.orders[k].productId)
      ensures HasProduct(plant.products, plant.orders[k].productId) ==>
                FindProduct(more.products, plant.orders[k].productId) == FindProduct(plant.products, plant.orders[k].productId)
    {
      var id := plant.orders[k].productId;
      if HasProduct(plant.products, id) {
        FindProductPrefix(plant.products, [p], id);
      }
    }
  }

  /** An ordered product can be batched and run: a non-zero batch size, no
      step of negative time, and equipment for every step. */
  predicate Runnable(equipment: seq<Equipment>, p: Product)
  {
    && p.batchSize != 0.0
    && NonNegativeDurations(p.recipe)
    && forall s :: 0 <= s < |p.recipe| ==> HasEquipment(equipment, p.recipe[s].equipmentType)
  }

  /** Some piece of equipment has type `t`. */
  predicate HasEquipment(equipment: seq<Equipment>, t: string)
  {
    exists e :: 0 <= e < |equipment| && equipment[e].equipmentType == t
  }

  // ---------------------------------------------------------------------
  // The static configuration of cli_code/main.py
  // ---------------------------------------------------------------------

  function StaticProducts(): seq<Product>
  {
    [ Product("A", "Product-A",
        [RecipeStep("Reaction", "Reactor", 4.0), RecipeStep("Drying", "Dryer", 8.0), RecipeStep("Packaging", "Packager", 2.0)],
        100.0),
      Product("B", "Product-B",
        [RecipeStep("Reaction", "Reactor", 6.0), RecipeStep("Drying", "Dryer", 6.0), RecipeStep("Packaging", "Packager", 1.5)],
        80.0),
      Product("C", "Product-C",
        [RecipeStep("Reaction", "Reactor", 3.0), RecipeStep("Drying", "Dryer", 10.0), RecipeStep("Packaging", "Packager", 2.5)],
        120.0) ]
  }

  /** `PlantData` of cli_code/main.py: 2 reactors, 1 dryer, 1 packager, three
      products, six orders, 24-hour days and a 30-day horizon. */
  function StaticPlantData(): (plant: PlantData)
    ensures plant.hoursPerDay == 24.0 && plant.simulationTime == 720.0
    ensures |plant.orders| == 6 && |plant.products| == 3 && |plant.equipment| == 4
  {
    PlantData(
      [ Equipment("R-101", "Reactor", 500.0), Equipment("R-102", "Reactor", 500.0),
        Equipment("D-201", "Dryer", 200.0), Equipment("P-301", "Packager", 100.0) ],
      StaticProducts(),
      ChangeoverMatrix(map[("A", "B") := 4.0, ("A", "C") := 6.0, ("B", "A") := 5.0,
                           ("B", "C") := 3.0, ("C", "A") := 8.0, ("C", "B") := 4.0]),
      [ Order("1", "A", 1000.0, 1.0, 2), Order("2", "B", 800.0, 4.0, 2), Order("3", "C", 1200.0, 5.0, 4),
        Order("4", "A", 600.0, 3.0, 1), Order("5", "B", 500.0, 2.0, 3), Order("6", "C", 400.0, 6.0, 2) ],
      24.0,
      30.0 * 24.0)
  }

  /** The static configuration passes every check the simulation relies on. */
  lemma StaticPlantWellFormed()
    ensures WellFormed(StaticPlantData())
  {
    var plant := StaticPlantData();
    var ps := plant.products;
    assert ps[0].id == "A" && ps[1].id == "B" && ps[2].id == "C";
    forall j | 0 <= j < |ps| ensures Runnable(plant.equipment, ps[j]) {
      StaticProductRunnable(plant, j);
    }
    forall k | 0 <= k < |plant.orders|
      ensures HasProduct(ps, plant.orders[k].productId)
      ensures Runnable(plant.equipment, FindProduct(ps, plant.orders[k].productId))
    {
      var id := plant.orders[k].productId;
      var j := if id == "A" then 0 else if id == "B" then 1 else 2;
      assert ps[j].id == id;
      assert FindProduct(ps, id) == ps[j];
    }
  }

  /** Each static product runs on the static equipment: reactor, dryer and
      packager all exist. */
  lemma StaticProductRunnable(plant: PlantData, j: nat)
    requires plant == StaticPlantData() && j < |plant.products|
    ensures Runnable(plant.equipment, plant.products[j])
  {
    var p := plant.products[j];
    forall s | 0 <= s < |p.recipe|
      ensures HasEquipment(plant.equipment, p.recipe[s].equipmentType)
    {
      var e := if s == 0 then 0 else if s == 1 then 2 else 3;
      assert plant.equipment[e].equipmentType == p.recipe[s].equipmentType;
    }
  }
}

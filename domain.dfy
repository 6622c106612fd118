/** Plant records: equipment, recipe steps, products, orders and the
    sequence-dependent changeover matrix, with the lookups shared by the
    scheduler, the simulation and the metrics. Hours, kilograms and days are
    exact rationals (`real`). */
module Domain {

  datatype Option<T> = None | Some(value: T)

  /** One piece of equipment. `capacity` (litres or kg) is informational only:
      contention capacity is the number of pieces sharing a type. */
  datatype Equipment = Equipment(id: string, equipmentType: string, capacity: real)

  datatype RecipeStep = RecipeStep(stepName: string, equipmentType: string, duration: real)

  datatype Product = Product(id: string, name: string, recipe: seq<RecipeStep>, batchSize: real)

  /** `priority`: 1 = low ... 4 = critical; higher is more urgent. */
  datatype Order = Order(id: string, productId: string, quantity: real, dueDate: real, priority: int)

  /** (from_product, to_product) -> setup hours. */
  datatype ChangeoverMatrix = ChangeoverMatrix(matrix: map<(string, string), real>)

  /** Changeover time between two products: 0 for the same product, the stored
      value for a listed pair, 0 for an unlisted pair. */
  function GetTime(m: ChangeoverMatrix, fromProd: string, toProd: string): (r: real)
    ensures fromProd == toProd ==> r == 0.0
    ensures fromProd != toProd && (fromProd, toProd) in m.matrix ==> r == m.matrix[(fromProd, toProd)]
    ensures r != 0.0 ==> fromProd != toProd && (fromProd, toProd) in m.matrix
  {
    if fromProd == toProd then 0.0
    else if (fromProd, toProd) in m.matrix then m.matrix[(fromProd, toProd)]
    else 0.0
  }

  /** Sum of the durations of a sequence of steps (folded from the left, as
      Python's `sum` does). */
  function SumDurations(steps: seq<RecipeStep>): real
  {
    if steps == [] then 0.0 else SumDurations(steps[..|steps| - 1]) + steps[|steps| - 1].duration
  }

  function TotalProcessingTime(p: Product): real
  {
    SumDurations(p.recipe)
  }

  /** The sum over a concatenation is the sum of the parts. */
  lemma {:induction false} SumDurationsAppend(a: seq<RecipeStep>, b: seq<RecipeStep>)
    ensures SumDurations(a + b) == SumDurations(a) + SumDurations(b)
    decreases |b|
  {
    if b == [] {
      assert a + b == a;
    } else {
      assert (a + b)[..|a + b| - 1] == a + b[..|b| - 1];
      SumDurationsAppend(a, b[..|b| - 1]);
    }
  }

  /** Summing from the front gives the same total. */
  lemma SumDurationsCons(s: RecipeStep, rest: seq<RecipeStep>)
    ensures SumDurations([s] + rest) == s.duration + SumDurations(rest)
  {
    SumDurationsAppend([s], rest);
    assert [s][..0] == [];
  }

  /** Extending a prefix by one step adds that step's duration. */
  lemma SumDurationsPrefix(steps: seq<RecipeStep>, k: nat)
    requires k < |steps|
    ensures SumDurations(steps[..k + 1]) == SumDurations(steps[..k]) + steps[k].duration
  {
    assert steps[..k + 1][..k] == steps[..k];
  }

  predicate NonNegativeDurations(steps: seq<RecipeStep>)
  {
    forall k :: 0 <= k < |steps| ==> steps[k].duration >= 0.0
  }

  /** With non-negative step durations the total is non-negative and at least
      every single step's duration. */
  lemma {:induction false} SumDurationsBounds(steps: seq<RecipeStep>)
    requires NonNegativeDurations(steps)
    ensures SumDurations(steps) >= 0.0
    ensures forall k :: 0 <= k < |steps| ==> steps[k].duration <= SumDurations(steps)
  {
    if steps != [] {
      var init := steps[..|steps| - 1];
      assert NonNegativeDurations(init);
      SumDurationsBounds(init);
      forall k | 0 <= k < |steps| ensures steps[k].duration <= SumDurations(steps) {
        if k < |steps| - 1 { assert steps[k] == init[k]; }
      }
    }
  }

  /** Python's `math.ceil` on a rational, written through `.Floor`. */
  function Ceil(x: real): (r: int)
    ensures r as real - 1.0 < x <= r as real
  {
    -((-x).Floor)
  }

  /** `ceil(order.quantity / product.batch_size)`; division by a zero batch
      size raises in the source, so it is excluded. */
  function BatchesNeeded(o: Order, p: Product): (n: int)
    requires p.batchSize != 0.0
    ensures n as real - 1.0 < o.quantity / p.batchSize <= n as real
  {
    Ceil(o.quantity / p.batchSize)
  }

  /** Number of values `range(n)` yields: none for a negative n. */
  function RangeLength(n: int): (r: nat)
    ensures n >= 0 ==> r == n
    ensures n <= 0 ==> r == 0
  {
    if n < 0 then 0 else n
  }

  /** A partial remainder still produces one full batch: for positive
      quantity and batch size the batches cover the quantity and one fewer
      would not. */
  lemma BatchesCoverQuantity(o: Order, p: Product)
    requires p.batchSize > 0.0 && o.quantity > 0.0
    ensures BatchesNeeded(o, p) >= 1
    ensures BatchesNeeded(o, p) as real * p.batchSize >= o.quantity
    ensures (BatchesNeeded(o, p) - 1) as real * p.batchSize < o.quantity
  {
    CoverBounds(o.quantity, p.batchSize, BatchesNeeded(o, p));
  }

  /** The ceiling `n` of `qty / b` batches of size `b` cover `qty`, and
      `n - 1` do not. */
  lemma CoverBounds(qty: real, b: real, n: int)
    requires b > 0.0 && n as real - 1.0 < qty / b <= n as real
    ensures n as real * b >= qty
    ensures (n - 1) as real * b < qty
  {
    var q := qty / b;
    assert q * b == qty;
    ScaleMonotone(q, n as real, b);
    var m := (n - 1) as real;
    assert m == n as real - 1.0 < q;
    ScaleStrict(m, q, b);
    assert m * b < qty;
  }

  /** Scaling by a positive factor keeps `<=`. */
  lemma ScaleMonotone(x: real, y: real, b: real)
    requires b > 0.0 && x <= y
    ensures x * b <= y * b
  {
    assert y * b - x * b == (y - x) * b;
  }

  /** Scaling by a positive factor keeps `<`. */
  lemma ScaleStrict(x: real, y: real, b: real)
    requires b > 0.0 && x < y
    ensures x * b < y * b
  {
    assert y * b - x * b == (y - x) * b;
  }

  /** `next(p for p in products if p.id == id)`: the first match. */
  predicate HasProduct(products: seq<Product>, id: string)
  {
    exists k :: 0 <= k < |products| && products[k].id == id
  }

  function FindProduct(products: seq<Product>, id: string): (p: Product)
    requires HasProduct(products, id)
    ensures p.id == id
    ensures exists k :: 0 <= k < |products| && products[k] == p
                        && forall j :: 0 <= j < k ==> products[j].id != id
  {
    if products[0].id == id then products[0]
    else
      var p := FindProduct(products[1..], id);
      ghost var k :| 0 <= k < |products| - 1 && products[1..][k] == p
                     && forall j :: 0 <= j < k ==> products[1..][j].id != id;
      assert products[k + 1] == p;
      assert forall j :: 0 <= j < k + 1 ==> products[j].id != id by {
        forall j | 0 <= j < k + 1 ensures products[j].id != id {
          if j > 0 { assert products[j] == products[1..][j - 1]; }
        }
      }
      p
  }
  /** Products added after the first one with a given id do not change
      which product `next()` finds for it. */
  lemma FindProductPrefix(products: seq<Product>, more: seq<Product>, id: string)
    requires HasProduct(products, id)
    ensures HasProduct(products + more, id)
    ensures FindProduct(products + more, id) == FindProduct(products, id)
  {
    var all := products + more;
    var k :| 0 <= k < |products| && products[k].id == id;
    assert all[k] == products[k];
    var r1, r2 := FindProduct(all, id), FindProduct(products, id);
    var k1 :| 0 <= k1 < |all| && all[k1] == r1 && forall j :: 0 <= j < k1 ==> all[j].id != id;
    var k2 :| 0 <= k2 < |products| && products[k2] == r2 && forall j :: 0 <= j < k2 ==> products[j].id != id;
    // neither first occurrence can lie before the other
    assert forall j :: 0 <= j < |products| ==> all[j] == products[j];
    assert k1 <= k && k2 <= k1 && k1 <= k2;
  }


  predicate HasOrder(orders: seq<Order>, id: string)
  {
    exists k :: 0 <= k < |orders| && orders[k].id == id
  }

  /** `next(o for o in orders if o.id == id)`: the first match. */
  function FindOrder(orders: seq<Order>, id: string): (o: Order)
    requires HasOrder(orders, id)
    ensures o.id == id
    ensures exists k :: 0 <= k < |orders| && orders[k] == o
                        && forall j :: 0 <= j < k ==> orders[j].id != id
  {
    if orders[0].id == id then orders[0]
    else
      var o := FindOrder(orders[1..], id);
      ghost var k :| 0 <= k < |orders| - 1 && orders[1..][k] == o
                     && forall j :: 0 <= j < k ==> orders[1..][j].id != id;
      assert orders[k + 1] == o;
      assert forall j :: 0 <= j < k + 1 ==> orders[j].id != id by {
        forall j | 0 <= j < k + 1 ensures orders[j].id != id {
          if j > 0 { assert orders[j] == orders[1..][j - 1]; }
        }
      }
      o
  }
}

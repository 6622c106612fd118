/** A resource pool: N identical units of one equipment type behind a
    counting semaphore with a priority wait queue. This is the part of the
    simulation library (`sim.Resource`, `request`, `release`) that the plant
    code relies on, written out: a free unit is granted at once; otherwise the
    requester waits, and each released unit goes to the waiter with the
    smallest priority value, earliest arrival first among equals. */
module Pool {
  import opened Domain

  /** A pending request: the priority value passed to `request` (the plant
      passes `-order.priority`, so smaller is more urgent), the arrival stamp
      and the requesting batch. */
  datatype Waiter = Waiter(priority: int, arrival: nat, who: nat)

  /** `a` is served before `b`. */
  predicate Before(a: Waiter, b: Waiter)
  {
    a.priority < b.priority || (a.priority == b.priority && a.arrival < b.arrival)
  }

  predicate QueueOrdered(q: seq<Waiter>)
  {
    forall i, j :: 0 <= i < j < |q| ==> Before(q[i], q[j])
  }

  predicate Queued(q: seq<Waiter>, who: nat)
  {
    exists k :: 0 <= k < |q| && q[k].who == who
  }

  /** Place `w` behind every waiter that is served before it. */
  function InsertWaiter(q: seq<Waiter>, w: Waiter): (r: seq<Waiter>)
    ensures multiset(r) == multiset(q) + multiset{w}
    ensures |r| == |q| + 1
  {
    if q == [] || Before(w, q[0]) then [w] + q
    else
      assert q == [q[0]] + q[1..];
      [q[0]] + InsertWaiter(q[1..], w)
  }

  /** Where `InsertWaiter` puts the newcomer. */
  function InsertPos(q: seq<Waiter>, w: Waiter): (pos: nat)
    ensures pos <= |q|
  {
    if q == [] || Before(w, q[0]) then 0 else 1 + InsertPos(q[1..], w)
  }

  lemma {:induction false} InsertSplit(q: seq<Waiter>, w: Waiter)
    ensures InsertWaiter(q, w) == q[..InsertPos(q, w)] + [w] + q[InsertPos(q, w)..]
    decreases |q|
  {
    if q != [] && !Before(w, q[0]) {
      var t := q[1..];
      InsertSplit(t, w);
      var pos := InsertPos(t, w);
      assert InsertPos(q, w) == pos + 1;
      assert InsertWaiter(q, w) == [q[0]] + (t[..pos] + [w] + t[pos..]);
      assert q[..pos + 1] == [q[0]] + t[..pos];
      assert q[pos + 1..] == t[pos..];
    }
  }

  /** In an ordered queue whose arrival stamps differ from the newcomer's,
      everything in front of the new waiter is served before it and nothing
      behind it is. */
  lemma {:induction false} InsertPosSeparates(q: seq<Waiter>, w: Waiter)
    requires QueueOrdered(q)
    requires forall k :: 0 <= k < |q| ==> q[k].arrival != w.arrival
    ensures forall k :: 0 <= k < InsertPos(q, w) ==> Before(q[k], w)
    ensures forall k :: InsertPos(q, w) <= k < |q| ==> Before(w, q[k])
    decreases |q|
  {
    if q == [] {
    } else if Before(w, q[0]) {
      forall k | 0 <= k < |q| ensures Before(w, q[k]) {
        if k > 0 { assert Before(q[0], q[k]); }
      }
    } else {
      var tail := q[1..];
      assert QueueOrdered(tail);
      InsertPosSeparates(tail, w);
      assert q[0].arrival != w.arrival;
      forall k | 0 <= k < InsertPos(q, w) ensures Before(q[k], w) {
        if k > 0 { assert q[k] == tail[k - 1]; }
      }
      forall k | InsertPos(q, w) <= k < |q| ensures Before(w, q[k]) {
        assert q[k] == tail[k - 1];
      }
    }
  }

  /** An ordered queue stays ordered when the newcomer's arrival stamp is not
      already in it. */
  lemma InsertKeepsOrder(q: seq<Waiter>, w: Waiter)
    requires QueueOrdered(q)
    requires forall k :: 0 <= k < |q| ==> q[k].arrival != w.arrival
    ensures QueueOrdered(InsertWaiter(q, w))
  {
    InsertSplit(q, w);
    InsertPosSeparates(q, w);
    var p := InsertPos(q, w);
    var r := InsertWaiter(q, w);
    forall i, j | 0 <= i < j < |r| ensures Before(r[i], r[j]) {
      if j < p { assert r[i] == q[i] && r[j] == q[j]; }
      else if j == p { assert r[i] == q[i]; }
      else if i < p { assert r[i] == q[i] && r[j] == q[j - 1]; }
      else if i == p { assert r[j] == q[j - 1]; }
      else { assert r[i] == q[i - 1] && r[j] == q[j - 1]; }
    }
  }

  /** What `sim.Resource` keeps: capacity (the number of pieces of equipment
      of the type), units in use, the wait queue, the current claimers and
      the next arrival stamp. */
  datatype PoolState = PoolState(capacity: nat, inUse: nat, queue: seq<Waiter>, claimers: set<nat>, arrivals: nat)

  /** The pool invariant: units in use never exceed capacity and match the
      claimers; the queue is in service order, holds distinct batches that
      do not already claim a unit, and is empty while a unit is free. */
  predicate PoolOk(p: PoolState)
  {
    && p.inUse <= p.capacity
    && p.inUse == |p.claimers|
    && QueueOrdered(p.queue)
    && (p.queue != [] ==> p.inUse == p.capacity)
    && (forall k :: 0 <= k < |p.queue| ==> p.queue[k].arrival < p.arrivals && p.queue[k].who !in p.claimers)
    && (forall i, j :: 0 <= i < j < |p.queue| ==> p.queue[i].who != p.queue[j].who)
  }

  function EmptyPool(capacity: nat): (p: PoolState)
    ensures PoolOk(p) && p.inUse == 0 && p.queue == []
  {
    PoolState(capacity, 0, [], {}, 0)
  }

  /** Every waiter of `InsertWaiter(q, w)` is `w` or a waiter of `q`. */
  lemma InsertMembers(q: seq<Waiter>, w: Waiter, k: nat)
    requires k < |q| + 1
    ensures InsertWaiter(q, w)[k] == w || exists j :: 0 <= j < |q| && q[j] == InsertWaiter(q, w)[k]
  {
    var r := InsertWaiter(q, w);
    assert r[k] in multiset(r);
    if r[k] != w {
      assert r[k] in multiset(q);
    }
  }

  /** Queueing a batch that is not yet queued keeps the queued batches
      distinct. */
  lemma InsertKeepsDistinct(q: seq<Waiter>, w: Waiter)
    requires forall i, j :: 0 <= i < j < |q| ==> q[i].who != q[j].who
    requires !Queued(q, w.who)
    ensures forall i, j :: 0 <= i < j < |InsertWaiter(q, w)| ==> InsertWaiter(q, w)[i].who != InsertWaiter(q, w)[j].who
  {
    var r := InsertWaiter(q, w);
    InsertSplit(q, w);
    var pos := InsertPos(q, w);
    forall i, j | 0 <= i < j < |r| ensures r[i].who != r[j].who {
      if j < pos { assert r[i] == q[i] && r[j] == q[j]; }
      else if j == pos { assert r[i] == q[i]; }
      else if i < pos { assert r[i] == q[i] && r[j] == q[j - 1]; }
      else if i == pos { assert r[j] == q[j - 1]; }
      else { assert r[i] == q[i - 1] && r[j] == q[j - 1]; }
    }
  }

  /** Queueing a batch that claims nothing, stamped `arrivals`, keeps every
      stamp below `arrivals + 1` and every queued batch out of the claimers. */
  lemma InsertKeepsStamps(q: seq<Waiter>, w: Waiter, claimers: set<nat>, arrivals: nat)
    requires forall k :: 0 <= k < |q| ==> q[k].arrival < arrivals && q[k].who !in claimers
    requires w.arrival == arrivals && w.who !in claimers
    ensures forall k :: 0 <= k < |InsertWaiter(q, w)| ==>
              InsertWaiter(q, w)[k].arrival < arrivals + 1 && InsertWaiter(q, w)[k].who !in claimers
  {
    var r := InsertWaiter(q, w);
    forall k | 0 <= k < |r| ensures r[k].arrival < arrivals + 1 && r[k].who !in claimers {
      InsertMembers(q, w, k);
    }
  }

  /** Queueing a new batch on a full pool keeps the pool invariant. */
  lemma QueueingKeepsPoolOk(p: PoolState, priority: int, who: nat)
    requires PoolOk(p) && p.inUse == p.capacity
    requires who !in p.claimers && !Queued(p.queue, who)
    ensures PoolOk(p.(queue := InsertWaiter(p.queue, Waiter(priority, p.arrivals, who)), arrivals := p.arrivals + 1))
  {
    var w := Waiter(priority, p.arrivals, who);
    var r := p.(queue := InsertWaiter(p.queue, w), arrivals := p.arrivals + 1);
    InsertKeepsOrder(p.queue, w);
    assert QueueOrdered(r.queue);
    InsertKeepsStamps(p.queue, w, p.claimers, p.arrivals);
    assert forall k :: 0 <= k < |r.queue| ==> r.queue[k].arrival < r.arrivals && r.queue[k].who !in r.claimers;
    InsertKeepsDistinct(p.queue, w);
    assert forall i, j :: 0 <= i < j < |r.queue| ==> r.queue[i].who != r.queue[j].who;
  }

  /** `request(pool, priority)` by batch `who`: granted at once exactly when
      a unit is free; otherwise `who` joins the queue in service order. */
  function PoolRequest(p: PoolState, priority: int, who: nat): (r: (PoolState, bool))
    ensures r.1 <==> p.inUse < p.capacity
    ensures r.1 ==> r.0 == p.(inUse := p.inUse + 1, claimers := p.claimers + {who}, arrivals := p.arrivals + 1)
    ensures !r.1 ==> r.0 == p.(queue := InsertWaiter(p.queue, Waiter(priority, p.arrivals, who)), arrivals := p.arrivals + 1)
  {
    if p.inUse < p.capacity then
      (p.(inUse := p.inUse + 1, claimers := p.claimers + {who}, arrivals := p.arrivals + 1), true)
    else
      (p.(queue := InsertWaiter(p.queue, Waiter(priority, p.arrivals, who)), arrivals := p.arrivals + 1), false)
  }

  /** A request by a batch that neither claims nor waits keeps the pool
      invariant: in particular the units in use never exceed the capacity. */
  lemma RequestKeepsPoolOk(p: PoolState, priority: int, who: nat)
    requires PoolOk(p) && who !in p.claimers && !Queued(p.queue, who)
    ensures PoolOk(PoolRequest(p, priority, who).0)
  {
    if p.inUse >= p.capacity {
      QueueingKeepsPoolOk(p, priority, who);
    }
  }

  /** `release(pool)` by claimer `who`: its unit goes to the head of the
      queue, if any, whose batch is returned to be resumed; otherwise the unit
      becomes free. A batch that claims nothing releases nothing. */
  function PoolRelease(p: PoolState, who: nat): (r: (PoolState, Option<nat>))
    ensures who !in p.claimers ==> r == (p, None)
    ensures who in p.claimers && p.queue == [] && p.inUse > 0 ==>
              r == (p.(inUse := p.inUse - 1, claimers := p.claimers - {who}), None)
    ensures who in p.claimers && p.queue != [] ==>
              r == (p.(queue := p.queue[1..], claimers := p.claimers - {who} + {p.queue[0].who}), Some(p.queue[0].who))
  {
    if who !in p.claimers then (p, None)
    else if p.queue == [] then
      (p.(inUse := if p.inUse > 0 then p.inUse - 1 else 0, claimers := p.claimers - {who}), None)
    else
      (p.(queue := p.queue[1..], claimers := p.claimers - {who} + {p.queue[0].who}), Some(p.queue[0].who))
  }

  /** A release keeps the pool invariant, capacity and arrival stamps. */
  lemma ReleaseKeepsPoolOk(p: PoolState, who: nat)
    requires PoolOk(p)
    ensures PoolOk(PoolRelease(p, who).0)
    ensures PoolRelease(p, who).0.capacity == p.capacity
  {
    if who in p.claimers {
      assert |p.claimers - {who}| == |p.claimers| - 1;
      if p.queue != [] {
        var head := p.queue[0];
        var r := PoolRelease(p, who).0;
        assert head.who !in p.claimers;
        forall k | 0 <= k < |r.queue| ensures r.queue[k].who != head.who {
          assert r.queue[k] == p.queue[k + 1];
        }
      }
    }
  }

  /** The unit released goes to the waiter served first: every other waiter
      has a larger priority value, or the same one and a later arrival. */
  lemma ReleaseServesHead(p: PoolState, who: nat)
    requires PoolOk(p) && who in p.claimers && p.queue != []
    ensures PoolRelease(p, who).1 == Some(p.queue[0].who)
    ensures forall k :: 1 <= k < |p.queue| ==>
              p.queue[0].priority < p.queue[k].priority
              || (p.queue[0].priority == p.queue[k].priority && p.queue[0].arrival < p.queue[k].arrival)
  {
    forall k | 1 <= k < |p.queue| ensures Before(p.queue[0], p.queue[k]) { }
  }

  /** Queueing `w` keeps every earlier waiter in the queue, and `w` too. */
  lemma QueueingPlaces(q: seq<Waiter>, w: Waiter, k: nat)
    requires k < |q|
    ensures var r := InsertWaiter(q, w);
            r[InsertPos(q, w)] == w
            && (if k < InsertPos(q, w) then r[k] == q[k] else r[k + 1] == q[k])
  {
    InsertSplit(q, w);
  }

  /** The first of two requests on a full pool queues its batch and leaves
      the pool full, valid and without the second batch. */
  lemma FirstQueued(p: PoolState, x: nat, px: int, y: nat)
    requires PoolOk(p) && p.inUse == p.capacity
    requires x != y && x !in p.claimers && y !in p.claimers && !Queued(p.queue, x) && !Queued(p.queue, y)
    ensures var p1 := PoolRequest(p, px, x).0;
            && PoolOk(p1) && p1.inUse == p1.capacity && y !in p1.claimers && !Queued(p1.queue, y)
            && p1.queue == InsertWaiter(p.queue, Waiter(px, p.arrivals, x)) && p1.arrivals == p.arrivals + 1
  {
    var wx := Waiter(px, p.arrivals, x);
    var p1 := PoolRequest(p, px, x).0;
    RequestKeepsPoolOk(p, px, x);
    forall k | 0 <= k < |p1.queue| ensures p1.queue[k].who != y {
      InsertMembers(p.queue, wx, k);
    }
  }

  /** In an ordered queue of distinct batches, the positions of `wy` and
      `wx` are ordered as the two waiters are served. */
  lemma OrderedPositions(q: seq<Waiter>, bi: nat, bj: nat, wy: Waiter, wx: Waiter)
    requires QueueOrdered(q) && forall i, j :: 0 <= i < j < |q| ==> q[i].who != q[j].who
    requires bi < |q| && bj < |q| && q[bi] == wy && q[bj] == wx && wy.who != wx.who
    ensures forall i, j :: 0 <= i < |q| && 0 <= j < |q| && q[i].who == wy.who && q[j].who == wx.who ==>
              (i < j <==> Before(wy, wx))
  {
    forall i, j | 0 <= i < |q| && 0 <= j < |q| && q[i].who == wy.who && q[j].who == wx.who
      ensures i < j <==> Before(wy, wx)
    {
      DistinctWho(q, i, bi);
      DistinctWho(q, j, bj);
      if bi < bj { assert Before(q[bi], q[bj]); } else { assert Before(q[bj], q[bi]); }
    }
  }

  /** Two batches that both find the pool full are served by priority value,
      and in arrival order when their priorities are equal. */
  lemma QueuedPairOrder(p: PoolState, x: nat, px: int, y: nat, py: int, p1: PoolState, p2: PoolState)
    requires PoolOk(p) && p.inUse == p.capacity
    requires x != y && x !in p.claimers && y !in p.claimers && !Queued(p.queue, x) && !Queued(p.queue, y)
    requires p1 == PoolRequest(p, px, x).0 && p2 == PoolRequest(p1, py, y).0
    ensures forall i, j :: 0 <= i < |p2.queue| && 0 <= j < |p2.queue| && p2.queue[i].who == y && p2.queue[j].who == x ==>
              (i < j <==> py < px)
  {
    var wx := Waiter(px, p.arrivals, x);
    var wy := Waiter(py, p.arrivals + 1, y);
    FirstQueued(p, x, px, y);
    RequestKeepsPoolOk(p1, py, y);
    assert p2.queue == InsertWaiter(p1.queue, wy);
    InsertSplit(p.queue, wx);
    var a := InsertPos(p.queue, wx);
    assert p1.queue[a] == wx;
    QueueingPlaces(p1.queue, wy, a);
    var b := InsertPos(p1.queue, wy);
    var jx := if a < b then a else a + 1;
    assert p2.queue[b] == wy && p2.queue[jx] == wx;
    OrderedPositions(p2.queue, b, jx, wy, wx);
    assert Before(wy, wx) <==> py < px;
  }

  lemma DistinctWho(q: seq<Waiter>, i: nat, j: nat)
    requires forall i, j :: 0 <= i < j < |q| ==> q[i].who != q[j].who
    requires i < |q| && j < |q| && q[i].who == q[j].who
    ensures i == j
  {
  }

  /** The `sim.Resource` object, updated in place by requests and releases. */
  class ResourcePool {
    const name: string
    const capacity: nat
    var inUse: nat
    var queue: seq<Waiter>
    var claimers: set<nat>
    var arrivals: nat

    function State(): PoolState
      reads this
    {
      PoolState(capacity, inUse, queue, claimers, arrivals)
    }

    ghost predicate Valid()
      reads this
    {
      PoolOk(State())
    }

    /** `sim.Resource(name=equip_type, capacity=len(equip_list))` */
    constructor (name: string, capacity: nat)
      ensures this.name == name && State() == EmptyPool(capacity) && Valid()
    {
      this.name := name;
      this.capacity := capacity;
      inUse, queue, claimers, arrivals := 0, [], {}, 0;
    }

    /** `yield self.request((resource, 1, priority))` by a batch that holds
        and awaits nothing from this pool. */
    method Request(priority: int, who: nat) returns (granted: bool)
      requires Valid() && who !in claimers && !Queued(queue, who)
      modifies this
      ensures (State(), granted) == PoolRequest(old(State()), priority, who)
      ensures Valid()
    {
      RequestKeepsPoolOk(State(), priority, who);
      var r := PoolRequest(State(), priority, who);
      inUse, queue, claimers, arrivals := r.0.inUse, r.0.queue, r.0.claimers, r.0.arrivals;
      granted := r.1;
    }

    /** `self.release(resource)` */
    method Release(who: nat) returns (woken: Option<nat>)
      requires Valid()
      modifies this
      ensures (State(), woken) == PoolRelease(old(State()), who)
      ensures Valid()
    {
      ReleaseKeepsPoolOk(State(), who);
      var r := PoolRelease(State(), who);
      inUse, queue, claimers, arrivals := r.0.inUse, r.0.queue, r.0.claimers, r.0.arrivals;
      woken := r.1;
    }
  }
}

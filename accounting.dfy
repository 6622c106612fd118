/** Mutual exclusion on equipment: the claimers of each pool are exactly the
    batches holding a unit of that type (granted, in the changeover hold or
    in a processing hold), and its queue holds exactly the batches waiting
    for it. Hence no more batches occupy a type than it has pieces of
    equipment. */
module Accounting {
  import opened Domain
  import opened Pool
  import opened Machine

  /** The equipment type whose unit process `m` holds, if any. */
  function Holding(w: World, p: Proc, m: nat): Option<string>
    requires m < |w.specs|
  {
    var steps := Recipe(w, m);
    match p.phase
    case Granted(k) => if k < |steps| then Some(steps[k].equipmentType) else None
    case Processing(k) => if k < |steps| then Some(steps[k].equipmentType) else None
    case Changeover => if |steps| > 0 then Some(steps[0].equipmentType) else None
    case _ => None
  }

  /** The equipment type process `m` is queued for, if any. */
  function WaitingOn(w: World, p: Proc, m: nat): Option<string>
    requires m < |w.specs|
  {
    var steps := Recipe(w, m);
    match p.phase
    case Waiting(k) => if k < |steps| then Some(steps[k].equipmentType) else None
    case _ => None
  }

  function Holders(w: World, procs: seq<Proc>, t: string): set<nat>
  {
    set m: nat | m < |procs| && m < |w.specs| && Holding(w, procs[m], m) == Some(t)
  }

  function Waiters(w: World, procs: seq<Proc>, t: string): set<nat>
  {
    set m: nat | m < |procs| && m < |w.specs| && WaitingOn(w, procs[m], m) == Some(t)
  }

  function QueueWhos(q: seq<Waiter>): set<nat>
  {
    if q == [] then {} else {q[0].who} + QueueWhos(q[1..])
  }

  lemma {:induction false} QueueWhosMember(q: seq<Waiter>, v: nat)
    ensures v in QueueWhos(q) <==> exists k :: 0 <= k < |q| && q[k].who == v
    decreases |q|
  {
    if q != [] {
      QueueWhosMember(q[1..], v);
      if v in QueueWhos(q[1..]) {
        var k :| 0 <= k < |q| - 1 && q[1..][k].who == v;
        assert q[k + 1].who == v;
      }
      if exists k :: 0 <= k < |q| && q[k].who == v {
        var k :| 0 <= k < |q| && q[k].who == v;
        if k > 0 { assert q[1..][k - 1].who == v; }
      }
    }
  }

  predicate PoolsOk(s: Sim)
  {
    forall t :: t in s.pools ==> PoolOk(s.pools[t])
  }

  lemma PoolsOkUpdate(s: Sim, r: Sim, t1: string, x: PoolState)
    requires PoolsOk(s) && PoolOk(x) && r.pools == s.pools[t1 := x]
    ensures PoolsOk(r)
  {
  }

  /** The pools account for every process except those in `free`, which
      neither claim nor wait anywhere. */
  predicate AccountsFor(w: World, s: Sim, free: set<nat>)
  {
    forall t :: t in s.pools ==>
      s.pools[t].claimers == Holders(w, s.procs, t) - free
      && QueueWhos(s.pools[t].queue) == Waiters(w, s.procs, t) - free
  }

  predicate Accounted(w: World, s: Sim)
  {
    PoolsOk(s) && AccountsFor(w, s, {})
  }

  lemma HoldersUpdate(w: World, procs: seq<Proc>, m: nat, p: Proc, t: string)
    requires m < |procs| && m < |w.specs|
    ensures Holders(w, procs[m := p], t)
            == if Holding(w, p, m) == Some(t) then Holders(w, procs, t) + {m} else Holders(w, procs, t) - {m}
    ensures Waiters(w, procs[m := p], t)
            == if WaitingOn(w, p, m) == Some(t) then Waiters(w, procs, t) + {m} else Waiters(w, procs, t) - {m}
  {
  }

  lemma {:induction false} QueueWhosInsert(q: seq<Waiter>, x: Waiter)
    ensures QueueWhos(InsertWaiter(q, x)) == QueueWhos(q) + {x.who}
    decreases |q|
  {
    if q != [] && !Before(x, q[0]) {
      QueueWhosInsert(q[1..], x);
      assert InsertWaiter(q, x)[1..] == InsertWaiter(q[1..], x);
    }
  }

  lemma QueueWhosTail(q: seq<Waiter>)
    requires q != [] && forall i, j :: 0 <= i < j < |q| ==> q[i].who != q[j].who
    ensures QueueWhos(q[1..]) == QueueWhos(q) - {q[0].who}
  {
    QueueWhosMember(q[1..], q[0].who);
    forall k | 0 <= k < |q| - 1 ensures q[1..][k].who != q[0].who {
      assert q[1..][k] == q[k + 1];
    }
  }

  /** The pools gain process `i` exactly where its new state holds or waits:
      from accounting for all but `i`, the accounting is complete again. */
  lemma JoinAccounts(w: World, s: Sim, r: Sim, i: nat)
    requires i < |s.procs| && i < |w.specs| && |r.procs| == |s.procs| && r.procs == s.procs[i := r.procs[i]]
    requires AccountsFor(w, s, {i}) && r.pools.Keys == s.pools.Keys
    requires forall t :: t in r.pools ==>
               r.pools[t].claimers == s.pools[t].claimers + (if Holding(w, r.procs[i], i) == Some(t) then {i} else {})
    requires forall t :: t in r.pools ==>
               QueueWhos(r.pools[t].queue) == QueueWhos(s.pools[t].queue) + (if WaitingOn(w, r.procs[i], i) == Some(t) then {i} else {})
    ensures AccountsFor(w, r, {})
  {
    forall t | t in r.pools
      ensures r.pools[t].claimers == Holders(w, r.procs, t)
      ensures QueueWhos(r.pools[t].queue) == Waiters(w, r.procs, t)
    {
      HoldersUpdate(w, s.procs, i, r.procs[i], t);
    }
  }

  /** A process that keeps what it holds and waits for, with the pools
      unchanged, keeps the accounting. */
  lemma KeepAccounts(w: World, s: Sim, r: Sim, i: nat, free: set<nat>)
    requires i < |s.procs| && i < |w.specs| && |r.procs| == |s.procs| && r.procs == s.procs[i := r.procs[i]]
    requires AccountsFor(w, s, free) && r.pools == s.pools
    requires Holding(w, r.procs[i], i) == Holding(w, s.procs[i], i)
    requires WaitingOn(w, r.procs[i], i) == WaitingOn(w, s.procs[i], i)
    ensures AccountsFor(w, r, free)
  {
    forall t | t in r.pools
      ensures r.pools[t].claimers == Holders(w, r.procs, t) - free
      ensures QueueWhos(r.pools[t].queue) == Waiters(w, r.procs, t) - free
    {
      HoldersUpdate(w, s.procs, i, r.procs[i], t);
      if Holding(w, s.procs[i], i) == Some(t) { assert i in Holders(w, s.procs, t); }
      if WaitingOn(w, s.procs[i], i) == Some(t) { assert i in Waiters(w, s.procs, t); }
    }
  }

  /** A process that holds and waits for nothing may be set aside. */
  lemma FreeAccounts(w: World, s: Sim, i: nat)
    requires i < |s.procs| && i < |w.specs| && AccountsFor(w, s, {})
    requires Holding(w, s.procs[i], i).None? && WaitingOn(w, s.procs[i], i).None?
    ensures AccountsFor(w, s, {i})
  {
    forall t | t in s.pools
      ensures Holders(w, s.procs, t) - {i} == Holders(w, s.procs, t)
      ensures Waiters(w, s.procs, t) - {i} == Waiters(w, s.procs, t)
    {
    }
  }

  /** Process `i` gives up its unit of `t1`, which nobody waits for. */
  lemma DropAccounts(w: World, s: Sim, r: Sim, i: nat, t1: string)
    requires i < |s.procs| && i < |w.specs| && AccountsFor(w, s, {})
    requires Holding(w, s.procs[i], i) == Some(t1) && WaitingOn(w, s.procs[i], i).None?
    requires r.procs == s.procs && r.pools.Keys == s.pools.Keys && t1 in s.pools
    requires forall t :: t in r.pools && t != t1 ==> r.pools[t] == s.pools[t]
    requires r.pools[t1].claimers == s.pools[t1].claimers - {i} && r.pools[t1].queue == s.pools[t1].queue
    ensures AccountsFor(w, r, {i})
  {
    forall t | t in r.pools
      ensures r.pools[t].claimers == Holders(w, r.procs, t) - {i}
      ensures QueueWhos(r.pools[t].queue) == Waiters(w, r.procs, t) - {i}
    {
      assert i !in Waiters(w, s.procs, t);
      if t != t1 { assert i !in Holders(w, s.procs, t); }
    }
  }

  /** Process `i` gives up its unit of `t1` to the waiter `j`, which
      becomes its holder. */
  lemma HandOffAccounts(w: World, s: Sim, r: Sim, i: nat, j: nat, t1: string, x: PoolState)
    requires i < |s.procs| && i < |w.specs| && j < |s.procs| && j < |w.specs| && i != j
    requires AccountsFor(w, s, {})
    requires Holding(w, s.procs[i], i) == Some(t1) && WaitingOn(w, s.procs[i], i).None?
    requires WaitingOn(w, s.procs[j], j) == Some(t1)
    requires |r.procs| == |s.procs| && r.procs == s.procs[j := r.procs[j]]
    requires Holding(w, r.procs[j], j) == Some(t1) && WaitingOn(w, r.procs[j], j).None?
    requires t1 in s.pools && r.pools == s.pools[t1 := x]
    requires x.claimers == s.pools[t1].claimers - {i} + {j}
    requires QueueWhos(x.queue) == QueueWhos(s.pools[t1].queue) - {j}
    ensures AccountsFor(w, r, {i})
  {
    UpdateOthers(s.pools, t1, x, r.pools);
    forall t | t in r.pools
      ensures r.pools[t].claimers == Holders(w, r.procs, t) - {i}
      ensures QueueWhos(r.pools[t].queue) == Waiters(w, r.procs, t) - {i}
    {
      HoldersUpdate(w, s.procs, j, r.procs[j], t);
      assert i !in Waiters(w, s.procs, t);
      if t != t1 {
        assert i !in Holders(w, s.procs, t);
        assert j !in Waiters(w, s.procs, t);
      }
    }
  }

  /** `i` leaves the step loop: it held and waited for nothing. */
  lemma RequestDoneAccounts(w: World, s: Sim, i: nat)
    requires i < |s.procs| && i < |w.specs| && AccountsFor(w, s, {i})
    ensures AccountsFor(w, RequestStep(w, s, i, |Recipe(w, i)|), {})
  {
    JoinAccounts(w, s, RequestStep(w, s, i, |Recipe(w, i)|), i);
  }

  /** Process `i`, set aside, joins pool `t1` as a claimer or a waiter. */
  lemma JoinOne(w: World, s: Sim, r: Sim, i: nat, t1: string)
    requires i < |s.procs| && i < |w.specs| && |r.procs| == |s.procs| && r.procs == s.procs[i := r.procs[i]]
    requires AccountsFor(w, s, {i}) && t1 in s.pools && t1 in r.pools && r.pools == s.pools[t1 := r.pools[t1]]
    requires (Holding(w, r.procs[i], i) == Some(t1) && WaitingOn(w, r.procs[i], i).None?) ||
             (WaitingOn(w, r.procs[i], i) == Some(t1) && Holding(w, r.procs[i], i).None?)
    requires r.pools[t1].claimers == s.pools[t1].claimers + (if Holding(w, r.procs[i], i).Some? then {i} else {})
    requires QueueWhos(r.pools[t1].queue) == QueueWhos(s.pools[t1].queue) + (if WaitingOn(w, r.procs[i], i).Some? then {i} else {})
    ensures AccountsFor(w, r, {})
  {
    JoinAccounts(w, s, r, i);
  }

  lemma HoldingInStep(w: World, p: Proc, m: nat, k: nat)
    requires m < |w.specs| && k < |Recipe(w, m)|
    requires p.phase == Processing(k) || (k == 0 && p.phase == Changeover)
    ensures Holding(w, p, m) == Some(Recipe(w, m)[k].equipmentType) && WaitingOn(w, p, m).None?
  {
  }

  /** `i` requests step k's equipment type and gets a unit at once. */
  lemma RequestGrantedAccounts(w: World, s: Sim, i: nat, k: nat)
    requires i < |s.procs| && i < |w.specs| && k < |Recipe(w, i)| && Recipe(w, i)[k].equipmentType in s.pools
    requires AccountsFor(w, s, {i})
    requires PoolRequest(s.pools[Recipe(w, i)[k].equipmentType], -w.specs[i].order.priority, i).1
    ensures AccountsFor(w, RequestStep(w, s, i, k), {})
  {
    var t1 := Recipe(w, i)[k].equipmentType;
    var req := PoolRequest(s.pools[t1], -w.specs[i].order.priority, i);
    var r := RequestStep(w, s, i, k);
    assert |r.procs| == |s.procs| && r.procs == s.procs[i := r.procs[i]] && r.pools == s.pools[t1 := req.0]
           && (r.procs[i].phase == Processing(k) || (k == 0 && r.procs[i].phase == Changeover)) by {
      assert r == Acquired(w, s.(pools := s.pools[t1 := req.0]), i, k);
    }
    HoldingInStep(w, r.procs[i], i, k);
    JoinOne(w, s, r, i, t1);
  }

  /** `i` requests step k's equipment type and is queued. */
  lemma RequestQueuedAccounts(w: World, s: Sim, i: nat, k: nat)
    requires i < |s.procs| && i < |w.specs| && k < |Recipe(w, i)| && Recipe(w, i)[k].equipmentType in s.pools
    requires AccountsFor(w, s, {i})
    requires !PoolRequest(s.pools[Recipe(w, i)[k].equipmentType], -w.specs[i].order.priority, i).1
    ensures AccountsFor(w, RequestStep(w, s, i, k), {})
  {
    var t1 := Recipe(w, i)[k].equipmentType;
    var p := s.pools[t1];
    var req := PoolRequest(p, -w.specs[i].order.priority, i);
    var r := RequestStep(w, s, i, k);
    assert r.pools == s.pools[t1 := req.0];
    QueueWhosInsert(p.queue, Waiter(-w.specs[i].order.priority, p.arrivals, i));
    assert WaitingOn(w, r.procs[i], i) == Some(t1) && Holding(w, r.procs[i], i).None?;
    JoinOne(w, s, r, i, t1);
  }

  /** A process set aside neither claims nor waits in any pool. */
  lemma FreeNotInPool(w: World, s: Sim, i: nat, t: string)
    requires AccountsFor(w, s, {i}) && t in s.pools
    ensures i !in s.pools[t].claimers && !Queued(s.pools[t].queue, i)
  {
    var q := s.pools[t].queue;
    forall j | 0 <= j < |q| ensures q[j].who != i {
      QueueWhosMember(q, q[j].who);
    }
  }

  lemma RequestStepPools(w: World, s: Sim, i: nat, k: nat)
    requires i < |s.procs| && i < |w.specs| && k < |Recipe(w, i)| && Recipe(w, i)[k].equipmentType in s.pools
    ensures var T := Recipe(w, i)[k].equipmentType;
            RequestStep(w, s, i, k).pools == s.pools[T := PoolRequest(s.pools[T], -w.specs[i].order.priority, i).0]
  {
  }

  /** A request by a process that neither claims nor waits keeps every pool
      invariant. */
  lemma RequestStepPoolsOk(w: World, s: Sim, i: nat, k: nat)
    requires i < |s.procs| && i < |w.specs| && k <= |Recipe(w, i)|
    requires k < |Recipe(w, i)| ==> Recipe(w, i)[k].equipmentType in s.pools
    requires k < |Recipe(w, i)| ==> var p := s.pools[Recipe(w, i)[k].equipmentType];
                                    i !in p.claimers && !Queued(p.queue, i)
    requires PoolsOk(s)
    ensures PoolsOk(RequestStep(w, s, i, k))
  {
    if k < |Recipe(w, i)| {
      var t1 := Recipe(w, i)[k].equipmentType;
      var p := s.pools[t1];
      RequestKeepsPoolOk(p, -w.specs[i].order.priority, i);
      RequestStepPools(w, s, i, k);
      PoolsOkUpdate(s, RequestStep(w, s, i, k), t1, PoolRequest(p, -w.specs[i].order.priority, i).0);
    }
  }

  /** `i` requests step k's equipment type: the pool invariant and the
      accounting hold afterwards. */
  lemma RequestStepAccounts(w: World, s: Sim, i: nat, k: nat)
    requires i < |s.procs| && i < |w.specs| && k <= |Recipe(w, i)|
    requires k < |Recipe(w, i)| ==> Recipe(w, i)[k].equipmentType in s.pools
    requires PoolsOk(s) && AccountsFor(w, s, {i})
    ensures Accounted(w, RequestStep(w, s, i, k))
  {
    if k == |Recipe(w, i)| {
      RequestDoneAccounts(w, s, i);
      RequestStepPoolsOk(w, s, i, k);
    } else {
      var t1 := Recipe(w, i)[k].equipmentType;
      FreeNotInPool(w, s, i, t1);
      RequestStepPoolsOk(w, s, i, k);
      if PoolRequest(s.pools[t1], -w.specs[i].order.priority, i).1 {
        RequestGrantedAccounts(w, s, i, k);
      } else {
        RequestQueuedAccounts(w, s, i, k);
      }
    }
  }

  lemma ReleaseStepPoolsOk(w: World, s: Sim, i: nat, k: nat)
    requires Shape(w, s) && i < |s.procs| && k < |Recipe(w, i)| && PoolsOk(s)
    ensures PoolsOk(ReleaseStep(w, s, i, k))
  {
    var t1 := Recipe(w, i)[k].equipmentType;
    ReleaseKeepsPoolOk(s.pools[t1], i);
    PoolsOkUpdate(s, ReleaseStep(w, s, i, k), t1, PoolRelease(s.pools[t1], i).0);
  }

  /** Releasing step k's unit hands it to the head waiter, which becomes
      `Granted`; afterwards the releasing process holds nothing. */
  lemma ReleaseStepAccounts(w: World, s: Sim, i: nat, k: nat)
    requires Shape(w, s) && i < |s.procs| && s.procs[i].phase == Processing(k)
    requires Accounted(w, s)
    ensures var r := ReleaseStep(w, s, i, k);
            PoolsOk(r) && AccountsFor(w, r, {i})
  {
    ReleaseStepPoolsOk(w, s, i, k);
    var t1 := Recipe(w, i)[k].equipmentType;
    assert Holding(w, s.procs[i], i) == Some(t1);
    if s.pools[t1].queue == [] {
      ReleaseDropAccounts(w, s, i, k);
    } else {
      ReleaseHandOffAccounts(w, s, i, k);
    }
  }

  lemma ReleaseDropAccounts(w: World, s: Sim, i: nat, k: nat)
    requires Shape(w, s) && i < |s.procs| && s.procs[i].phase == Processing(k)
    requires AccountsFor(w, s, {}) && s.pools[Recipe(w, i)[k].equipmentType].queue == []
    ensures AccountsFor(w, ReleaseStep(w, s, i, k), {i})
  {
    var t1 := Recipe(w, i)[k].equipmentType;
    var r := ReleaseStep(w, s, i, k);
    assert Holding(w, s.procs[i], i) == Some(t1);
    assert i in Holders(w, s.procs, t1);
    DropAccounts(w, s, r, i, t1);
  }

  lemma ReleaseHandOffAccounts(w: World, s: Sim, i: nat, k: nat)
    requires Shape(w, s) && i < |s.procs| && s.procs[i].phase == Processing(k)
    requires Accounted(w, s) && s.pools[Recipe(w, i)[k].equipmentType].queue != []
    ensures AccountsFor(w, ReleaseStep(w, s, i, k), {i})
  {
    var t1 := Recipe(w, i)[k].equipmentType;
    var p := s.pools[t1];
    var j := p.queue[0].who;
    assert t1 in s.pools && PoolOk(p);
    QueueWhosMember(p.queue, j);
    assert j in Waiters(w, s.procs, t1);
    WaiterFacts(w, s.procs, t1, j);
    assert Holding(w, s.procs[i], i) == Some(t1);
    HolderClaims(w, s, t1, i);
    ReleaseStepHandOff(w, s, i, k, j);
    var r := ReleaseStep(w, s, i, k);
    HandOffRelease(w, s, r, i, k, j, t1);
    assert AccountsFor(w, r, {i});
  }

  /** A process holding a unit of `t` is one of its pool's claimers. */
  lemma HolderClaims(w: World, s: Sim, t: string, i: nat)
    requires AccountsFor(w, s, {}) && t in s.pools
    requires i < |s.procs| && i < |w.specs| && Holding(w, s.procs[i], i) == Some(t)
    ensures i in s.pools[t].claimers
  {
    assert i in Holders(w, s.procs, t);
  }

  /** A member of `Waiters` is a process waiting for that type. */
  lemma WaiterFacts(w: World, procs: seq<Proc>, t: string, j: nat)
    requires j in Waiters(w, procs, t)
    ensures j < |procs| && j < |w.specs| && WaitingOn(w, procs[j], j) == Some(t) && procs[j].phase.Waiting?
  {
  }

  /** A release that wakes a waiting process grants it the unit. */
  lemma ReleaseStepHandOff(w: World, s: Sim, i: nat, k: nat, j: nat)
    requires Shape(w, s) && i < |s.procs| && k < |Recipe(w, i)|
    requires i in s.pools[Recipe(w, i)[k].equipmentType].claimers && s.pools[Recipe(w, i)[k].equipmentType].queue != []
    requires j == s.pools[Recipe(w, i)[k].equipmentType].queue[0].who && j < |s.procs| && s.procs[j].phase.Waiting?
    ensures var r := ReleaseStep(w, s, i, k);
            r.procs == s.procs[j := s.procs[j].(phase := Granted(s.procs[j].phase.step), wake := Some(Wake(s.now, s.nextSeq)))]
  {
  }

  /** A release by a claimer of a pool with waiters hands the unit to the
      head waiter, which leaves the queue. */
  lemma ReleaseHandsOff(p: PoolState, i: nat)
    requires PoolOk(p) && i in p.claimers && p.queue != []
    ensures PoolRelease(p, i).0.claimers == p.claimers - {i} + {p.queue[0].who}
    ensures QueueWhos(PoolRelease(p, i).0.queue) == QueueWhos(p.queue) - {p.queue[0].who}
  {
    QueueWhosTail(p.queue);
  }

  lemma HandOffRelease(w: World, s: Sim, r: Sim, i: nat, k: nat, j: nat, t1: string)
    requires |s.procs| == |w.specs| && i < |s.procs| && k < |Recipe(w, i)| && s.procs[i].phase == Processing(k)
    requires t1 == Recipe(w, i)[k].equipmentType && t1 in s.pools
    requires AccountsFor(w, s, {}) && PoolOk(s.pools[t1]) && i in s.pools[t1].claimers
    requires s.pools[t1].queue != [] && j == s.pools[t1].queue[0].who
    requires j < |s.procs| && WaitingOn(w, s.procs[j], j) == Some(t1)
    requires r.pools == s.pools[t1 := PoolRelease(s.pools[t1], i).0]
    requires r.procs == s.procs[j := s.procs[j].(phase := Granted(s.procs[j].phase.step), wake := Some(Wake(s.now, s.nextSeq)))]
    ensures AccountsFor(w, r, {i})
  {
    ReleaseHandsOff(s.pools[t1], i);
    assert Holding(w, s.procs[i], i) == Some(t1) && WaitingOn(w, s.procs[i], i).None?;
    HeadWaiterGranted(w, s, r, j, t1);
    assert i != j;
    HandOffAccounts(w, s, r, i, j, t1, PoolRelease(s.pools[t1], i).0);
  }

  /** Updating one key of a map leaves the other keys' values alone. */
  lemma UpdateOthers<K, V>(m: map<K, V>, k: K, v: V, r: map<K, V>)
    requires k in m && r == m[k := v]
    ensures r.Keys == m.Keys && r[k] == v
    ensures forall t :: t in r && t != k ==> r[t] == m[t]
  {
  }

  /** The head waiter woken by a release is the one `ReleaseStep` grants. */
  lemma HeadWaiterGranted(w: World, s: Sim, r: Sim, j: nat, t1: string)
    requires j < |s.procs| && j < |w.specs| && WaitingOn(w, s.procs[j], j) == Some(t1)
    requires r.procs == s.procs[j := s.procs[j].(phase := Granted(s.procs[j].phase.step), wake := Some(Wake(s.now, s.nextSeq)))]
    ensures |r.procs| == |s.procs| && r.procs == s.procs[j := r.procs[j]]
    ensures Holding(w, r.procs[j], j) == Some(t1) && WaitingOn(w, r.procs[j], j).None?
  {
  }

  /** Resuming any process keeps the pools consistent with the processes. */
  lemma ResumeAccounts(w: World, s: Sim, i: nat)
    requires Shape(w, s) && i < |s.procs| && Accounted(w, s)
    ensures Accounted(w, Resume(w, s, i))
  {
    match s.procs[i].phase
    case Created => ResumeCreatedAccounts(w, s, i);
    case Delayed => BeginAccounts(w, s, i);
    case Waiting(k) =>
    case Granted(k) => ResumeGranted(w, s, i, k);
    case Changeover => ResumeChangeoverAccounts(w, s, i);
    case Processing(k) => ResumeProcessing(w, s, i, k);
    case Done =>
  }

  lemma ResumeGranted(w: World, s: Sim, i: nat, k: nat)
    requires Shape(w, s) && i < |s.procs| && Accounted(w, s) && s.procs[i].phase == Granted(k)
    ensures Accounted(w, Resume(w, s, i))
  {
    ResumeGrantedAccounts(w, s, i, k);
    assert Resume(w, s, i) == Acquired(w, s, i, k);
  }

  lemma ResumeProcessing(w: World, s: Sim, i: nat, k: nat)
    requires Shape(w, s) && i < |s.procs| && Accounted(w, s) && s.procs[i].phase == Processing(k)
    ensures Accounted(w, Resume(w, s, i))
  {
    ResumeProcessingAccounts(w, s, i, k);
  }

  lemma ResumeCreatedAccounts(w: World, s: Sim, i: nat)
    requires Shape(w, s) && i < |s.procs| && Accounted(w, s) && s.procs[i].phase == Created
    ensures Accounted(w, Resume(w, s, i))
  {
    if w.specs[i].startDelay > 0.0 {
      KeepAccounts(w, s, Resume(w, s, i), i, {});
    } else {
      BeginAccounts(w, s, i);
    }
  }

  lemma ResumeGrantedAccounts(w: World, s: Sim, i: nat, k: nat)
    requires i < |s.procs| && i < |w.specs| && k < |Recipe(w, i)| && s.procs[i].phase == Granted(k)
    requires Accounted(w, s)
    ensures Accounted(w, Acquired(w, s, i, k))
  {
    var r := Acquired(w, s, i, k);
    assert Holding(w, r.procs[i], i) == Holding(w, s.procs[i], i);
    KeepAccounts(w, s, r, i, {});
  }

  lemma ResumeChangeoverAccounts(w: World, s: Sim, i: nat)
    requires Shape(w, s) && i < |s.procs| && Accounted(w, s) && s.procs[i].phase == Changeover
    ensures Accounted(w, Resume(w, s, i))
  {
    var r := Resume(w, s, i);
    ResumeChangeover(w, s, i);
    assert r.procs[i].phase == Processing(0);
    assert Holding(w, r.procs[i], i) == Holding(w, s.procs[i], i);
    assert WaitingOn(w, r.procs[i], i) == None == WaitingOn(w, s.procs[i], i);
    KeepAccounts(w, s, r, i, {});
    assert r.pools == s.pools;
  }

  lemma ResumeProcessingAccounts(w: World, s: Sim, i: nat, k: nat)
    requires Shape(w, s) && i < |s.procs| && Accounted(w, s) && s.procs[i].phase == Processing(k)
    ensures Shape(w, ReleaseStep(w, s, i, k))
    ensures Accounted(w, FinishStep(w, s, i, k))
  {
    ReleaseStepShape(w, s, i, k);
    ReleaseStepAccounts(w, s, i, k);
    RequestStepAccounts(w, ReleaseStep(w, s, i, k), i, k + 1);
  }

  lemma BeginAccounts(w: World, s: Sim, i: nat)
    requires Shape(w, s) && i < |s.procs| && Accounted(w, s)
    requires s.procs[i].phase == Created || s.procs[i].phase == Delayed
    ensures Accounted(w, Begin(w, s, i))
  {
    var p := s.procs[i];
    var s0 := s.(procs := s.procs[i := p.(startTime := Some(s.now), status := StatusProcessing)]);
    FreeAccounts(w, s, i);
    KeepAccounts(w, s, s0, i, {i});
    RequestStepAccounts(w, s0, i, 0);
  }

  /** Consuming a pending resumption and resuming the process keeps the
      accounting. */
  lemma FireAccounts(w: World, s: Sim, i: nat)
    requires Shape(w, s) && i < |s.procs| && s.procs[i].wake.Some? && Accounted(w, s)
    ensures Accounted(w, Fire(w, s, i))
  {
    var p := s.procs[i];
    var s0 := s.(now := p.wake.value.time, procs := s.procs[i := p.(wake := None)]);
    KeepAccounts(w, s, s0, i, {});
    assert Shape(w, s0) by {
      assert forall m :: 0 <= m < |s0.procs| ==> s0.procs[m].phase == s.procs[m].phase;
    }
    ResumeAccounts(w, s0, i);
  }

  /** The batches holding a unit of a type never outnumber the pieces of
      equipment of that type. */
  lemma HoldersWithinCapacity(w: World, s: Sim, t: string)
    requires Accounted(w, s) && t in s.pools
    ensures |Holders(w, s.procs, t)| <= s.pools[t].capacity
  {
  }

  /** The accounting holds at every point of a run, and therefore at its end. */
  lemma {:induction false} RunAccounted(w: World, s: Sim, horizon: real)
    requires Shape(w, s) && Accounted(w, s)
    ensures Accounted(w, Run(w, s, horizon))
    decreases Potential(w, s)
  {
    var e := Earliest(s.procs);
    if e.Some? && s.procs[e.value].wake.value.time <= horizon {
      FireDecreases(w, s, e.value);
      FireAccounts(w, s, e.value);
      RunAccounted(w, Fire(w, s, e.value), horizon);
    }
  }

  /** The capacity of every pool. */
  function Capacities(s: Sim): map<string, nat>
  {
    map t | t in s.pools :: s.pools[t].capacity
  }

  lemma RequestStepCapacities(w: World, s: Sim, i: nat, k: nat)
    requires i < |s.procs| && i < |w.specs| && k <= |Recipe(w, i)|
    requires k < |Recipe(w, i)| ==> Recipe(w, i)[k].equipmentType in s.pools
    ensures Capacities(RequestStep(w, s, i, k)) == Capacities(s)
  {
  }

  lemma ReleaseStepCapacities(w: World, s: Sim, i: nat, k: nat)
    requires Shape(w, s) && i < |s.procs| && k < |Recipe(w, i)|
    ensures Capacities(ReleaseStep(w, s, i, k)) == Capacities(s)
  {
    var T := Recipe(w, i)[k].equipmentType;
    var p := s.pools[T];
    assert PoolRelease(p, i).0.capacity == p.capacity;
  }

  lemma FinishStepCapacities(w: World, s: Sim, i: nat, k: nat)
    requires Shape(w, s) && i < |s.procs| && s.procs[i].phase == Processing(k)
    ensures Capacities(FinishStep(w, s, i, k)) == Capacities(s)
  {
    ReleaseStepShape(w, s, i, k);
    ReleaseStepCapacities(w, s, i, k);
    RequestStepCapacities(w, ReleaseStep(w, s, i, k), i, k + 1);
  }

  lemma BeginCapacities(w: World, s: Sim, i: nat)
    requires Shape(w, s) && i < |s.procs|
    ensures Capacities(Begin(w, s, i)) == Capacities(s)
  {
    var p := s.procs[i];
    RequestStepCapacities(w, s.(procs := s.procs[i := p.(startTime := Some(s.now), status := StatusProcessing)]), i, 0);
  }

  lemma ResumeCapacities(w: World, s: Sim, i: nat)
    requires Shape(w, s) && i < |s.procs|
    ensures Capacities(Resume(w, s, i)) == Capacities(s)
  {
    match s.procs[i].phase
    case Created => if w.specs[i].startDelay <= 0.0 { BeginCapacities(w, s, i); }
    case Delayed => BeginCapacities(w, s, i);
    case Waiting(k) =>
    case Granted(k) =>
    case Changeover =>
    case Processing(k) => FinishStepCapacities(w, s, i, k);
    case Done =>
  }

  /** No pool's capacity changes during a run. */
  lemma {:induction false} RunCapacities(w: World, s: Sim, horizon: real)
    requires Shape(w, s)
    ensures Capacities(Run(w, s, horizon)) == Capacities(s)
    decreases Potential(w, s)
  {
    var e := Earliest(s.procs);
    if e.Some? && s.procs[e.value].wake.value.time <= horizon {
      var i := e.value;
      var p := s.procs[i];
      var s0 := s.(now := p.wake.value.time, procs := s.procs[i := p.(wake := None)]);
      assert Shape(w, s0) by {
        assert forall m :: 0 <= m < |s0.procs| ==> s0.procs[m].phase == s.procs[m].phase;
      }
      ResumeCapacities(w, s0, i);
      FireDecreases(w, s, i);
      RunCapacities(w, Fire(w, s, i), horizon);
    }
  }
}

/** The discrete-event simulation of `simulate_schedule`: every scheduled
    batch is a `BatchProcess` whose `process` generator walks through the
    product's recipe, and the environment resumes the pending process with
    the earliest (time, sequence number) until the horizon.

    A generator suspended at a `yield` is a state of a small machine: the
    `Phase` says which `yield` it is suspended at, and `Resume` runs the code
    between that `yield` and the next one. Each process has at most one
    pending resumption (`wake`), as in the simulation library, whose event
    list holds one scheduled time per component. */
module Machine {
  import opened Domain
  import opened Pool

  /** Where a batch's generator is suspended:
      - `Created`: not yet started (activated at time 0);
      - `Delayed`: in the start-delay hold;
      - `Waiting(k)`: in the request for step k's pool, queued;
      - `Granted(k)`: step k's request was honoured by a release, waiting to
        be resumed;
      - `Changeover`: in the changeover hold of step 0, holding the unit;
      - `Processing(k)`: in step k's processing hold, holding the unit;
      - `Done`: the generator has returned. */
  datatype Phase = Created | Delayed | Waiting(step: nat) | Granted(step: nat) | Changeover | Processing(step: nat) | Done

  /** `batch_status`: "created", "processing", "completed". */
  datatype Status = StatusCreated | StatusProcessing | StatusCompleted

  /** A pending resumption: the simulated time and the event sequence number
      that breaks ties between equal times. */
  datatype Wake = Wake(time: real, serial: nat)

  /** The mutable part of a `BatchProcess`. `setups` counts the changeover
      holds the batch has gone through. */
  datatype Proc = Proc(phase: Phase, wake: Option<Wake>, startTime: Option<real>, endTime: Option<real>,
                       status: Status, setups: nat)

  /** The fixed part of a `BatchProcess`: its product, its order and
      `start_delay`. */
  datatype BatchSpec = BatchSpec(product: Product, order: Order, startDelay: real)

  /** What every process shares: the batch specifications and the changeover
      matrix. */
  datatype World = World(specs: seq<BatchSpec>, matrix: ChangeoverMatrix)

  /** The simulation state: the clock, the next event sequence number, one
      pool per equipment type, the shared changeover tracker (equipment type
      -> last product id) and the processes. */
  datatype Sim = Sim(now: real, nextSeq: nat, pools: map<string, PoolState>, tracker: map<string, string>, procs: seq<Proc>)

  function Recipe(w: World, i: nat): seq<RecipeStep>
    requires i < |w.specs|
  {
    w.specs[i].product.recipe
  }

  /** Step indices stay inside the recipe, and a changeover needs a step 0. */
  predicate PhaseFits(ph: Phase, n: nat)
  {
    match ph
    case Waiting(k) => k < n
    case Granted(k) => k < n
    case Processing(k) => k < n
    case Changeover => n > 0
    case _ => true
  }

  /** The structural invariant: one process per batch, steps in range, and a
      pool for every equipment type any recipe uses. */
  predicate Shape(w: World, s: Sim)
  {
    && |s.procs| == |w.specs|
    && (forall i :: 0 <= i < |s.procs| ==> PhaseFits(s.procs[i].phase, |Recipe(w, i)|))
    && (forall i, k :: 0 <= i < |w.specs| && 0 <= k < |Recipe(w, i)| ==> Recipe(w, i)[k].equipmentType in s.pools)
  }

  /** The hold a batch of product `pid` needs before its first step on an
      equipment type: positive only when the tracker has a non-empty product
      for that type, that product differs from `pid`, and the matrix gives a
      positive time for the pair. */
  function ChangeoverHold(tracker: map<string, string>, equipType: string, pid: string, m: ChangeoverMatrix): (h: real)
    ensures h > 0.0 <==> equipType in tracker && tracker[equipType] != "" && tracker[equipType] != pid
                         && GetTime(m, tracker[equipType], pid) > 0.0
    ensures h > 0.0 ==> h == m.matrix[(tracker[equipType], pid)]
  {
    if equipType in tracker && tracker[equipType] != "" && tracker[equipType] != pid
    then (var t := GetTime(m, tracker[equipType], pid); if t > 0.0 then t else 0.0)
    else 0.0
  }

  /** Suspend process `i` in phase `ph` until time `t`. */
  function Schedule(s: Sim, i: nat, t: real, ph: Phase): (r: Sim)
    requires i < |s.procs|
    ensures |r.procs| == |s.procs| && r.procs == s.procs[i := r.procs[i]] && r.procs[i].phase == ph
    ensures r.procs[i].wake == Some(Wake(t, s.nextSeq)) && r.nextSeq == s.nextSeq + 1
    ensures r.now == s.now && r.pools == s.pools && r.tracker == s.tracker
    ensures var p, q := s.procs[i], r.procs[i];
            q.startTime == p.startTime && q.endTime == p.endTime && q.status == p.status && q.setups == p.setups
  {
    var p := s.procs[i];
    s.(procs := s.procs[i := p.(phase := ph, wake := Some(Wake(t, s.nextSeq)))], nextSeq := s.nextSeq + 1)
  }

  /** `yield self.hold(step.duration)`. */
  function StartStep(w: World, s: Sim, i: nat, k: nat): (r: Sim)
    requires i < |s.procs| && i < |w.specs| && k < |Recipe(w, i)|
    ensures r == Schedule(s, i, s.now + Recipe(w, i)[k].duration, Processing(k))
  {
    Schedule(s, i, s.now + Recipe(w, i)[k].duration, Processing(k))
  }

  /** After step k's unit is acquired: on step 0 only, consult the tracker;
      a positive changeover time is held first, otherwise the tracker is set
      to this product and processing starts. */
  function Acquired(w: World, s: Sim, i: nat, k: nat): (r: Sim)
    requires i < |s.procs| && i < |w.specs| && k < |Recipe(w, i)|
    ensures |r.procs| == |s.procs| && r.procs == s.procs[i := r.procs[i]] && r.pools == s.pools && r.now == s.now
    ensures r.procs[i].phase == Processing(k) || (k == 0 && r.procs[i].phase == Changeover)
    ensures var T, pid := Recipe(w, i)[k].equipmentType, w.specs[i].product.id;
            var hold := ChangeoverHold(s.tracker, T, pid, w.matrix);
            if k == 0 && hold > 0.0 then
              r.procs[i].phase == Changeover && r.procs[i].wake == Some(Wake(s.now + hold, s.nextSeq))
              && r.tracker == s.tracker && r.procs[i].setups == s.procs[i].setups + 1
            else
              r.procs[i].phase == Processing(k) && r.procs[i].wake == Some(Wake(s.now + Recipe(w, i)[k].duration, s.nextSeq))
              && r.tracker == (if k == 0 then s.tracker[T := pid] else s.tracker)
              && r.procs[i].setups == s.procs[i].setups
    ensures var p, q := s.procs[i], r.procs[i];
            q.startTime == p.startTime && q.endTime == p.endTime && q.status == p.status
  {
    var T := Recipe(w, i)[k].equipmentType;
    var pid := w.specs[i].product.id;
    var hold := ChangeoverHold(s.tracker, T, pid, w.matrix);
    if k == 0 && hold > 0.0 then
      var r := Schedule(s, i, s.now + hold, Changeover);
      r.(procs := r.procs[i := r.procs[i].(setups := r.procs[i].setups + 1)])
    else
      StartStep(w, if k == 0 then s.(tracker := s.tracker[T := pid]) else s, i, k)
  }

  /** The top of the step loop at index k: past the last step the batch
      records its end time and completes; otherwise it requests one unit of
      the step's equipment type with priority `-order.priority`. */
  function RequestStep(w: World, s: Sim, i: nat, k: nat): (r: Sim)
    requires i < |s.procs| && i < |w.specs| && k <= |Recipe(w, i)|
    requires k < |Recipe(w, i)| ==> Recipe(w, i)[k].equipmentType in s.pools
    ensures |r.procs| == |s.procs| && r.procs == s.procs[i := r.procs[i]] && r.now == s.now && r.pools.Keys == s.pools.Keys
    ensures k < |Recipe(w, i)| ==>
              r.procs[i].phase in {Waiting(k), Processing(k)} || (k == 0 && r.procs[i].phase == Changeover)
    ensures k < |Recipe(w, i)| ==>
              var T := Recipe(w, i)[k].equipmentType;
              r.pools == s.pools[T := PoolRequest(s.pools[T], -w.specs[i].order.priority, i).0]
    ensures k == |Recipe(w, i)| ==>
              r == s.(procs := s.procs[i := s.procs[i].(phase := Done, endTime := Some(s.now), status := StatusCompleted)])
    ensures k < |Recipe(w, i)| ==>
              var T := Recipe(w, i)[k].equipmentType;
              var req := PoolRequest(s.pools[T], -w.specs[i].order.priority, i);
              var s1 := s.(pools := s.pools[T := req.0]);
              r == if req.1 then Acquired(w, s1, i, k) else s1.(procs := s.procs[i := s.procs[i].(phase := Waiting(k))])
  {
    if k == |Recipe(w, i)| then
      s.(procs := s.procs[i := s.procs[i].(phase := Done, endTime := Some(s.now), status := StatusCompleted)])
    else
      var T := Recipe(w, i)[k].equipmentType;
      var req := PoolRequest(s.pools[T], -w.specs[i].order.priority, i);
      var s1 := s.(pools := s.pools[T := req.0]);
      if req.1 then Acquired(w, s1, i, k) else s1.(procs := s.procs[i := s.procs[i].(phase := Waiting(k))])
  }

  /** After the optional start delay: record the start time, mark the batch
      processing and enter the step loop. */
  function Begin(w: World, s: Sim, i: nat): (r: Sim)
    requires Shape(w, s) && i < |s.procs|
  {
    var p := s.procs[i];
    RequestStep(w, s.(procs := s.procs[i := p.(startTime := Some(s.now), status := StatusProcessing)]), i, 0)
  }

  /** Release step k's unit; a waiter it is handed to becomes `Granted` and
      is resumed at the current time. */
  function ReleaseStep(w: World, s: Sim, i: nat, k: nat): (r: Sim)
    requires Shape(w, s) && i < |s.procs| && k < |Recipe(w, i)|
    ensures var T := Recipe(w, i)[k].equipmentType;
            r.pools == s.pools[T := PoolRelease(s.pools[T], i).0] && r.now == s.now && r.tracker == s.tracker
    ensures var rel := PoolRelease(s.pools[Recipe(w, i)[k].equipmentType], i);
            if rel.1.Some? && rel.1.value < |s.procs| && s.procs[rel.1.value].phase.Waiting? then
              var j := rel.1.value;
              r.procs == s.procs[j := s.procs[j].(phase := Granted(s.procs[j].phase.step), wake := Some(Wake(s.now, s.nextSeq)))]
            else r.procs == s.procs
  {
    var T := Recipe(w, i)[k].equipmentType;
    var rel := PoolRelease(s.pools[T], i);
    var s1 := s.(pools := s.pools[T := rel.0]);
    match rel.1
    case Some(j) =>
      if j < |s1.procs| && s1.procs[j].phase.Waiting? then Schedule(s1, j, s1.now, Granted(s1.procs[j].phase.step))
      else s1
    case None => s1
  }

  /** Run process `i` from the `yield` it is suspended at to the next one. */
  function Resume(w: World, s: Sim, i: nat): (r: Sim)
    requires Shape(w, s) && i < |s.procs|
  {
    var p := s.procs[i];
    match p.phase
    case Created =>
      if w.specs[i].startDelay > 0.0 then Schedule(s, i, s.now + w.specs[i].startDelay, Delayed)
      else Begin(w, s, i)
    case Delayed => Begin(w, s, i)
    case Waiting(k) => s
    case Granted(k) => Acquired(w, s, i, k)
    case Changeover =>
      StartStep(w, s.(tracker := s.tracker[Recipe(w, i)[0].equipmentType := w.specs[i].product.id]), i, 0)
    case Processing(k) => FinishStep(w, s, i, k)
    case Done => s
  }

  /** After `hold(step.duration)`: release step k's unit, then go round the
      step loop for step k + 1. */
  function FinishStep(w: World, s: Sim, i: nat, k: nat): Sim
    requires Shape(w, s) && i < |s.procs| && s.procs[i].phase == Processing(k)
  {
    var s1 := ReleaseStep(w, s, i, k);
    assert Shape(w, s1) by { ReleaseStepShape(w, s, i, k); }
    RequestStep(w, s1, i, k + 1)
  }

  lemma ReleaseStepShape(w: World, s: Sim, i: nat, k: nat)
    requires Shape(w, s) && i < |s.procs| && s.procs[i].phase == Processing(k)
    ensures var r := ReleaseStep(w, s, i, k);
            Shape(w, r) && r.procs[i] == s.procs[i] && r.now == s.now && r.pools.Keys == s.pools.Keys
  {
    var T := Recipe(w, i)[k].equipmentType;
    var rel := PoolRelease(s.pools[T], i);
    var s1 := s.(pools := s.pools[T := rel.0]);
    assert Shape(w, s1);
    if rel.1.Some? && rel.1.value < |s1.procs| && s1.procs[rel.1.value].phase.Waiting? {
      var j := rel.1.value;
      var r := Schedule(s1, j, s1.now, Granted(s1.procs[j].phase.step));
      assert PhaseFits(s1.procs[j].phase, |Recipe(w, j)|);
      forall m | 0 <= m < |r.procs| ensures PhaseFits(r.procs[m].phase, |Recipe(w, m)|) {
        if m != j { assert r.procs[m] == s1.procs[m]; }
      }
    }
  }

  predicate WakeBefore(a: Wake, b: Wake)
  {
    a.time < b.time || (a.time == b.time && a.serial < b.serial)
  }

  /** The process to resume next: a pending one with the smallest (time,
      sequence number), the first such on a tie; none when nothing is
      pending. */
  function Earliest(procs: seq<Proc>): (r: Option<nat>)
    ensures r.None? <==> forall m :: 0 <= m < |procs| ==> procs[m].wake.None?
    ensures r.Some? ==> r.value < |procs| && procs[r.value].wake.Some?
    ensures r.Some? ==> forall m :: 0 <= m < |procs| && procs[m].wake.Some? ==>
                          !WakeBefore(procs[m].wake.value, procs[r.value].wake.value)
  {
    if procs == [] then None
    else
      var init := procs[..|procs| - 1];
      var last := |procs| - 1;
      var e := Earliest(init);
      assert forall m :: 0 <= m < last ==> procs[m] == init[m];
      if procs[last].wake.None? then e
      else if e.None? || WakeBefore(procs[last].wake.value, procs[e.value].wake.value) then Some(last)
      else e
  }

  /** Resume the earliest pending process: the clock moves to its time. */
  function Fire(w: World, s: Sim, i: nat): (r: Sim)
    requires Shape(w, s) && i < |s.procs| && s.procs[i].wake.Some?
  {
    var p := s.procs[i];
    Resume(w, s.(now := p.wake.value.time, procs := s.procs[i := p.(wake := None)]), i)
  }

  /** Resuming a process keeps the structural invariant and the set of pools. */
  lemma ResumeShape(w: World, s: Sim, i: nat)
    requires Shape(w, s) && i < |s.procs|
    ensures Shape(w, Resume(w, s, i)) && Resume(w, s, i).pools.Keys == s.pools.Keys
  {
    var r := Resume(w, s, i);
    if s.procs[i].phase.Processing? {
      var k := s.procs[i].phase.step;
      var s1 := ReleaseStep(w, s, i, k);
      ReleaseStepShape(w, s, i, k);
      RequestStepFits(w, s1, i, k + 1);
      assert r == RequestStep(w, s1, i, k + 1);
      ShapeUpdate(w, s1, r, i);
    } else {
      assert PhaseFits(r.procs[i].phase, |Recipe(w, i)|);
      ShapeUpdate(w, s, r, i);
    }
  }

  /** The step loop leaves only process i changed, its phase in range, and
      the set of equipment types as it was. */
  lemma RequestStepFits(w: World, s: Sim, i: nat, k: nat)
    requires Shape(w, s) && i < |s.procs| && k <= |Recipe(w, i)|
    ensures |RequestStep(w, s, i, k).procs| == |s.procs|
    ensures RequestStep(w, s, i, k).procs == s.procs[i := RequestStep(w, s, i, k).procs[i]]
    ensures RequestStep(w, s, i, k).pools.Keys == s.pools.Keys
    ensures PhaseFits(RequestStep(w, s, i, k).procs[i].phase, |Recipe(w, i)|)
  {
  }

  /** Changing only process i, into a phase in range, keeps the shape. */
  lemma ShapeUpdate(w: World, s: Sim, r: Sim, i: nat)
    requires Shape(w, s) && i < |s.procs| && |r.procs| == |s.procs| && r.procs == s.procs[i := r.procs[i]]
    requires r.pools.Keys == s.pools.Keys && PhaseFits(r.procs[i].phase, |Recipe(w, i)|)
    ensures Shape(w, r)
  {
    forall m | 0 <= m < |r.procs| ensures PhaseFits(r.procs[m].phase, |Recipe(w, m)|) {
      if m != i {
        assert r.procs[m] == s.procs[m];
      }
    }
  }

  // ---------------------------------------------------------------------
  // Termination of the event loop
  // ---------------------------------------------------------------------

  /** An upper bound on the resumptions a process in phase `ph` still needs,
      for a recipe of `n` steps. */
  function PhaseWeight(ph: Phase, n: nat): nat
  {
    match ph
    case Created => 5 * n + 5
    case Delayed => 5 * n + 4
    case Waiting(k) => if k < n then 5 * (n - k) + 3 else 3
    case Granted(k) => if k < n then 5 * (n - k) + 2 else 2
    case Changeover => 5 * n + 1
    case Processing(k) => if k < n then 5 * (n - k) else 0
    case Done => 0
  }

  function Weight(p: Proc, n: nat): nat
  {
    PhaseWeight(p.phase, n) + if p.wake.Some? then 1 else 0
  }

  function SumWeights(w: World, procs: seq<Proc>, m: nat): nat
    requires m <= |procs| && m <= |w.specs|
  {
    if m == 0 then 0 else SumWeights(w, procs, m - 1) + Weight(procs[m - 1], |Recipe(w, m - 1)|)
  }

  function Potential(w: World, s: Sim): nat
    requires |s.procs| == |w.specs|
  {
    SumWeights(w, s.procs, |s.procs|)
  }

  lemma {:induction false} SumWeightsUpdate(w: World, procs: seq<Proc>, i: nat, p: Proc, m: nat)
    requires i < |procs| && m <= |procs| && m <= |w.specs|
    ensures SumWeights(w, procs[i := p], m) as int
            == SumWeights(w, procs, m) as int
               + (if i < m then Weight(p, |Recipe(w, i)|) as int - Weight(procs[i], |Recipe(w, i)|) as int else 0)
  {
    if m > 0 {
      SumWeightsUpdate(w, procs, i, p, m - 1);
    }
  }

  /** Replacing one process by one of no greater weight does not raise the
      potential. */
  lemma PotentialUpdate(w: World, s: Sim, r: Sim, i: nat)
    requires |s.procs| == |w.specs| && i < |s.procs| && |r.procs| == |s.procs| && r.procs == s.procs[i := r.procs[i]]
    ensures Potential(w, r) as int == Potential(w, s) as int
              + Weight(r.procs[i], |Recipe(w, i)|) as int - Weight(s.procs[i], |Recipe(w, i)|) as int
  {
    SumWeightsUpdate(w, s.procs, i, r.procs[i], |s.procs|);
  }

  function StepBound(n: nat, k: nat): nat
  {
    if k < n then 5 * (n - k) + 3 else 0
  }

  lemma RequestStepWeight(w: World, s: Sim, i: nat, k: nat)
    requires i < |s.procs| && i < |w.specs| && k <= |Recipe(w, i)|
    requires k < |Recipe(w, i)| ==> Recipe(w, i)[k].equipmentType in s.pools
    requires s.procs[i].wake.None?
    ensures Weight(RequestStep(w, s, i, k).procs[i], |Recipe(w, i)|) <= StepBound(|Recipe(w, i)|, k)
  {
    var r := RequestStep(w, s, i, k);
    var n := |Recipe(w, i)|;
    if k < n {
      var T := Recipe(w, i)[k].equipmentType;
      var req := PoolRequest(s.pools[T], -w.specs[i].order.priority, i);
      var s1 := s.(pools := s.pools[T := req.0]);
      if req.1 {
        AcquiredWeight(w, s1, i, k);
      } else {
        assert r.procs[i] == s.procs[i].(phase := Waiting(k));
      }
    }
  }

  lemma AcquiredWeight(w: World, s: Sim, i: nat, k: nat)
    requires i < |s.procs| && i < |w.specs| && k < |Recipe(w, i)|
    ensures Weight(Acquired(w, s, i, k).procs[i], |Recipe(w, i)|) <= StepBound(|Recipe(w, i)|, k)
  {
  }

  /** Resuming a process whose pending resumption has been consumed never
      raises the potential. */
  lemma ResumeWeight(w: World, s: Sim, i: nat)
    requires Shape(w, s) && i < |s.procs| && s.procs[i].wake.None?
    ensures Potential(w, Resume(w, s, i)) <= Potential(w, s)
  {
    var r := Resume(w, s, i);
    var n := |Recipe(w, i)|;
    match s.procs[i].phase
    case Created =>
      if w.specs[i].startDelay > 0.0 {
        PotentialUpdate(w, s, r, i);
      } else {
        BeginWeight(w, s, i);
      }
    case Delayed =>
      BeginWeight(w, s, i);
    case Waiting(k) =>
    case Granted(k) =>
      PotentialUpdate(w, s, r, i);
    case Changeover =>
      ResumeChangeover(w, s, i);
      PotentialUpdate(w, s, r, i);
    case Processing(k) =>
      FinishStepWeight(w, s, i, k);
    case Done =>
  }

  /** Resuming after a changeover hold sets the tracker of step 0's type to
      this batch's product (as `Acquired` does when no hold is needed), starts
      processing step 0 for its duration, and touches no other process and no
      pool. */
  lemma ResumeChangeover(w: World, s: Sim, i: nat)
    requires Shape(w, s) && i < |s.procs| && s.procs[i].phase == Changeover
    ensures |Resume(w, s, i).procs| == |s.procs| && Resume(w, s, i).procs == s.procs[i := Resume(w, s, i).procs[i]]
    ensures Resume(w, s, i).pools == s.pools && Resume(w, s, i).now == s.now
    ensures Resume(w, s, i).procs[i] == s.procs[i].(phase := Processing(0), wake := Resume(w, s, i).procs[i].wake)
    ensures Resume(w, s, i).procs[i].wake.Some?
    ensures Resume(w, s, i).procs[i].wake == Some(Wake(s.now + Recipe(w, i)[0].duration, s.nextSeq))
    ensures Resume(w, s, i).tracker == s.tracker[Recipe(w, i)[0].equipmentType := w.specs[i].product.id]
  {
    var s0 := s.(tracker := s.tracker[Recipe(w, i)[0].equipmentType := w.specs[i].product.id]);
    assert Resume(w, s, i) == StartStep(w, s0, i, 0);
  }

  /** Resuming a created batch with a positive start delay holds it for that
      delay and changes nothing else; a created batch without one, or a
      delayed batch once woken, records the current time as its start and
      enters the step loop at step 0. */
  lemma ResumeStart(w: World, s: Sim, i: nat)
    requires Shape(w, s) && i < |s.procs| && (s.procs[i].phase.Created? || s.procs[i].phase.Delayed?)
    ensures var r, p := Resume(w, s, i), s.procs[i];
            if p.phase.Created? && w.specs[i].startDelay > 0.0 then
              r == s.(procs := s.procs[i := p.(phase := Delayed, wake := Some(Wake(s.now + w.specs[i].startDelay, s.nextSeq)))],
                      nextSeq := s.nextSeq + 1)
            else
              r == RequestStep(w, s.(procs := s.procs[i := p.(startTime := Some(s.now), status := StatusProcessing)]), i, 0)
              && r.procs[i].startTime == Some(s.now) && r.now == s.now
  {
    var p := s.procs[i];
    if !(p.phase.Created? && w.specs[i].startDelay > 0.0) {
      var s1 := s.(procs := s.procs[i := p.(startTime := Some(s.now), status := StatusProcessing)]);
      assert Resume(w, s, i) == Begin(w, s, i) == RequestStep(w, s1, i, 0);
    }
  }

  lemma FinishStepWeight(w: World, s: Sim, i: nat, k: nat)
    requires Shape(w, s) && i < |s.procs| && s.procs[i].wake.None? && s.procs[i].phase == Processing(k)
    ensures Potential(w, FinishStep(w, s, i, k)) <= Potential(w, s)
  {
    var s1 := ReleaseStep(w, s, i, k);
    ReleaseStepShape(w, s, i, k);
    ReleaseStepWeight(w, s, i, k);
    RequestStepWeight(w, s1, i, k + 1);
    PotentialUpdate(w, s1, FinishStep(w, s, i, k), i);
  }

  lemma BeginWeight(w: World, s: Sim, i: nat)
    requires Shape(w, s) && i < |s.procs| && s.procs[i].wake.None?
    requires s.procs[i].phase == Created || s.procs[i].phase == Delayed
    ensures Potential(w, Begin(w, s, i)) <= Potential(w, s)
  {
    var p := s.procs[i];
    var s0 := s.(procs := s.procs[i := p.(startTime := Some(s.now), status := StatusProcessing)]);
    PotentialUpdate(w, s, s0, i);
    RequestStepWeight(w, s0, i, 0);
    PotentialUpdate(w, s0, Begin(w, s, i), i);
  }

  lemma ReleaseStepWeight(w: World, s: Sim, i: nat, k: nat)
    requires Shape(w, s) && i < |s.procs| && s.procs[i].phase == Processing(k)
    ensures Potential(w, ReleaseStep(w, s, i, k)) <= Potential(w, s)
  {
    var T := Recipe(w, i)[k].equipmentType;
    var rel := PoolRelease(s.pools[T], i);
    var s1 := s.(pools := s.pools[T := rel.0]);
    if rel.1.Some? && rel.1.value < |s1.procs| && s1.procs[rel.1.value].phase.Waiting? {
      var j := rel.1.value;
      var r := Schedule(s1, j, s1.now, Granted(s1.procs[j].phase.step));
      assert PhaseFits(s1.procs[j].phase, |Recipe(w, j)|);
      PotentialUpdate(w, s1, r, j);
    }
  }

  /** Every resumption strictly lowers the potential. */
  lemma FireDecreases(w: World, s: Sim, i: nat)
    requires Shape(w, s) && i < |s.procs| && s.procs[i].wake.Some?
    ensures Shape(w, Fire(w, s, i)) && Fire(w, s, i).pools.Keys == s.pools.Keys
    ensures Potential(w, Fire(w, s, i)) < Potential(w, s)
  {
    var p := s.procs[i];
    var s0 := s.(now := p.wake.value.time, procs := s.procs[i := p.(wake := None)]);
    PotentialUpdate(w, s, s0, i);
    assert Shape(w, s0) by {
      forall m | 0 <= m < |s0.procs| ensures PhaseFits(s0.procs[m].phase, |Recipe(w, m)|) {
        assert s0.procs[m].phase == s.procs[m].phase;
      }
    }
    ResumeShape(w, s0, i);
    ResumeWeight(w, s0, i);
  }

  /** `env.run(till=horizon)`: resume pending processes in (time, sequence
      number) order while the earliest is due no later than the horizon,
      then move the clock to the horizon. */
  function Run(w: World, s: Sim, horizon: real): (r: Sim)
    requires Shape(w, s)
    ensures Shape(w, r) && r.pools.Keys == s.pools.Keys && r.now == horizon
    ensures forall m :: 0 <= m < |r.procs| && r.procs[m].wake.Some? ==> r.procs[m].wake.value.time > horizon
    decreases Potential(w, s)
  {
    var e := Earliest(s.procs);
    if e.Some? && s.procs[e.value].wake.value.time <= horizon then
      FireDecreases(w, s, e.value);
      Run(w, Fire(w, s, e.value), horizon)
    else
      s.(now := horizon)
  }
}

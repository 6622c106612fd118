/** Per-batch timing and changeover facts that hold throughout a run: the
    clock never passes a pending resumption, a batch starts exactly when its
    start delay has elapsed, each step is held for at least the durations of
    the steps before it, a batch goes through at most one changeover hold,
    and a completed batch ends no earlier than its start plus its product's
    total processing time. */
module Timing {
  import opened Domain
  import opened Pool
  import opened Machine

  /** Recipe steps never take negative time. */
  predicate WorldOk(w: World)
  {
    forall i, k :: 0 <= i < |w.specs| && 0 <= k < |Recipe(w, i)| ==> Recipe(w, i)[k].duration >= 0.0
  }

  /** When `start_time` is recorded: after the start delay if it is
      positive, otherwise at time 0. */
  function StartOf(w: World, i: nat): (st: real)
    requires i < |w.specs|
    ensures st >= 0.0
  {
    if w.specs[i].startDelay > 0.0 then w.specs[i].startDelay else 0.0
  }

  /** A batch inside its step loop. */
  predicate Started(w: World, i: nat, p: Proc)
    requires i < |w.specs|
  {
    p.startTime == Some(StartOf(w, i)) && p.endTime.None? && p.status == StatusProcessing && p.setups <= 1
  }

  /** What each phase of batch `i` implies about its fields at clock `now`. */
  predicate ProcOk(w: World, now: real, i: nat, p: Proc)
    requires i < |w.specs|
  {
    var steps := Recipe(w, i);
    var st := StartOf(w, i);
    match p.phase
    case Created =>
      p.wake.Some? && p.wake.value.time == 0.0
      && p.startTime.None? && p.endTime.None? && p.status == StatusCreated && p.setups == 0
    case Delayed =>
      w.specs[i].startDelay > 0.0 && p.wake.Some? && p.wake.value.time == st
      && p.startTime.None? && p.endTime.None? && p.status == StatusCreated && p.setups == 0
    case Waiting(k) =>
      k < |steps| && p.wake.None? && Started(w, i, p) && (k == 0 ==> p.setups == 0)
      && now - st >= SumDurations(steps[..k])
    case Granted(k) =>
      k < |steps| && p.wake.Some? && Started(w, i, p) && (k == 0 ==> p.setups == 0)
      && p.wake.value.time - st >= SumDurations(steps[..k])
    case Changeover =>
      |steps| > 0 && p.wake.Some? && Started(w, i, p) && p.setups == 1 && p.wake.value.time >= st
    case Processing(k) =>
      k < |steps| && p.wake.Some? && Started(w, i, p)
      && p.wake.value.time - st >= SumDurations(steps[..k + 1])
    case Done =>
      p.wake.None? && p.startTime == Some(st) && p.endTime.Some? && p.status == StatusCompleted
      && p.setups <= 1 && p.endTime.value - st >= TotalProcessingTime(w.specs[i].product)
  }

  /** Every batch satisfies its phase's facts, and no pending resumption
      lies in the past. */
  predicate Timed(w: World, s: Sim)
  {
    && |s.procs| == |w.specs|
    && (forall m :: 0 <= m < |s.procs| ==> ProcOk(w, s.now, m, s.procs[m]))
    && (forall m :: 0 <= m < |s.procs| && s.procs[m].wake.Some? ==> s.procs[m].wake.value.time >= s.now)
  }

  /** `Timed`, except for batch `i`, which is being resumed. */
  predicate OthersOk(w: World, s: Sim, i: nat)
  {
    && |s.procs| == |w.specs|
    && (forall m :: 0 <= m < |s.procs| && m != i ==> ProcOk(w, s.now, m, s.procs[m]))
    && (forall m :: 0 <= m < |s.procs| && m != i && s.procs[m].wake.Some? ==> s.procs[m].wake.value.time >= s.now)
  }

  /** Batch `i` has just had its resumption consumed at the current time. */
  predicate Woken(w: World, s: Sim, i: nat)
  {
    i < |s.procs| == |w.specs| && s.procs[i].wake.None?
    && ProcOk(w, s.now, i, s.procs[i].(wake := Some(Wake(s.now, 0))))
  }

  /** The facts only get easier to meet as the clock advances. */
  lemma ProcOkLater(w: World, a: real, b: real, i: nat, p: Proc)
    requires i < |w.specs| && a <= b && ProcOk(w, a, i, p)
    ensures ProcOk(w, b, i, p)
  {
  }

  lemma Close(w: World, s: Sim, i: nat)
    requires OthersOk(w, s, i) && i < |s.procs| && ProcOk(w, s.now, i, s.procs[i])
    requires s.procs[i].wake.Some? ==> s.procs[i].wake.value.time >= s.now
    ensures Timed(w, s)
  {
  }

  lemma OthersKeep(w: World, s: Sim, r: Sim, i: nat)
    requires OthersOk(w, s, i) && i < |s.procs|
    requires |r.procs| == |s.procs| && r.procs == s.procs[i := r.procs[i]] && r.now == s.now
    ensures OthersOk(w, r, i)
  {
    forall m | 0 <= m < |r.procs| && m != i ensures r.procs[m] == s.procs[m] {
    }
  }

  lemma SumFirst(steps: seq<RecipeStep>)
    requires |steps| > 0
    ensures SumDurations(steps[..0]) == 0.0
    ensures SumDurations(steps[..1]) == steps[0].duration
  {
    assert steps[..0] == [];
    SumDurationsPrefix(steps, 0);
  }

  /** Acquiring step k's unit: a changeover hold (step 0 only) or the step's
      processing hold starts now. */
  lemma AcquiredTimed(w: World, s: Sim, i: nat, k: nat)
    requires WorldOk(w) && OthersOk(w, s, i) && i < |s.procs| && k < |Recipe(w, i)|
    requires s.procs[i].wake.None? && Started(w, i, s.procs[i]) && (k == 0 ==> s.procs[i].setups == 0)
    requires s.now - StartOf(w, i) >= SumDurations(Recipe(w, i)[..k])
    ensures Timed(w, Acquired(w, s, i, k)) && Acquired(w, s, i, k).now == s.now
  {
    var r := Acquired(w, s, i, k);
    var steps := Recipe(w, i);
    OthersKeep(w, s, r, i);
    SumDurationsPrefix(steps, k);
    assert steps[k].duration >= 0.0;
    if k == 0 {
      SumFirst(steps);
    }
    Close(w, r, i);
  }

  /** The top of the step loop at index k, from a batch whose earlier steps
      took at least their total duration. */
  lemma RequestStepTimed(w: World, s: Sim, i: nat, k: nat)
    requires WorldOk(w) && OthersOk(w, s, i) && i < |s.procs| && k <= |Recipe(w, i)|
    requires k < |Recipe(w, i)| ==> Recipe(w, i)[k].equipmentType in s.pools
    requires s.procs[i].wake.None? && Started(w, i, s.procs[i]) && (k == 0 ==> s.procs[i].setups == 0)
    requires s.now - StartOf(w, i) >= SumDurations(Recipe(w, i)[..k])
    ensures Timed(w, RequestStep(w, s, i, k)) && RequestStep(w, s, i, k).now == s.now
  {
    var steps := Recipe(w, i);
    var r := RequestStep(w, s, i, k);
    if k == |steps| {
      assert steps[..k] == steps;
      OthersKeep(w, s, r, i);
      Close(w, r, i);
    } else {
      var T := steps[k].equipmentType;
      var req := PoolRequest(s.pools[T], -w.specs[i].order.priority, i);
      var s1 := s.(pools := s.pools[T := req.0]);
      if req.1 {
        AcquiredTimed(w, s1, i, k);
      } else {
        OthersKeep(w, s, r, i);
        Close(w, r, i);
      }
    }
  }

  /** Recording the start time once the start delay has elapsed and entering
      the step loop. */
  lemma BeginTimed(w: World, s: Sim, i: nat)
    requires Shape(w, s) && WorldOk(w) && OthersOk(w, s, i) && i < |s.procs|
    requires s.procs[i].wake.None? && s.procs[i].setups == 0 && s.procs[i].endTime.None? && s.now == StartOf(w, i)
    ensures Timed(w, Begin(w, s, i)) && Begin(w, s, i).now == s.now
  {
    var p := s.procs[i];
    var s1 := s.(procs := s.procs[i := p.(startTime := Some(s.now), status := StatusProcessing)]);
    OthersKeep(w, s, s1, i);
    assert Recipe(w, i)[..0] == [];
    RequestStepTimed(w, s1, i, 0);
  }

  lemma ResumeCreatedTimed(w: World, s: Sim, i: nat)
    requires Shape(w, s) && WorldOk(w) && OthersOk(w, s, i) && Woken(w, s, i) && s.procs[i].phase == Created
    ensures Timed(w, Resume(w, s, i)) && Resume(w, s, i).now == s.now
  {
    if w.specs[i].startDelay > 0.0 {
      var r := Resume(w, s, i);
      OthersKeep(w, s, r, i);
      Close(w, r, i);
    } else {
      BeginTimed(w, s, i);
    }
  }

  lemma ResumeDelayedTimed(w: World, s: Sim, i: nat)
    requires Shape(w, s) && WorldOk(w) && OthersOk(w, s, i) && Woken(w, s, i) && s.procs[i].phase == Delayed
    ensures Timed(w, Resume(w, s, i)) && Resume(w, s, i).now == s.now
  {
    BeginTimed(w, s, i);
  }

  lemma ResumeGrantedTimed(w: World, s: Sim, i: nat, k: nat)
    requires Shape(w, s) && WorldOk(w) && OthersOk(w, s, i) && Woken(w, s, i) && s.procs[i].phase == Granted(k)
    ensures Timed(w, Resume(w, s, i)) && Resume(w, s, i).now == s.now
  {
    AcquiredTimed(w, s, i, k);
  }

  lemma ResumeChangeoverTimed(w: World, s: Sim, i: nat)
    requires Shape(w, s) && WorldOk(w) && OthersOk(w, s, i) && Woken(w, s, i) && s.procs[i].phase == Changeover
    ensures Timed(w, Resume(w, s, i)) && Resume(w, s, i).now == s.now
  {
    var r := Resume(w, s, i);
    var steps := Recipe(w, i);
    SumFirst(steps);
    assert steps[0].duration >= 0.0;
    OthersKeep(w, s, r, i);
    Close(w, r, i);
  }

  /** Releasing step k's unit: a waiter it is handed to becomes `Granted`
      at the current time, which keeps its facts. */
  lemma ReleaseStepTimed(w: World, s: Sim, i: nat, k: nat)
    requires Shape(w, s) && OthersOk(w, s, i) && i < |s.procs| && s.procs[i].phase == Processing(k)
    ensures var r := ReleaseStep(w, s, i, k);
            OthersOk(w, r, i) && r.procs[i] == s.procs[i] && r.now == s.now
  {
    var r := ReleaseStep(w, s, i, k);
    ReleaseStepShape(w, s, i, k);
    var rel := PoolRelease(s.pools[Recipe(w, i)[k].equipmentType], i);
    if rel.1.Some? && rel.1.value < |s.procs| && s.procs[rel.1.value].phase.Waiting? {
      var j := rel.1.value;
      assert j != i;
      assert ProcOk(w, s.now, j, s.procs[j]);
      forall m | 0 <= m < |r.procs| && m != i && m != j ensures r.procs[m] == s.procs[m] {
      }
    }
  }

  lemma ResumeProcessingTimed(w: World, s: Sim, i: nat, k: nat)
    requires Shape(w, s) && WorldOk(w) && OthersOk(w, s, i) && Woken(w, s, i) && s.procs[i].phase == Processing(k)
    ensures Timed(w, FinishStep(w, s, i, k)) && FinishStep(w, s, i, k).now == s.now
  {
    ReleaseStepTimed(w, s, i, k);
    ReleaseStepShape(w, s, i, k);
    RequestStepTimed(w, ReleaseStep(w, s, i, k), i, k + 1);
  }

  lemma ResumeTimed(w: World, s: Sim, i: nat)
    requires Shape(w, s) && WorldOk(w) && OthersOk(w, s, i) && Woken(w, s, i)
    ensures Timed(w, Resume(w, s, i)) && Resume(w, s, i).now == s.now
  {
    match s.procs[i].phase
    case Created => ResumeCreatedTimed(w, s, i);
    case Delayed => ResumeDelayedTimed(w, s, i);
    case Waiting(k) => assert false;
    case Granted(k) => ResumeGrantedTimed(w, s, i, k);
    case Changeover => ResumeChangeoverTimed(w, s, i);
    case Processing(k) => ResumeProcessingTimed(w, s, i, k);
    case Done => assert false;
  }

  /** Resuming the earliest pending batch moves the clock forward to its
      time and keeps every batch's facts. */
  lemma FireTimed(w: World, s: Sim)
    requires Shape(w, s) && WorldOk(w) && Timed(w, s) && Earliest(s.procs).Some?
    ensures var i := Earliest(s.procs).value;
            Timed(w, Fire(w, s, i)) && Fire(w, s, i).now == s.procs[i].wake.value.time >= s.now
  {
    var i := Earliest(s.procs).value;
    var p := s.procs[i];
    var s0 := s.(now := p.wake.value.time, procs := s.procs[i := p.(wake := None)]);
    WakeReady(w, s, i, s0);
    assert Fire(w, s, i) == Resume(w, s0, i);
    ResumeTimed(w, s0, i);
  }

  /** Taking the earliest resumption off its process and advancing the clock
      to it leaves every other process in order and that process ready to
      resume. */
  lemma WakeReady(w: World, s: Sim, i: nat, s0: Sim)
    requires Shape(w, s) && Timed(w, s) && Earliest(s.procs) == Some(i)
    requires s0 == s.(now := s.procs[i].wake.value.time, procs := s.procs[i := s.procs[i].(wake := None)])
    ensures Shape(w, s0) && OthersOk(w, s0, i) && Woken(w, s0, i) && s0.now >= s.now
  {
    var p := s.procs[i];
    var t := p.wake.value.time;
    forall m | 0 <= m < |s0.procs| && m != i
      ensures ProcOk(w, t, m, s0.procs[m])
      ensures s0.procs[m].wake.Some? ==> s0.procs[m].wake.value.time >= t
    {
      ProcOkLater(w, s.now, t, m, s.procs[m]);
    }
    assert ProcOk(w, t, i, s0.procs[i].(wake := Some(Wake(t, 0)))) by {
      ProcOkLater(w, s.now, t, i, p);
      assert s0.procs[i].(wake := Some(Wake(t, 0))).phase == p.phase;
    }
    assert Shape(w, s0) by {
      assert forall m :: 0 <= m < |s0.procs| ==> s0.procs[m].phase == s.procs[m].phase;
    }
  }

  /** The facts hold at the end of `run(till=horizon)` from any state that
      satisfies them and whose clock has not passed the horizon. */
  lemma {:induction false} RunTimed(w: World, s: Sim, horizon: real)
    requires Shape(w, s) && WorldOk(w) && Timed(w, s) && s.now <= horizon
    ensures Timed(w, Run(w, s, horizon))
    decreases Potential(w, s)
  {
    var e := Earliest(s.procs);
    if e.Some? && s.procs[e.value].wake.value.time <= horizon {
      FireDecreases(w, s, e.value);
      FireTimed(w, s);
      RunTimed(w, Fire(w, s, e.value), horizon);
    } else {
      forall m | 0 <= m < |s.procs| ensures ProcOk(w, horizon, m, s.procs[m]) {
        ProcOkLater(w, s.now, horizon, m, s.procs[m]);
      }
    }
  }

  /** A completed batch started when its start delay elapsed and ended no
      earlier than its start plus its product's total processing time; in
      particular its start is no later than its end. */
  lemma CompletedBatch(w: World, s: Sim, i: nat)
    requires WorldOk(w) && Timed(w, s) && i < |s.procs| && s.procs[i].phase == Done
    ensures s.procs[i].startTime == Some(StartOf(w, i)) && s.procs[i].endTime.Some?
    ensures s.procs[i].endTime.value - s.procs[i].startTime.value >= TotalProcessingTime(w.specs[i].product)
    ensures s.procs[i].startTime.value <= s.procs[i].endTime.value
    ensures s.procs[i].status == StatusCompleted
  {
    assert ProcOk(w, s.now, i, s.procs[i]);
    var steps := Recipe(w, i);
    assert NonNegativeDurations(steps) by {
      forall k | 0 <= k < |steps| ensures steps[k].duration >= 0.0 {
        assert Recipe(w, i)[k].duration >= 0.0;
      }
    }
    SumDurationsBounds(steps);
  }

  /** The end time is recorded exactly when the batch has completed, and a
      batch goes through at most one changeover hold. */
  lemma EndTimeOnlyWhenDone(w: World, s: Sim, i: nat)
    requires Timed(w, s) && i < |s.procs|
    ensures s.procs[i].endTime.Some? <==> s.procs[i].phase == Done
    ensures s.procs[i].setups <= 1
  {
    assert ProcOk(w, s.now, i, s.procs[i]);
  }
}

/** The `useRoundRobin` hook: a Round-Robin engine with a simulated clock,
    finish times and pause handling.

    Pausing happens while the loop waits; in this sequential model the
    values `pausedRef` holds at successive checks are given to `Start` as
    `polls` (after the last one it reads false: the user has resumed).
    Waiting itself (`delay`) takes no simulated time and is a no-op. */
module UseRoundRobin {
  import opened Records
  import opened Schedule

  /** The value `pausedRef` has at the `k`-th check. */
  predicate Paused(polls: seq<bool>, k: nat)
  {
    k < |polls| && polls[k]
  }

  function Sum(s: seq<nat>): nat
  {
    if s == [] then 0 else Sum(s[..|s| - 1]) + s[|s| - 1]
  }

  /** The wait between two slices: poll every 50 ms while paused. Returns
      the number of checks made; every check but the last saw a pause. */
  method AwaitResume(polls: seq<bool>, k0: nat) returns (k: nat)
    ensures k0 < k
    ensures forall j :: k0 <= j < k - 1 ==> Paused(polls, j)
    ensures !Paused(polls, k - 1)
  {
    k := k0;
    while Paused(polls, k)
      invariant k0 <= k
      invariant forall j :: k0 <= j < k ==> Paused(polls, j)
      decreases |polls| - k
    {
      k := k + 1;
    }
    k := k + 1;
  }

  /** The slice's sub-tick loop: advance in steps of at most 20 until
      `runTime` has elapsed, waiting without progress whenever a check sees
      a pause. `steps` are the step delays, `waits` the number of pause
      waits. Elapsed time is exactly `runTime` whatever the pauses; every
      step but the last is a full 20. */
  method AdvanceSlice(runTime: nat, polls: seq<bool>, k0: nat)
    returns (elapsed: nat, steps: seq<nat>, waits: nat, k: nat)
    ensures elapsed == runTime && Sum(steps) == runTime
    ensures forall i :: 0 <= i < |steps| ==> 1 <= steps[i] <= 20
    ensures forall i :: 0 <= i < |steps| - 1 ==> steps[i] == 20
    ensures k == k0 + |steps| + waits
  {
    elapsed, steps, waits, k := 0, [], 0, k0;
    while elapsed < runTime
      invariant elapsed <= runTime && Sum(steps) == elapsed
      invariant forall i :: 0 <= i < |steps| ==> 1 <= steps[i] <= 20
      invariant forall i :: 0 <= i < |steps| - 1 ==> steps[i] == 20
      invariant steps != [] && steps[|steps| - 1] < 20 ==> elapsed == runTime
      invariant k == k0 + |steps| + waits
      decreases runTime - elapsed, |polls| - k
    {
      var paused := Paused(polls, k);
      k := k + 1;
      if paused {
        waits := waits + 1;
        continue;
      }
      var step := Min(20, runTime - elapsed);
      assert (steps + [step])[..|steps|] == steps;
      steps := steps + [step];
      elapsed := elapsed + step;
    }
  }

  /** The hook's state: the React state (`readyQueue`, `execProcess`,
      `doneList`, `isSimulating`, `isPaused`) and the refs (`queueRef`,
      `pausedRef`, `timeRef` as `time`). */
  class RoundRobin {
    var readyQueue: seq<Proc>
    var execProcess: Option<Proc>
    var doneList: seq<Proc>
    var isSimulating: bool
    var isPaused: bool
    var queueRef: seq<Proc>
    var pausedRef: bool
    var time: nat

    /** The loaded batch holds each record object once. */
    ghost predicate Valid()
      reads this
    {
      Unique(queueRef)
    }

    constructor ()
      ensures Valid()
      ensures readyQueue == [] && execProcess == None && doneList == []
      ensures !isSimulating && !isPaused && queueRef == [] && !pausedRef && time == 0
    {
      readyQueue, execProcess, doneList := [], None, [];
      isSimulating, isPaused := false, false;
      queueRef, pausedRef, time := [], false, 0;
    }

    /** What a finished run leaves: the batch it started from is still
        loaded; every record of it is done exactly once, in the order and
        with the values and finish times `Run` computes from the batch's
        values at the start; the clock is `Run`'s clock. */
    ghost predicate Completed(started: seq<Proc>, batch: seq<Rec>, quantum: nat)
      requires quantum >= 1
      reads this, started, doneList
    {
      var outcome := Run(Engine(batch, [], [], 0), quantum);
      && queueRef == started
      && !isSimulating && !pausedRef && !isPaused
      && Unique(doneList) && |doneList| == |started|
      && (forall p | p in started :: p in doneList) && (forall p | p in doneList :: p in started)
      && Snap(doneList) == outcome.done
      && |doneList| == |outcome.finishes|
      && (forall i :: 0 <= i < |doneList| ==> doneList[i].finish == Some(outcome.finishes[i]))
      && time == outcome.clock
    }

    /** Load a batch: it becomes the queue to start from; nothing is
        running or done, the engine is neither simulating nor paused and
        the clock is 0. */
    method Load(procs: seq<Proc>)
      requires Unique(procs)
      modifies this
      ensures Valid()
      ensures queueRef == procs && readyQueue == procs
      ensures doneList == [] && execProcess == None
      ensures !isSimulating && !isPaused && time == 0
      ensures pausedRef == old(pausedRef)
    {
      queueRef := procs;
      readyQueue := procs;
      doneList := [];
      execProcess := None;
      isSimulating := false;
      isPaused := false;
      time := 0;
    }

    /** The first half of one pass of the main loop: wait while paused,
        take the head of the queue into the running slot and publish the
        rest, run its slice, advance the clock by the slice and charge it
        to the record. */
    method RunHead(queue: seq<Proc>, quantum: nat, polls: seq<bool>, k0: nat)
      returns (proc: Proc, rest: seq<Proc>, k: nat)
      requires queue != []
      modifies this`readyQueue, this`execProcess, this`time, queue[0]
      ensures proc == queue[0] && rest == queue[1..]
      ensures proc.Value() == Serve(old(proc.Value()), quantum) && proc.finish == old(proc.finish)
      ensures time == old(time) + Slice(old(proc.Value()), quantum)
      ensures readyQueue == rest && execProcess == Some(proc)
    {
      k := AwaitResume(polls, k0);

      proc := queue[0];
      rest := queue[1..];
      execProcess := Some(proc);
      readyQueue := rest;

      var runTime := if proc.prioridad == 1 then proc.remaining else Min(proc.remaining, quantum);
      var elapsed, steps, waits;
      elapsed, steps, waits, k := AdvanceSlice(runTime, polls, k);

      time := time + runTime;
      proc.executions := proc.executions + 1;
      proc.remaining := proc.remaining - runTime;
    }

    /** The second half of a pass for a preemptible record with time left:
        push it back to the tail of the queue, which is also the published
        ready queue, and empty the running slot. */
    method Requeue(proc: Proc, rest: seq<Proc>) returns (rest': seq<Proc>)
      requires Unique(rest + doneList) && proc !in rest + doneList
      modifies this`readyQueue, this`execProcess
      ensures rest' == rest + [proc] && readyQueue == rest' && execProcess == None
      ensures Snap(rest') == old(Snap(rest)) + [old(proc.Value())]
      ensures Snap(doneList) == old(Snap(doneList))
      ensures Unique(rest' + doneList)
    {
      SnapAppend(rest, proc);
      UniqueInsert(rest, doneList, proc);
      rest' := rest + [proc];
      // the published ready queue is the same array the loop pushes to
      readyQueue := rest';
      execProcess := None;
    }

    /** The second half of a pass for any other record: stamp it with the
        current clock, append it to the done list and empty the running
        slot. */
    method Finish(proc: Proc, rest: seq<Proc>, ghost fin: seq<nat>) returns (ghost fin': seq<nat>)
      requires Unique(rest + doneList) && Unique(doneList) && proc !in rest + doneList
      requires |fin| == |doneList|
      requires forall i :: 0 <= i < |doneList| ==> doneList[i].finish == Some(fin[i])
      modifies this`doneList, this`execProcess, proc
      ensures doneList == old(doneList) + [proc] && fin' == fin + [time] && execProcess == None
      ensures proc.finish == Some(time) && proc.Value() == old(proc.Value())
      ensures Snap(rest) == old(Snap(rest)) && Snap(doneList) == old(Snap(doneList)) + [old(proc.Value())]
      ensures Unique(rest + doneList) && Unique(doneList)
      ensures forall i :: 0 <= i < |doneList| ==> doneList[i].finish == Some(fin'[i])
    {
      proc.finish := Some(time);
      SnapAppend(doneList, proc);
      assert rest + doneList + [] == rest + doneList && doneList + [] == doneList;
      UniqueInsert(rest + doneList, [], proc);
      UniqueInsert(doneList, [], proc);
      assert rest + doneList + [proc] + [] == rest + (doneList + [proc]);
      assert doneList + [proc] + [] == doneList + [proc];
      doneList := doneList + [proc];
      fin' := fin + [time];
      execProcess := None;
    }

    /** One pass of the main loop: run the head's slice, then push it back
        to the tail or finish it at the current clock. On values this is
        exactly `Step`; the queue and the done list together still hold the
        same objects, each once. */
    method ServeHead(queue: seq<Proc>, quantum: nat, polls: seq<bool>, k0: nat, ghost fin: seq<nat>)
      returns (rest: seq<Proc>, k: nat, ghost fin': seq<nat>)
      requires queue != [] && Unique(queue + doneList) && Unique(doneList) && |fin| == |doneList|
      requires forall i :: 0 <= i < |doneList| ==> doneList[i].finish == Some(fin[i])
      modifies this`readyQueue, this`execProcess, this`doneList, this`time, queue[0]
      ensures Engine(Snap(rest), Snap(doneList), fin', time)
           == Step(old(Engine(Snap(queue), Snap(doneList), fin, time)), quantum)
      ensures Unique(rest + doneList) && Unique(doneList) && |fin'| == |doneList|
      ensures forall i :: 0 <= i < |doneList| ==> doneList[i].finish == Some(fin'[i])
      ensures |rest| + |doneList| == |queue| + |old(doneList)|
      ensures forall p | p in rest || p in doneList :: p in queue || p in old(doneList)
      ensures forall p | p in queue || p in old(doneList) :: p in rest || p in doneList
      ensures readyQueue == rest && execProcess == None
    {
      ghost var e := Engine(Snap(queue), Snap(doneList), fin, time);
      ghost var served := Serve(e.ready[0], quantum);
      ghost var clock := e.clock + Slice(e.ready[0], quantum);
      assert queue + doneList == [queue[0]] + (queue[1..] + doneList);
      SnapTail(queue);
      var proc;
      proc, rest, k := RunHead(queue, quantum, polls, k0);
      assert proc !in rest + doneList;
      assert Snap(rest) == e.ready[1..] && Snap(doneList) == e.done;
      assert proc.Value() == served && time == clock;

      if proc.prioridad == 0 && proc.remaining > 0 {
        assert Step(e, quantum) == Engine(e.ready[1..] + [served], e.done, fin, clock);
        rest := Requeue(proc, rest);
        fin' := fin;
      } else {
        assert Step(e, quantum) == Engine(e.ready[1..], e.done + [served], fin + [clock], clock);
        fin' := Finish(proc, rest, fin);
      }
    }

    /** What the main loop leaves gives `Completed`. */
    lemma Completes(started: seq<Proc>, batch: seq<Rec>, fin: seq<nat>, quantum: nat)
      requires quantum >= 1
      requires queueRef == started && !isSimulating && !pausedRef && !isPaused
      requires Unique(doneList) && |doneList| == |started|
      requires forall p | p in started :: p in doneList
      requires forall p | p in doneList :: p in started
      requires |fin| == |doneList|
      requires forall i :: 0 <= i < |doneList| ==> doneList[i].finish == Some(fin[i])
      requires Engine([], Snap(doneList), fin, time) == Run(Engine(batch, [], [], 0), quantum)
      ensures Completed(started, batch, quantum)
    {
    }

    /** The main loop of `start`, over its own copy of the loaded queue:
        serve the head until the queue is empty. On values the loop runs
        `Run` from the batch's values, a zero clock and an empty done list;
        every object of the batch ends up in the done list exactly once. */
    method Drain(batch: seq<Proc>, quantum: nat, polls: seq<bool>) returns (ghost fin: seq<nat>)
      requires quantum >= 1 && Unique(batch) && doneList == [] && time == 0
      modifies this`readyQueue, this`execProcess, this`doneList, this`time, batch
      ensures Unique(doneList) && |doneList| == |batch|
      ensures forall p | p in batch :: p in doneList
      ensures forall p | p in doneList :: p in batch
      ensures |fin| == |doneList|
      ensures forall i :: 0 <= i < |doneList| ==> doneList[i].finish == Some(fin[i])
      ensures Engine([], Snap(doneList), fin, time) == Run(Engine(old(Snap(batch)), [], [], 0), quantum)
      ensures batch != [] ==> readyQueue == [] && execProcess == None
      ensures batch == [] ==> readyQueue == old(readyQueue) && execProcess == old(execProcess)
    {
      var queue := batch;
      ghost var e0 := Engine(Snap(batch), [], [], 0);
      assert Snap(doneList) == [];
      fin := [];
      ghost var iterated := false;
      var k := 0;
      assert queue + doneList == queue;

      while queue != []
        invariant Unique(queue + doneList) && Unique(doneList)
        invariant |queue| + |doneList| == |batch|
        invariant forall p | p in batch :: p in queue || p in doneList
        invariant forall p | p in queue || p in doneList :: p in batch
        invariant |fin| == |doneList|
        invariant forall i :: 0 <= i < |doneList| ==> doneList[i].finish == Some(fin[i])
        invariant Run(Engine(Snap(queue), Snap(doneList), fin, time), quantum) == Run(e0, quantum)
        invariant iterated ==> readyQueue == queue && execProcess == None && batch != []
        invariant !iterated ==> queue == batch && readyQueue == old(readyQueue) && execProcess == old(execProcess)
        decreases Work(Snap(queue)), |queue|
      {
        ghost var e := Engine(Snap(queue), Snap(doneList), fin, time);
        assert queue[0] in batch;
        queue, k, fin := ServeHead(queue, quantum, polls, k, fin);
        RunStep(e, quantum);
        StepProgress(e, quantum);
        iterated := true;
      }
      ghost var last := Engine(Snap(queue), Snap(doneList), fin, time);
      assert Snap(queue) == [] && Run(last, quantum) == last;
    }

    /** `start`: reset the flags and the clock, clear the done list, run
        the main loop over a copy of the loaded queue, then stop
        simulating. */
    method Start(quantum: nat, polls: seq<bool>)
      requires Valid() && quantum >= 1
      modifies this`readyQueue, this`execProcess, this`doneList, this`isSimulating, this`isPaused
      modifies this`pausedRef, this`time, queueRef
      ensures Valid()
      ensures Completed(old(queueRef), old(Snap(queueRef)), quantum)
      ensures old(queueRef) != [] ==> readyQueue == [] && execProcess == None
      ensures old(queueRef) == [] ==> readyQueue == old(readyQueue) && execProcess == old(execProcess)
    {
      ghost var batch := Snap(queueRef);
      isSimulating := true;
      pausedRef := false;
      isPaused := false;
      time := 0;

      var queue := queueRef;
      doneList := [];
      assert Snap(queue) == batch;
      ghost var fin := Drain(queue, quantum, polls);

      isSimulating := false;
      Completes(queue, batch, fin, quantum);
    }

    /** The start/pause button: start when not simulating, otherwise flip
        the pause flag and change nothing else. */
    method Toggle(quantum: nat, polls: seq<bool>)
      requires Valid() && quantum >= 1
      modifies this, queueRef
      ensures Valid()
      ensures !old(isSimulating) ==> Completed(old(queueRef), old(Snap(queueRef)), quantum)
      ensures !old(isSimulating) && old(queueRef) != [] ==> readyQueue == [] && execProcess == None
      ensures !old(isSimulating) && old(queueRef) == [] ==>
                readyQueue == old(readyQueue) && execProcess == old(execProcess)
      ensures old(isSimulating) ==>
                && pausedRef == !old(pausedRef) && isPaused == pausedRef
                && readyQueue == old(readyQueue) && execProcess == old(execProcess)
                && doneList == old(doneList) && isSimulating && queueRef == old(queueRef)
                && time == old(time)
      ensures old(isSimulating) ==> unchanged(old(queueRef))
    {
      if !isSimulating {
        Start(quantum, polls);
      } else {
        pausedRef := !pausedRef;
        isPaused := pausedRef;
      }
    }
  }
}

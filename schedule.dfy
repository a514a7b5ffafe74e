/** The Round-Robin schedule as values: how long a record runs, what the
    slice does to it, where it goes next, and the whole run of a batch.
    Both engine versions (the hook's `start` and the inline `simular`) are
    proved to compute exactly `Run`. */
module Schedule {
  import opened Records

  function Min(a: nat, b: nat): nat
  {
    if a <= b then a else b
  }

  /** Length of the next slice of `r`: all of its remaining time when it is
      non-preemptible (prioridad 1), at most one quantum otherwise. */
  function Slice(r: Rec, quantum: nat): (t: nat)
    ensures t <= r.remaining
    ensures t == r.remaining || t == quantum
    ensures r.prioridad == 1 ==> t == r.remaining
    ensures r.prioridad != 1 ==> t <= quantum
    ensures quantum >= 1 && r.remaining > 0 ==> t >= 1
  {
    if r.prioridad == 1 then r.remaining else Min(r.remaining, quantum)
  }

  /** The record after one slice: one more execution, the slice taken off
      its remaining time. Only `remaining` and `executions` change; a
      prioridad 1 record has no time left afterwards, any other record
      loses one quantum or whatever it had left, and with quantum >= 1 a
      record with time left always loses some. */
  function Serve(r: Rec, quantum: nat): (s: Rec)
    ensures s.pid == r.pid && s.nombre == r.nombre && s.usuario == r.usuario
    ensures s.prioridad == r.prioridad && s.burst == r.burst && s.arrival == r.arrival
    ensures s.executions == r.executions + 1 && s.remaining <= r.remaining
    ensures r.prioridad == 1 ==> s.remaining == 0
    ensures r.prioridad != 1 && r.remaining > quantum ==> s.remaining == r.remaining - quantum
    ensures r.prioridad != 1 && r.remaining <= quantum ==> s.remaining == 0
    ensures quantum >= 1 && r.remaining > 0 ==> s.remaining < r.remaining
  {
    r.(remaining := r.remaining - Slice(r, quantum), executions := r.executions + 1)
  }

  /** After its slice, a record goes back to the tail of the ready queue
      exactly when it is preemptible (prioridad 0) and has time left. */
  predicate Requeued(r: Rec)
  {
    r.prioridad == 0 && r.remaining > 0
  }

  /** Seen from before its slice: a record goes back to the queue exactly
      when it is preemptible and had more than one quantum left. */
  lemma RequeuedAfterServe(r: Rec, quantum: nat)
    ensures Requeued(Serve(r, quantum)) <==> r.prioridad == 0 && r.remaining > quantum
  {
  }

  /** Total remaining time of a sequence of records. */
  function Work(rs: seq<Rec>): nat
  {
    if rs == [] then 0 else rs[0].remaining + Work(rs[1..])
  }

  lemma {:induction false} WorkAppend(a: seq<Rec>, b: seq<Rec>)
    ensures Work(a + b) == Work(a) + Work(b)
  {
    if a == [] {
      assert a + b == b;
    } else {
      assert (a + b)[1..] == a[1..] + b;
      WorkAppend(a[1..], b);
    }
  }

  /** The engine's state between two iterations: the ready queue (FIFO),
      the done list (append-only, completion order), the finish time of each
      done record, and the simulated clock. The running slot is empty
      between iterations. */
  datatype Engine = Engine(ready: seq<Rec>, done: seq<Rec>, finishes: seq<nat>, clock: nat)

  /** One iteration: take the head of the ready queue, run its slice,
      advance the clock by the slice, then requeue it or finish it at the
      new clock. */
  function Step(e: Engine, quantum: nat): Engine
    requires e.ready != []
  {
    var head := e.ready[0];
    var r := Serve(head, quantum);
    var clock := e.clock + Slice(head, quantum);
    if Requeued(r) then
      Engine(e.ready[1..] + [r], e.done, e.finishes, clock)
    else
      Engine(e.ready[1..], e.done + [r], e.finishes + [clock], clock)
  }

  /** Where the served head goes: back to the tail of the ready queue
      exactly when it is preemptible with time left, and then the done list
      and the finish times stay; to the end of the done list exactly
      otherwise, stamped with the new clock. The clock advances by the
      slice either way. */
  lemma StepDisposition(e: Engine, quantum: nat)
    requires e.ready != []
    ensures var r := Serve(e.ready[0], quantum);
            var clock := e.clock + Slice(e.ready[0], quantum);
            && Step(e, quantum).clock == clock
            && (Requeued(r) <==> Step(e, quantum).ready == e.ready[1..] + [r])
            && (Requeued(r) ==> Step(e, quantum).done == e.done
                                && Step(e, quantum).finishes == e.finishes)
            && (!Requeued(r) <==> Step(e, quantum).done == e.done + [r])
            && (!Requeued(r) ==> Step(e, quantum).ready == e.ready[1..]
                                 && Step(e, quantum).finishes == e.finishes + [clock])
  {
  }

  /** What one iteration keeps: the clock advances by exactly the time the
      slice takes off the running record, so clock plus outstanding work is
      unchanged; no record is created or lost; the clock never goes back;
      the done list and the finish times are only appended to, one finish
      time per finished record. */
  lemma StepKeeps(e: Engine, quantum: nat)
    requires e.ready != []
    ensures var next := Step(e, quantum);
      && next.clock + Work(next.ready) + Work(next.done) == e.clock + Work(e.ready) + Work(e.done)
      && |next.ready| + |next.done| == |e.ready| + |e.done|
      && next.clock >= e.clock
      && e.done <= next.done && e.finishes <= next.finishes
      && |next.finishes| - |e.finishes| == |next.done| - |e.done|
  {
    var head := e.ready[0];
    var r := Serve(head, quantum);
    assert e.ready == [head] + e.ready[1..];
    WorkAppend([head], e.ready[1..]);
    WorkAppend(e.ready[1..], [r]);
    WorkAppend(e.done, [r]);
    assert Work([r]) == r.remaining;
    assert Work([head]) == head.remaining;
  }

  /** With a quantum of at least 1 every step makes progress: the ready
      queue's work shrinks, or it stays and the queue gets shorter. */
  lemma StepProgress(e: Engine, quantum: nat)
    requires quantum >= 1 && e.ready != []
    ensures Work(Step(e, quantum).ready) <= Work(e.ready)
    ensures |Step(e, quantum).ready| >= |e.ready| ==> Work(Step(e, quantum).ready) < Work(e.ready)
  {
    var head := e.ready[0];
    var r := Serve(head, quantum);
    assert e.ready == [head] + e.ready[1..];
    WorkAppend([head], e.ready[1..]);
    WorkAppend(e.ready[1..], [r]);
    assert Work([r]) == r.remaining;
    assert Work([head]) == head.remaining;
  }

  /** The whole run: iterate until the ready queue is empty. */
  function Run(e: Engine, quantum: nat): (f: Engine)
    requires quantum >= 1
    ensures f.ready == []
    ensures |f.done| == |e.done| + |e.ready|
    ensures e.done <= f.done && e.finishes <= f.finishes
    ensures |f.finishes| - |e.finishes| == |f.done| - |e.done|
    ensures f.clock >= e.clock
    decreases Work(e.ready), |e.ready|
  {
    if e.ready == [] then e
    else
      StepProgress(e, quantum);
      StepKeeps(e, quantum);
      Run(Step(e, quantum), quantum)
  }

  lemma RunStep(e: Engine, quantum: nat)
    requires quantum >= 1 && e.ready != []
    ensures Run(e, quantum) == Run(Step(e, quantum), quantum)
  {
  }

  /** A record's state once it has had all its slices, as if it ran alone. */
  function Final(r: Rec, quantum: nat): Rec
    requires quantum >= 1
    decreases r.remaining
  {
    var s := Serve(r, quantum);
    if Requeued(s) then Final(s, quantum) else s
  }

  function Finals(rs: seq<Rec>, quantum: nat): seq<Rec>
    requires quantum >= 1
  {
    seq(|rs|, i requires 0 <= i < |rs| => Final(rs[i], quantum))
  }

  lemma MulAtLeast(a: int, q: int)
    requires a >= 1 && q >= 1
    ensures a * q >= q
  {
  }

  /** Euclidean division is determined by quotient and remainder. */
  lemma DivUnique(x: int, q: int, d: int, m: int)
    requires q >= 1 && 0 <= m < q && x == d * q + m
    ensures x / q == d
  {
    var d', m' := x / q, x % q;
    assert x == d' * q + m';
    if d' < d {
      assert (d - d') * q == d * q - d' * q;
      MulAtLeast(d - d', q);
    } else if d < d' {
      assert (d' - d) * q == d' * q - d * q;
      MulAtLeast(d' - d, q);
    }
  }

  /** Where a record ends up: it keeps its identity; a record with
      prioridad 0 or 1 has no time left, any other record keeps what its
      single quantum-bounded slice left. */
  lemma {:induction false} FinalForm(r: Rec, quantum: nat)
    requires quantum >= 1
    ensures Final(r, quantum).(remaining := r.remaining, executions := r.executions) == r
    ensures Final(r, quantum).remaining ==
              if r.prioridad == 0 || r.prioridad == 1 then 0
              else r.remaining - Min(r.remaining, quantum)
    decreases r.remaining
  {
    var s := Serve(r, quantum);
    if Requeued(s) {
      FinalForm(s, quantum);
    }
  }

  /** Ceiling division by the quantum grows by one per extra quantum. */
  lemma CeilStep(n: nat, quantum: nat)
    requires quantum >= 1 && n > quantum
    ensures (n + quantum - 1) / quantum == (n - quantum + quantum - 1) / quantum + 1
  {
    var x := n - quantum - 1;
    DivUnique(x + quantum, quantum, x / quantum + 1, x % quantum);
    DivUnique(x + quantum + quantum, quantum, x / quantum + 2, x % quantum);
  }

  /** How many slices a record takes: a preemptible record with time left
      runs ceil(remaining / quantum) slices, every other record one. */
  lemma {:induction false} FinalExecutions(r: Rec, quantum: nat)
    requires quantum >= 1
    ensures Final(r, quantum).executions ==
              r.executions + if r.prioridad == 0 && r.remaining > 0
                             then (r.remaining + quantum - 1) / quantum else 1
    decreases r.remaining
  {
    var s := Serve(r, quantum);
    if Requeued(s) {
      FinalExecutions(s, quantum);
      CeilStep(r.remaining, quantum);
    } else if r.prioridad == 0 && r.remaining > 0 {
      DivUnique(r.remaining + quantum - 1, quantum, 1, r.remaining - 1);
    }
  }

  /** One step keeps every record: the head moves, in its final form, from
      the ready queue's finals to the done list or stays among them. */
  lemma StepConservesRecords(e: Engine, quantum: nat)
    requires quantum >= 1 && e.ready != []
    ensures multiset(Step(e, quantum).done) + multiset(Finals(Step(e, quantum).ready, quantum))
         == multiset(e.done) + multiset(Finals(e.ready, quantum))
  {
    var next := Step(e, quantum);
    var head, tail := e.ready[0], e.ready[1..];
    var r := Serve(head, quantum);
    assert Finals(e.ready, quantum) == [Final(head, quantum)] + Finals(tail, quantum);
    if Requeued(r) {
      assert Final(head, quantum) == Final(r, quantum);
      assert Finals(next.ready, quantum) == Finals(tail, quantum) + [Final(head, quantum)];
    } else {
      assert Final(head, quantum) == r;
      assert next.done == e.done + [Final(head, quantum)];
      assert Finals(next.ready, quantum) == Finals(tail, quantum);
    }
  }

  /** Conservation: a run moves every ready record to the done list exactly
      once, in its final form, and keeps what was already done. */
  lemma {:induction false} RunConservesRecords(e: Engine, quantum: nat)
    requires quantum >= 1
    ensures multiset(Run(e, quantum).done) == multiset(e.done) + multiset(Finals(e.ready, quantum))
    decreases Work(e.ready), |e.ready|
  {
    if e.ready != [] {
      StepProgress(e, quantum);
      StepConservesRecords(e, quantum);
      RunConservesRecords(Step(e, quantum), quantum);
    } else {
      assert Finals(e.ready, quantum) == [];
    }
  }

  /** The clock advances by exactly the time the run takes off the records:
      clock plus outstanding work is the same before and after. */
  lemma {:induction false} RunWork(e: Engine, quantum: nat)
    requires quantum >= 1
    ensures Run(e, quantum).clock + Work(Run(e, quantum).done) == e.clock + Work(e.ready) + Work(e.done)
    decreases Work(e.ready), |e.ready|
  {
    if e.ready != [] {
      StepProgress(e, quantum);
      StepKeeps(e, quantum);
      RunWork(Step(e, quantum), quantum);
    }
  }

  ghost predicate Sorted(s: seq<nat>)
  {
    forall i, j :: 0 <= i < j < |s| ==> s[i] <= s[j]
  }

  /** Done order is completion order: finish times along the done list never
      decrease, none is later than the final clock, and the last record to
      finish finishes at the final clock. */
  lemma {:induction false} RunFinishOrder(e: Engine, quantum: nat)
    requires quantum >= 1
    requires Sorted(e.finishes) && forall i :: 0 <= i < |e.finishes| ==> e.finishes[i] <= e.clock
    ensures Sorted(Run(e, quantum).finishes)
    ensures forall i :: 0 <= i < |Run(e, quantum).finishes| ==> Run(e, quantum).finishes[i] <= Run(e, quantum).clock
    ensures e.ready != [] ==>
              |Run(e, quantum).finishes| > 0 &&
              Run(e, quantum).finishes[|Run(e, quantum).finishes| - 1] == Run(e, quantum).clock
    decreases Work(e.ready), |e.ready|
  {
    if e.ready != [] {
      StepProgress(e, quantum);
      var next := Step(e, quantum);
      StepKeeps(e, quantum);
      RunFinishOrder(next, quantum);
      if next.ready == [] {
        assert !Requeued(Serve(e.ready[0], quantum));
      }
    }
  }

  /** At the end of a run every record with prioridad 0 or 1 has no time
      left; a record with any other prioridad is done after one slice and
      keeps what that slice left. */
  lemma RunOutcome(rs: seq<Rec>, quantum: nat)
    requires quantum >= 1
    ensures forall r | r in Run(Engine(rs, [], [], 0), quantum).done ::
              exists i :: 0 <= i < |rs| && r == Final(rs[i], quantum)
    ensures forall r | r in Run(Engine(rs, [], [], 0), quantum).done ::
              r.prioridad == 0 || r.prioridad == 1 ==> r.remaining == 0
  {
    var e := Engine(rs, [], [], 0);
    RunConservesRecords(e, quantum);
    forall r | r in Run(e, quantum).done
      ensures exists i :: 0 <= i < |rs| && r == Final(rs[i], quantum)
      ensures r.prioridad == 0 || r.prioridad == 1 ==> r.remaining == 0
    {
      assert r in multiset(Run(e, quantum).done);
      assert r in Finals(rs, quantum);
      var i :| 0 <= i < |rs| && r == Final(rs[i], quantum);
      FinalForm(rs[i], quantum);
    }
  }

  lemma {:induction false} WorkOfFinished(rs: seq<Rec>)
    requires forall r | r in rs :: r.remaining == 0
    ensures Work(rs) == 0
  {
    if rs != [] {
      WorkOfFinished(rs[1..]);
    }
  }

  /** When every record is preemptible or non-preemptible (prioridad 0 or
      1), the final clock is the batch's total remaining time: the sum of all
      slice lengths is the work there was to do. */
  lemma RunClockIsTotalWork(rs: seq<Rec>, quantum: nat)
    requires quantum >= 1
    requires forall i :: 0 <= i < |rs| ==> rs[i].prioridad == 0 || rs[i].prioridad == 1
    ensures Run(Engine(rs, [], [], 0), quantum).clock == Work(rs)
  {
    var e := Engine(rs, [], [], 0);
    RunWork(e, quantum);
    RunOutcome(rs, quantum);
    forall r | r in Run(e, quantum).done
      ensures r.remaining == 0
    {
      var i :| 0 <= i < |rs| && r == Final(rs[i], quantum);
      FinalForm(rs[i], quantum);
    }
    WorkOfFinished(Run(e, quantum).done);
  }
}

/** The `App` component: the database-backed loader that turns process rows
    into records, the state clears that follow a new file or a new catalog
    listing, and the component's own inline Round-Robin loop `simular`
    (no clock, no finish times, no pause). */
module AppComponent {
  import opened Records
  import opened Schedule

  /** One row of the catalog listing: (catalog_id, nombre_catalogo). */
  datatype Catalog = Catalog(id: int, nombre: string)

  /** The row a record was built from. */
  function RowOf(r: Rec): Row
  {
    Row(r.pid, r.nombre, r.usuario, r.prioridad)
  }

  /** The record `loadProcesos` builds from the row at position `idx`: its
      burst, and its remaining time, is the quantum times the length of
      its name; it has not run yet and arrives at its position. */
  function MakeRecord(row: Row, idx: nat, quantum: nat): (rec: Rec)
    ensures RowOf(rec) == row
    ensures rec.burst == quantum * |row.nombre| && rec.remaining == rec.burst
    ensures rec.executions == 0 && rec.arrival == idx
  {
    Rec(row.pid, row.nombre, row.usuario, row.prioridad,
        quantum * |row.nombre|, idx, quantum * |row.nombre|, 0)
  }

  /** The records of a batch of rows, in row order. */
  function Build(rows: seq<Row>, quantum: nat): (rs: seq<Rec>)
    ensures |rs| == |rows|
  {
    seq(|rows|, i requires 0 <= i < |rows| => MakeRecord(rows[i], i, quantum))
  }

  /** Total length of the names of a batch of rows. */
  function NameLength(rows: seq<Row>): nat
  {
    if rows == [] then 0 else |rows[0].nombre| + NameLength(rows[1..])
  }

  /** Building loses nothing of a row: every record gives back the row it
      was built from. Each record arrives at its own position, has not run,
      has a burst of the quantum times the length of its name, and still has
      its whole burst left. */
  lemma BuildRoundTrip(rows: seq<Row>, quantum: nat)
    ensures forall i :: 0 <= i < |rows| ==>
              && RowOf(Build(rows, quantum)[i]) == rows[i]
              && Build(rows, quantum)[i].arrival == i
              && Build(rows, quantum)[i].executions == 0
              && Build(rows, quantum)[i].remaining == Build(rows, quantum)[i].burst
              && Build(rows, quantum)[i].burst == quantum * |rows[i].nombre|
  {
  }

  lemma {:induction false} WorkOfNames(rs: seq<Rec>, rows: seq<Row>, quantum: nat)
    requires |rs| == |rows|
    requires forall i :: 0 <= i < |rs| ==> rs[i].remaining == quantum * |rows[i].nombre|
    ensures Work(rs) == quantum * NameLength(rows)
  {
    if rs != [] {
      WorkOfNames(rs[1..], rows[1..], quantum);
      assert quantum * NameLength(rows)
          == quantum * |rows[0].nombre| + quantum * NameLength(rows[1..]);
    }
  }

  /** The work a loaded batch holds is the quantum times the total length
      of the names. */
  lemma BuildWork(rows: seq<Row>, quantum: nat)
    ensures Work(Build(rows, quantum)) == quantum * NameLength(rows)
  {
    WorkOfNames(Build(rows, quantum), rows, quantum);
  }

  /** A non-preemptible record named "abc" with a quantum of 20: a burst
      of 60 run in a single slice, one execution, finished at 60. */
  lemma ScenarioRunToCompletion(pid: int, usuario: string)
    ensures Run(Engine(Build([Row(pid, "abc", usuario, 1)], 20), [], [], 0), 20)
         == Engine([], [Rec(pid, "abc", usuario, 1, 60, 0, 0, 1)], [60], 60)
  {
    var e0 := Engine([Rec(pid, "abc", usuario, 1, 60, 0, 60, 0)], [], [], 0);
    assert Build([Row(pid, "abc", usuario, 1)], 20) == e0.ready;
    assert Step(e0, 20) == Engine([], [Rec(pid, "abc", usuario, 1, 60, 0, 0, 1)], [60], 60);
    RunStep(e0, 20);
  }

  /** A preemptible record named "abc" with a quantum of 20: a burst of 60
      run in three slices of 20, three executions, finished at 60. */
  lemma ScenarioPreemptible(pid: int, usuario: string)
    ensures Run(Engine(Build([Row(pid, "abc", usuario, 0)], 20), [], [], 0), 20)
         == Engine([], [Rec(pid, "abc", usuario, 0, 60, 0, 0, 3)], [60], 60)
  {
    var a := Rec(pid, "abc", usuario, 0, 60, 0, 60, 0);
    var e0 := Engine([a], [], [], 0);
    var e1 := Engine([a.(remaining := 40, executions := 1)], [], [], 20);
    var e2 := Engine([a.(remaining := 20, executions := 2)], [], [], 40);
    var e3 := Engine([], [a.(remaining := 0, executions := 3)], [60], 60);
    assert Build([Row(pid, "abc", usuario, 0)], 20) == e0.ready;
    assert Step(e0, 20) == e1;
    assert Step(e1, 20) == e2;
    assert Step(e2, 20) == e3;
    RunStep(e0, 20);
    RunStep(e1, 20);
    RunStep(e2, 20);
  }

  /** Two preemptible records, "a" (burst 20) and "bc" (burst 40), with a
      quantum of 20: the first finishes after one slice at 20, the second
      after two slices at 60. */
  lemma ScenarioTwoPreemptible(pa: int, ua: string, pb: int, ub: string)
    ensures Run(Engine(Build([Row(pa, "a", ua, 0), Row(pb, "bc", ub, 0)], 20), [], [], 0), 20)
         == Engine([], [Rec(pa, "a", ua, 0, 20, 0, 0, 1), Rec(pb, "bc", ub, 0, 40, 1, 0, 2)],
                   [20, 60], 60)
  {
    var a := Rec(pa, "a", ua, 0, 20, 0, 20, 0);
    var b := Rec(pb, "bc", ub, 0, 40, 1, 40, 0);
    var e0 := Engine([a, b], [], [], 0);
    var done := [a.(remaining := 0, executions := 1)];
    var e1 := Engine([b], done, [20], 20);
    var e2 := Engine([b.(remaining := 20, executions := 1)], done, [20], 40);
    var e3 := Engine([], done + [b.(remaining := 0, executions := 2)], [20, 60], 60);
    assert Build([Row(pa, "a", ua, 0), Row(pb, "bc", ub, 0)], 20) == e0.ready;
    assert Step(e0, 20) == e1;
    assert Step(e1, 20) == e2;
    assert Step(e2, 20) == e3;
    RunStep(e0, 20);
    RunStep(e1, 20);
    RunStep(e2, 20);
  }

  /** Two rows loaded with a quantum of 20: "abc" (prioridad 0, burst 60)
      and "ab" (prioridad 1, burst 40). The first runs 20 and goes back; the
      second runs its whole 40 and finishes at 60; the first then runs
      twice more and finishes at 100 after 3 executions. Records finish in
      another order than they arrived. */
  lemma TwoRowsExample()
    ensures Run(Engine(Build([Row(1, "abc", "ana", 0), Row(2, "ab", "luis", 1)], 20), [], [], 0), 20)
         == Engine([], [Rec(2, "ab", "luis", 1, 40, 1, 0, 1), Rec(1, "abc", "ana", 0, 60, 0, 0, 3)],
                   [60, 100], 100)
  {
    var a := Rec(1, "abc", "ana", 0, 60, 0, 60, 0);
    var b := Rec(2, "ab", "luis", 1, 40, 1, 40, 0);
    var e0 := Engine([a, b], [], [], 0);
    assert Build([Row(1, "abc", "ana", 0), Row(2, "ab", "luis", 1)], 20) == [a, b];
    var e1 := Engine([b, a.(remaining := 40, executions := 1)], [], [], 20);
    var e2 := Engine([a.(remaining := 40, executions := 1)], [b.(remaining := 0, executions := 1)], [60], 60);
    var e3 := Engine([a.(remaining := 20, executions := 2)], e2.done, [60], 80);
    var e4 := Engine([], e2.done + [a.(remaining := 0, executions := 3)], [60, 100], 100);
    assert Step(e0, 20) == e1;
    assert Step(e1, 20) == e2;
    assert Step(e2, 20) == e3;
    assert Step(e3, 20) == e4;
    RunStep(e0, 20);
    RunStep(e1, 20);
    RunStep(e2, 20);
    RunStep(e3, 20);
  }

  /** The component's state: the loaded `SQL` library and database (only
      whether they are there), the table (`tipo`), the quantum, the catalog
      listing and the three process lists. */
  class App {
    var sqlReady: bool
    var hasDb: bool
    var tipo: string
    var quantum: nat
    var catalogos: seq<Catalog>
    var readyQueue: seq<Proc>
    var execProcess: Option<Proc>
    var doneList: seq<Proc>

    /** The process lists hold each record object once. */
    ghost predicate Valid()
      reads this
    {
      Unique(readyQueue) && Unique(doneList)
    }

    constructor ()
      ensures Valid()
      ensures !sqlReady && !hasDb && tipo == "cpu" && quantum == 200 && catalogos == []
      ensures readyQueue == [] && execProcess == None && doneList == []
    {
      sqlReady, hasDb := false, false;
      tipo, quantum := "cpu", 200;
      catalogos := [];
      readyQueue, execProcess, doneList := [], None, [];
    }

    /** The library-loading effect: on success `SQL` is set, on failure the
        error is only logged. */
    method InitSql(loaded: bool)
      modifies this`sqlReady
      ensures sqlReady == (old(sqlReady) || loaded)
    {
      if loaded {
        sqlReady := true;
      }
    }

    /** A new database file: ignored until the library is loaded; otherwise
        the database is replaced and the listing and every process list are
        emptied. */
    method OnFileChange()
      modifies this`hasDb, this`catalogos, this`readyQueue, this`execProcess, this`doneList
      ensures old(Valid()) ==> Valid()
      ensures !sqlReady ==> hasDb == old(hasDb) && catalogos == old(catalogos)
                            && readyQueue == old(readyQueue) && execProcess == old(execProcess)
                            && doneList == old(doneList)
      ensures sqlReady ==> hasDb && catalogos == [] && readyQueue == [] && execProcess == None
                           && doneList == [] && Valid()
    {
      if !sqlReady {
        return;
      }
      hasDb := true;
      catalogos := [];
      readyQueue := [];
      execProcess := None;
      doneList := [];
    }

    /** The listing effect, run whenever the database or the table changes:
        without a database nothing happens; otherwise the listing becomes
        the query's result (given as `listing`) and every process list is
        emptied. */
    method ListCatalogos(listing: seq<Catalog>)
      modifies this`catalogos, this`readyQueue, this`execProcess, this`doneList
      ensures !hasDb ==> catalogos == old(catalogos) && readyQueue == old(readyQueue)
                         && execProcess == old(execProcess) && doneList == old(doneList)
      ensures hasDb ==> catalogos == listing && readyQueue == [] && execProcess == None
                        && doneList == []
      ensures old(Valid()) ==> Valid()
    {
      if !hasDb {
        return;
      }
      catalogos := listing;
      readyQueue := [];
      execProcess := None;
      doneList := [];
    }

    /** The table selector. */
    method SetTipo(t: string)
      modifies this`tipo
      ensures tipo == t
    {
      tipo := t;
    }

    /** The quantum input. */
    method SetQuantum(q: nat)
      modifies this`quantum
      ensures quantum == q
    {
      quantum := q;
    }

    /** `loadProcesos`: without a database nothing happens; otherwise the
        rows the query returns (given as `rows`) become fresh record
        objects, in row order, built by `Build` with the current quantum;
        they are the ready queue, and nothing runs or is done. */
    method LoadProcesos(rows: seq<Row>)
      requires Valid()
      modifies this`readyQueue, this`execProcess, this`doneList
      ensures Valid()
      ensures !hasDb ==> readyQueue == old(readyQueue) && execProcess == old(execProcess)
                         && doneList == old(doneList)
      ensures hasDb ==> Snap(readyQueue) == Build(rows, quantum) && execProcess == None
                        && doneList == []
      ensures hasDb ==> forall p | p in readyQueue :: fresh(p) && p.finish == None
    {
      if !hasDb {
        return;
      }
      var procs: seq<Proc> := [];
      for idx := 0 to |rows|
        invariant |procs| == idx
        invariant Snap(procs) == Build(rows, quantum)[..idx]
        invariant Unique(procs)
        invariant forall p | p in procs :: fresh(p) && p.finish == None
      {
        var p := new Proc(MakeRecord(rows[idx], idx, quantum));
        assert procs + [] == procs && procs + [p] + [] == procs + [p];
        UniqueInsert(procs, [], p);
        SnapAppend(procs, p);
        assert Build(rows, quantum)[..idx + 1] == Build(rows, quantum)[..idx] + [p.Value()];
        procs := procs + [p];
      }
      readyQueue := procs;
      execProcess := None;
      doneList := [];
    }

    /** The first half of one pass of `simular`: take the head, publish a
        copy of the rest, put the head in the running slot and charge it
        one slice. */
    method TakeNext(queue: seq<Proc>) returns (proc: Proc, rest: seq<Proc>)
      requires queue != []
      modifies this`readyQueue, this`execProcess, {queue[0]}`remaining, {queue[0]}`executions
      ensures proc == queue[0] && rest == queue[1..]
      ensures proc.Value() == Serve(old(proc.Value()), quantum) && proc.finish == old(proc.finish)
      ensures readyQueue == rest && execProcess == Some(proc)
    {
      proc := queue[0];
      rest := queue[1..];
      readyQueue := rest;
      execProcess := Some(proc);
      var runTime := if proc.prioridad == 1 then proc.remaining else Min(proc.remaining, quantum);
      proc.executions := proc.executions + 1;
      proc.remaining := proc.remaining - runTime;
    }

    /** The second half of a pass for any record that does not go back to
        the queue: append it to the done list and empty the running slot. */
    method Retire(proc: Proc, rest: seq<Proc>)
      requires Unique(rest + doneList) && Unique(doneList) && proc !in rest + doneList
      modifies this`doneList, this`execProcess
      ensures doneList == old(doneList) + [proc] && execProcess == None
      ensures Snap(doneList) == old(Snap(doneList)) + [proc.Value()]
      ensures Unique(rest + doneList) && Unique(doneList)
    {
      SnapAppend(doneList, proc);
      assert rest + doneList + [] == rest + doneList && doneList + [] == doneList;
      UniqueInsert(rest + doneList, [], proc);
      UniqueInsert(doneList, [], proc);
      assert rest + doneList + [proc] + [] == rest + (doneList + [proc]);
      assert doneList + [proc] + [] == doneList + [proc];
      doneList := doneList + [proc];
      execProcess := None;
    }

    /** One pass of `simular`: run the head's slice, then push it back to
        the tail of the local queue (the published copy does not change) or
        retire it. On values this is `Step`; the clock and the finish times
        are ghost, since the component keeps neither. */
    method ServeNext(queue: seq<Proc>, ghost clock: nat, ghost fin: seq<nat>)
      returns (rest: seq<Proc>, ghost clock': nat, ghost fin': seq<nat>)
      requires queue != [] && Unique(queue + doneList) && Unique(doneList)
      modifies this`readyQueue, this`execProcess, this`doneList, {queue[0]}`remaining, {queue[0]}`executions
      ensures Engine(Snap(rest), Snap(doneList), fin', clock')
           == Step(old(Engine(Snap(queue), Snap(doneList), fin, clock)), quantum)
      ensures Unique(rest + doneList) && Unique(doneList)
      ensures |rest| + |doneList| == |queue| + |old(doneList)|
      ensures forall p | p in rest || p in doneList :: p in queue || p in old(doneList)
      ensures forall p | p in queue || p in old(doneList) :: p in rest || p in doneList
      ensures readyQueue == queue[1..] && execProcess == None
      ensures rest == readyQueue || rest == readyQueue + [queue[0]]
    {
      ghost var e := Engine(Snap(queue), Snap(doneList), fin, clock);
      ghost var served := Serve(e.ready[0], quantum);
      clock' := clock + Slice(e.ready[0], quantum);
      assert queue + doneList == [queue[0]] + (queue[1..] + doneList);
      SnapTail(queue);
      var proc;
      proc, rest := TakeNext(queue);
      assert proc !in rest + doneList;
      assert proc.Value() == served;
      assert Snap(rest) == e.ready[1..] && Snap(doneList) == e.done;

      if proc.prioridad == 0 && proc.remaining > 0 {
        assert Step(e, quantum) == Engine(e.ready[1..] + [served], e.done, fin, clock');
        SnapAppend(rest, proc);
        UniqueInsert(rest, doneList, proc);
        rest := rest + [proc];
        execProcess := None;
        fin' := fin;
      } else {
        assert Step(e, quantum) == Engine(e.ready[1..], e.done + [served], fin + [clock'], clock');
        Retire(proc, rest);
        fin' := fin + [clock'];
      }
    }

    /** The loop of `simular`, over its own copy of the ready queue: serve
        the head until the queue is empty. On values the loop runs `Run`
        from the batch's values; every object of the batch ends up in the
        done list exactly once, and no finish time changes. */
    method Drain(batch: seq<Proc>)
      requires quantum >= 1 && Unique(batch)
      requires readyQueue == batch && execProcess == None && doneList == []
      modifies this`readyQueue, this`execProcess, this`doneList
      modifies (set p | p in batch)`remaining, (set p | p in batch)`executions
      ensures readyQueue == [] && execProcess == None
      ensures Unique(doneList) && |doneList| == |batch|
      ensures forall p | p in batch :: p in doneList
      ensures forall p | p in doneList :: p in batch
      ensures Snap(doneList) == Run(Engine(old(Snap(batch)), [], [], 0), quantum).done
      ensures forall p | p in batch :: p.finish == old(p.finish)
    {
      var queue := batch;
      ghost var e0 := Engine(Snap(batch), [], [], 0);
      assert Snap(doneList) == [];
      assert queue + doneList == queue;
      ghost var clock: nat, fin: seq<nat> := 0, [];

      while queue != []
        invariant Unique(queue + doneList) && Unique(doneList)
        invariant |queue| + |doneList| == |batch|
        invariant forall p | p in batch :: p in queue || p in doneList
        invariant forall p | p in queue || p in doneList :: p in batch
        invariant Run(Engine(Snap(queue), Snap(doneList), fin, clock), quantum) == Run(e0, quantum)
        invariant queue == [] ==> readyQueue == []
        invariant execProcess == None
        decreases Work(Snap(queue)), |queue|
      {
        ghost var e := Engine(Snap(queue), Snap(doneList), fin, clock);
        assert queue[0] in batch;
        queue, clock, fin := ServeNext(queue, clock, fin);
        RunStep(e, quantum);
        StepProgress(e, quantum);
      }
      ghost var last := Engine(Snap(queue), Snap(doneList), fin, clock);
      assert Snap(queue) == [] && Run(last, quantum) == last;
    }

    /** `simular`: empty the done list and the running slot, then run a copy
        of the ready queue to the end. The done list ends up holding every
        record object of the queue exactly once, in the order and with the
        values `Run` computes from the queue's values; no finish time
        changes (this version keeps none); the ready queue and the running
        slot end up empty. */
    method Simular()
      requires Valid() && quantum >= 1
      modifies this`readyQueue, this`execProcess, this`doneList
      modifies (set p | p in readyQueue)`remaining, (set p | p in readyQueue)`executions
      ensures Valid() && readyQueue == [] && execProcess == None
      ensures |doneList| == |old(readyQueue)|
      ensures forall p | p in old(readyQueue) :: p in doneList
      ensures forall p | p in doneList :: p in old(readyQueue)
      ensures Snap(doneList) == Run(Engine(old(Snap(readyQueue)), [], [], 0), quantum).done
      ensures forall p | p in doneList :: p.finish == old(p.finish)
    {
      var queue := readyQueue;
      doneList := [];
      execProcess := None;
      Drain(queue);
    }
  }
}

/** Process records: the rows the catalog query returns, the value of a
    record, and the mutable record object shared by the engine's queues. */
module Records {

  datatype Option<T> = None | Some(value: T)

  /** One row of the process table, as the catalog query returns it:
      (pid, nombre, usuario, prioridad). */
  datatype Row = Row(pid: int, nombre: string, usuario: string, prioridad: int)

  /** The value of a process record at one moment: every field except the
      finish time, which only the hook's engine writes. `prioridad` 1 means
      run to completion, 0 means bounded by the quantum; any other value is
      kept as it is. */
  datatype Rec = Rec(pid: int, nombre: string, usuario: string, prioridad: int,
                     burst: nat, arrival: nat, remaining: nat, executions: nat)

  /** A process record object. Both loops mutate `remaining` and
      `executions` in place, and only the hook's loop writes `finish`; the
      other fields never change after loading. */
  class Proc {
    const pid: int
    const nombre: string
    const usuario: string
    const prioridad: int
    const burst: nat
    const arrival: nat
    var remaining: nat
    var executions: nat
    var finish: Option<nat>

    constructor (r: Rec)
      ensures Value() == r && finish == None
    {
      pid, nombre, usuario, prioridad := r.pid, r.nombre, r.usuario, r.prioridad;
      burst, arrival := r.burst, r.arrival;
      remaining, executions := r.remaining, r.executions;
      finish := None;
    }

    /** The record's current value. */
    function Value(): Rec
      reads this
    {
      Rec(pid, nombre, usuario, prioridad, burst, arrival, remaining, executions)
    }
  }

  /** The values of a sequence of record objects, in order. */
  function Snap(ps: seq<Proc>): seq<Rec>
    reads ps
  {
    seq(|ps|, i requires 0 <= i < |ps| reads ps => ps[i].Value())
  }

  lemma SnapTail(ps: seq<Proc>)
    requires ps != []
    ensures Snap(ps[1..]) == Snap(ps)[1..]
  {
  }

  lemma SnapAppend(ps: seq<Proc>, p: Proc)
    ensures Snap(ps + [p]) == Snap(ps) + [p.Value()]
  {
  }

  /** No record object appears twice. */
  ghost predicate Unique(ps: seq<Proc>)
  {
    ps == [] || (ps[0] !in ps[1..] && Unique(ps[1..]))
  }

  /** Inserting an object that is not there yet keeps a sequence unique. */
  lemma {:induction false} UniqueInsert(a: seq<Proc>, b: seq<Proc>, p: Proc)
    requires Unique(a + b) && p !in a + b
    ensures Unique(a + [p] + b)
  {
    if a == [] {
      assert a + b == b && a + [p] + b == [p] + b;
      assert ([p] + b)[1..] == b;
    } else {
      assert (a + b)[1..] == a[1..] + b;
      assert (a + [p] + b)[1..] == a[1..] + [p] + b;
      UniqueInsert(a[1..], b, p);
    }
  }
}

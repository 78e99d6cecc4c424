/** The benchmark log of the manager. */
module Benchmark {
  import opened Prelude
  import opened SnapshotTree

  /** The four operation names of the log. */
  datatype Operation = SNAPSHOT | RESTORE | CONTAINER | EXEC

  /** The target is a snapshot id, or None for the text "<none>". */
  datatype Entry = Entry(sequence: nat, operation: Operation, target: Option<Id>, elapsed: real)

  datatype Ledger = Ledger(counter: nat, entries: seq<Entry>)

  function Add(l: Ledger, operation: Operation, target: Option<Id>, elapsed: real): Ledger {
    Ledger(l.counter + 1, l.entries + [Entry(l.counter + 1, operation, target, elapsed)])
  }

  /** Entry i carries sequence number i + 1. */
  predicate Numbered(l: Ledger) {
    l.counter == |l.entries| && forall i :: 0 <= i < |l.entries| ==> l.entries[i].sequence == i + 1
  }

  function Count(es: seq<Entry>, operation: Operation): nat {
    if es == [] then 0
    else Count(es[..|es| - 1], operation) + if es[|es| - 1].operation == operation then 1 else 0
  }

  function TimeOf(es: seq<Entry>, operation: Operation): real {
    if es == [] then 0.0
    else TimeOf(es[..|es| - 1], operation) + if es[|es| - 1].operation == operation then es[|es| - 1].elapsed else 0.0
  }

  lemma Added(l: Ledger, operation: Operation, target: Option<Id>, elapsed: real, op: Operation)
    ensures var m := Add(l, operation, target, elapsed);
      && (Numbered(l) ==> Numbered(m))
      && Count(m.entries, op) == Count(l.entries, op) + (if operation == op then 1 else 0)
      && TimeOf(m.entries, op) == TimeOf(l.entries, op) + (if operation == op then elapsed else 0.0)
  {
    var m := Add(l, operation, target, elapsed);
    assert m.entries[..|m.entries| - 1] == l.entries;
  }

  class BenchmarkStats {
    var sequenceCounter: nat
    var log: seq<Entry>

    constructor ()
      ensures View() == Ledger(0, [])
    {
      sequenceCounter, log := 0, [];
    }

    ghost function View(): Ledger
      reads this
    {
      Ledger(sequenceCounter, log)
    }

    method AddEntry(operation: Operation, target: Option<Id>, elapsed: real)
      modifies this
      ensures View() == Add(old(View()), operation, target, elapsed)
    {
      sequenceCounter := sequenceCounter + 1;
      log := log + [Entry(sequenceCounter, operation, target, elapsed)];
    }
  }
}

// Reading a table's column straight off the logs: what was added over a run, and what was said last.
module History {
  import opened Common

  // The total of a figure over every log of a run.
  function Added<L>(run: seq<L>, figure: L -> int): int {
    if run == [] then 0 else Added(run[..|run| - 1], figure) + figure(run[|run| - 1])
  }

  // The answer of the last log that gives one.
  function Latest<L, T>(run: seq<L>, answer: L -> Option<T>): Option<T> {
    if run == [] then None
    else var last := answer(run[|run| - 1]); if last.Some? then last else Latest(run[..|run| - 1], answer)
  }

  // The answer of the first log that gives one.
  function Earliest<L, T>(run: seq<L>, answer: L -> Option<T>): Option<T> {
    if run == [] then None
    else var first := Earliest(run[..|run| - 1], answer); if first.Some? then first else answer(run[|run| - 1])
  }

  function Or<T>(o: Option<T>, bare: T): T {
    match o case Some(value) => value case None => bare
  }
}

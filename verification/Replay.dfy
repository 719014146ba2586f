// The handlers over a whole run: replaying the logs leaves the tables every theorem is about.
module Replay {
  import opened Logs
  import opened Rows
  import opened Tape
  import opened Chain
  import opened Runs

  method Replayed(run: seq<Emission>) returns (index: Index)
    ensures fresh(index) && index.Rows() == TapeOf(run)
    ensures LegalRun(run) ==> Holds(index.Rows(), BooksOf(run))
  {
    index := new Index();
    for i := 0 to |run|
      invariant fresh(index) && index.Rows() == TapeOf(run[..i])
    {
      index.Apply(run[i].tx, run[i].log);
      assert run[..i + 1][..i] == run[..i];
    }
    assert run[..|run|] == run;
    if LegalRun(run) {
      EveryRun(run);
    }
  }
}

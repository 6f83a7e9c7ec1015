/**
 * The size-budgeted batch as a value: the batches executed so far and the
 * batch being filled, with the flush-before-append placement rule.
 */
module Batching {
  import opened Seqs

  /** The budget, in kB: a batch is executed before it would reach it. */
  const BatchMaxSize: nat := 10 * 1024 - 1

  /** The budget in characters. Python's `(size + len) / 1024` is correctly rounded, and
      10239 - 1/1024, the largest quotient below 10239, is a float, so the test
      `(size + len) / 1024 >= BatchMaxSize` holds exactly when `size + len >= Threshold`. */
  const Threshold: nat := BatchMaxSize * 1024

  /** `executed`: the batches handed to the database, in order; `batch`: the queries
      added since the last execute. */
  datatype Progress = Progress(executed: seq<seq<string>>, batch: seq<string>)

  /** Nothing executed and an empty batch. */
  const Start: Progress := Progress([], [])

  /** Every query handed over so far, executed or still pending, in order. */
  function Delivered(p: Progress): seq<string>
  {
    Flatten(p.executed) + p.batch
  }

  /** Executing the current batch and starting an empty one. */
  function Execute(p: Progress): (r: Progress)
    ensures |r.executed| == |p.executed| + 1 && r.batch == []
    ensures r.executed[..|p.executed|] == p.executed && r.executed[|p.executed|] == p.batch
  {
    Progress(p.executed + [p.batch], [])
  }

  /** Flush-before-append: if the batch together with `q` reaches the budget the batch
      is executed first and `q` starts the next one; otherwise `q` is appended. */
  function Place(p: Progress, q: string): (r: Progress)
    ensures |p.executed| <= |r.executed| <= |p.executed| + 1
    ensures r.executed[..|p.executed|] == p.executed
    ensures r.batch != [] && r.batch[|r.batch| - 1] == q
    ensures |r.executed| > |p.executed| <==> Size(p.batch) + |q| >= Threshold
    ensures |r.executed| > |p.executed| ==> r.executed[|p.executed|] == p.batch && r.batch == [q]
    ensures |r.executed| == |p.executed| ==> r.batch == p.batch + [q]
  {
    if Size(p.batch) + |q| >= Threshold then Execute(p).(batch := [q])
    else p.(batch := p.batch + [q])
  }

  /** Executing hands over nothing new and loses nothing. */
  lemma ExecuteKeepsOrder(p: Progress)
    ensures Flatten(Execute(p).executed) == Delivered(p)
    ensures Delivered(Execute(p)) == Delivered(p)
  {
    Snoc(p.executed, p.batch);
  }

  /** Placing a query appends it, and only it, to everything handed over so far. */
  lemma PlaceKeepsOrder(p: Progress, q: string)
    ensures Delivered(Place(p, q)) == Delivered(p) + [q]
  {
    if Size(p.batch) + |q| >= Threshold {
      Snoc(p.executed, p.batch);
    }
  }

  /** A batch below the budget stays below it after placing a query shorter than the budget. */
  lemma PlaceBudget(p: Progress, q: string)
    requires Size(p.batch) < Threshold && |q| < Threshold
    ensures Size(Place(p, q).batch) < Threshold
  {
    Snoc(p.batch, q);
    assert Size([q]) == |q| + Size([q][1..]);
  }

  /** Every batch, executed or pending, is below the budget. */
  ghost predicate WithinBudget(p: Progress)
  {
    Size(p.batch) < Threshold && forall k | 0 <= k < |p.executed| :: Size(p.executed[k]) < Threshold
  }

  lemma PlaceKeepsWithinBudget(p: Progress, q: string)
    requires WithinBudget(p) && |q| < Threshold
    ensures WithinBudget(Place(p, q))
  {
    PlaceBudget(p, q);
  }
}

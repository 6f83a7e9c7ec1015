/**
 * The CSV-to-batch loop: each 38-field row is rendered, substituted into the
 * INSERT template and placed into the size-budgeted batch; after the last row
 * the pending batch is executed once more, whatever it holds.
 */
module Loader {
  import opened Wrappers
  import opened Seqs
  import opened Rendering
  import opened Template
  import opened Batching

  /** What one CSV row turns into: skipped for a wrong field count, a query, or the
      ValueError raised by `int` or `float`. */
  datatype RowResult = Skipped | Insert(query: string) | Crash

  /** How a load ends: every row read, or stopped by a ValueError on row `row`
      (counted from the first row after the header). */
  datatype Outcome = Completed | ValueError(row: nat)

  datatype Run = Run(progress: Progress, outcome: Outcome)

  /** The query built from one CSV row. */
  function RowQuery(row: seq<string>, floatText: FloatText): (r: RowResult)
    ensures r == Skipped <==> |row| != |TableSchema|
  {
    if |row| != |TableSchema| then Skipped
    else
      match RenderFields(TableSchema, row, floatText)
      case None => Crash
      case Some(values) =>
        InsertTemplateMarks();
        Insert(Substituted(InsertTemplate, values))
  }

  /** A row raises exactly when it has the schema's length and the conversion of
      one of its fields raises. */
  lemma RowCrashes(row: seq<string>, floatText: FloatText)
    ensures RowQuery(row, floatText) == Crash <==>
              |row| == |TableSchema| &&
              exists j | 0 <= j < |row| :: RenderField(TableSchema[j], row[j], floatText) == None
  {
  }

  /** The result of every row, in input order. */
  function RowResults(rows: seq<seq<string>>, floatText: FloatText): (r: seq<RowResult>)
    ensures |r| == |rows| && forall j | 0 <= j < |rows| :: r[j] == RowQuery(rows[j], floatText)
  {
    seq(|rows|, j requires 0 <= j < |rows| => RowQuery(rows[j], floatText))
  }

  /** The queries of the rows that produce one, in input order. */
  function Queries(results: seq<RowResult>): seq<string>
  {
    if results == [] then []
    else (if results[0].Insert? then [results[0].query] else []) + Queries(results[1..])
  }

  /** The row loop from row `i` on, starting from `p`. */
  function Feed(p: Progress, results: seq<RowResult>, i: nat): (r: Run)
    requires i <= |results|
    ensures r.outcome.ValueError? ==> i <= r.outcome.row < |results| && results[r.outcome.row] == Crash
    decreases |results| - i
  {
    if i == |results| then Run(p, Completed)
    else
      match results[i]
      case Skipped => Feed(p, results, i + 1)
      case Crash => Run(p, ValueError(i))
      case Insert(q) => Feed(Place(p, q), results, i + 1)
  }

  /** The execute after the loop, unconditional; a ValueError skips it. */
  function Finish(run: Run): (r: Run)
    ensures r.outcome == run.outcome
    ensures run.outcome == Completed ==>
              && r.progress.executed == run.progress.executed + [run.progress.batch]
              && r.progress.batch == []
    ensures run.outcome.ValueError? ==> r.progress == run.progress
  {
    if run.outcome == Completed then Run(Execute(run.progress), Completed) else run
  }

  /** A whole load from a fresh batch. */
  function LoadSpec(rows: seq<seq<string>>, floatText: FloatText): (r: Run)
    ensures r.outcome == Completed ==> |r.progress.executed| >= 1 && r.progress.batch == []
    ensures r.outcome.ValueError? ==>
              r.outcome.row < |rows| && RowQuery(rows[r.outcome.row], floatText) == Crash
  {
    Finish(Feed(Start, RowResults(rows, floatText), 0))
  }

  lemma QueriesStep(results: seq<RowResult>, i: nat, j: nat)
    requires i < j <= |results|
    ensures Queries(results[i..j]) ==
              (if results[i].Insert? then [results[i].query] else []) + Queries(results[i + 1..j])
  {
    assert results[i..j][0] == results[i] && results[i..j][1..] == results[i + 1..j];
  }

  /** The loop stops at the first row whose conversion raises, or runs to the end; up to
      that point it hands over exactly the queries of the accepted rows, in order. */
  lemma {:induction false} FeedCompletes(p: Progress, results: seq<RowResult>, i: nat)
    requires i <= |results|
    ensures Feed(p, results, i).outcome == Completed <==> forall j | i <= j < |results| :: results[j] != Crash
    ensures Feed(p, results, i).outcome == Completed ==>
              Delivered(Feed(p, results, i).progress) == Delivered(p) + Queries(results[i..])
    decreases |results| - i
  {
    if i == |results| {
      assert results[i..] == [];
    } else {
      assert results[i..] == results[i..|results|];
      QueriesStep(results, i, |results|);
      match results[i]
      case Skipped =>
        FeedCompletes(p, results, i + 1);
      case Crash =>
      case Insert(q) =>
        FeedCompletes(Place(p, q), results, i + 1);
        PlaceKeepsOrder(p, q);
    }
  }

  lemma {:induction false} FeedStops(p: Progress, results: seq<RowResult>, i: nat)
    requires i <= |results|
    requires Feed(p, results, i).outcome.ValueError?
    ensures var k := Feed(p, results, i).outcome.row;
      && i <= k < |results|
      && results[k] == Crash
      && (forall j | i <= j < k :: results[j] != Crash)
      && Delivered(Feed(p, results, i).progress) == Delivered(p) + Queries(results[i..k])
    decreases |results| - i
  {
    var k := Feed(p, results, i).outcome.row;
    match results[i]
    case Skipped =>
      FeedStops(p, results, i + 1);
      QueriesStep(results, i, k);
    case Crash =>
      assert results[i..i] == [];
    case Insert(q) =>
      FeedStops(Place(p, q), results, i + 1);
      PlaceKeepsOrder(p, q);
      QueriesStep(results, i, k);
  }

  /** A completed load executes every accepted row's query in exactly one batch:
      the executed batches, concatenated, are the accepted queries in input order,
      the last of them submitted by the final execute. */
  lemma LoadDeliversEveryQuery(rows: seq<seq<string>>, floatText: FloatText)
    ensures LoadSpec(rows, floatText).outcome == Completed <==>
              forall j | 0 <= j < |rows| :: RowQuery(rows[j], floatText) != Crash
    ensures LoadSpec(rows, floatText).outcome == Completed ==>
              && Flatten(LoadSpec(rows, floatText).progress.executed) == Queries(RowResults(rows, floatText))
              && LoadSpec(rows, floatText).progress.batch == []
    ensures var r := Feed(Start, RowResults(rows, floatText), 0);
      LoadSpec(rows, floatText).outcome == Completed ==>
        LoadSpec(rows, floatText).progress.executed == r.progress.executed + [r.progress.batch]
  {
    var results := RowResults(rows, floatText);
    FeedCompletes(Start, results, 0);
    var r := Feed(Start, results, 0);
    assert results[0..] == results;
    if r.outcome == Completed {
      ExecuteKeepsOrder(r.progress);
    }
  }

  /** A ValueError stops the load at the first row that raises: the final execute does
      not run, and what was executed is a prefix of the queries of the rows before it. */
  lemma LoadStopsAtValueError(rows: seq<seq<string>>, floatText: FloatText)
    requires LoadSpec(rows, floatText).outcome.ValueError?
    ensures var k := LoadSpec(rows, floatText).outcome.row;
      && k < |rows|
      && RowQuery(rows[k], floatText) == Crash
      && (forall j | 0 <= j < k :: RowQuery(rows[j], floatText) != Crash)
      && Flatten(LoadSpec(rows, floatText).progress.executed) <= Queries(RowResults(rows, floatText)[..k])
  {
    var results := RowResults(rows, floatText);
    FeedStops(Start, results, 0);
    var r := Feed(Start, results, 0);
    var k := r.outcome.row;
    assert results[0..k] == results[..k];
    assert Delivered(Start) == [];
    assert Delivered(r.progress) == Queries(results[..k]);
    assert Flatten(r.progress.executed) <= Delivered(r.progress);
  }

  lemma {:induction false} FeedSkipsAll(results: seq<RowResult>, i: nat)
    requires i <= |results|
    requires forall j | i <= j < |results| :: results[j] == Skipped
    ensures Feed(Start, results, i) == Run(Start, Completed)
    decreases |results| - i
  {
    if i < |results| {
      FeedSkipsAll(results, i + 1);
    }
  }

  /** Rows of the wrong length change nothing, so a load in which every row is skipped,
      or a file holding only its header, still executes exactly one batch, an empty one. */
  lemma NoAcceptedRows(rows: seq<seq<string>>, floatText: FloatText)
    requires forall j | 0 <= j < |rows| :: |rows[j]| != |TableSchema|
    ensures LoadSpec(rows, floatText) == Run(Progress([[]], []), Completed)
  {
    FeedSkipsAll(RowResults(rows, floatText), 0);
  }

  /** The row loop never rewrites or drops an executed batch. */
  lemma {:induction false} FeedExtends(p: Progress, results: seq<RowResult>, i: nat)
    requires i <= |results|
    ensures var r := Feed(p, results, i);
      |p.executed| <= |r.progress.executed| && r.progress.executed[..|p.executed|] == p.executed
    decreases |results| - i
  {
    if i < |results| {
      match results[i]
      case Skipped => FeedExtends(p, results, i + 1);
      case Crash =>
      case Insert(q) =>
        FeedExtends(Place(p, q), results, i + 1);
        var e := Feed(Place(p, q), results, i + 1).progress.executed;
        assert e[..|p.executed|] == e[..|Place(p, q).executed|][..|p.executed|];
    }
  }

  /** Skipped rows leave the loop's state as it is. */
  lemma {:induction false} FeedSkipsPrefix(p: Progress, results: seq<RowResult>, i: nat, m: nat)
    requires i <= m <= |results|
    requires forall j | i <= j < m :: results[j] == Skipped
    ensures Feed(p, results, i) == Feed(p, results, m)
    decreases m - i
  {
    if i < m {
      FeedSkipsPrefix(p, results, i + 1, m);
    }
  }

  /** When the first accepted query, after any number of skipped rows, alone reaches the
      budget, the loop executes the still empty batch before adding it. */
  lemma EmptyBatchExecuted(results: seq<RowResult>, m: nat)
    requires m < |results|
    requires forall j | 0 <= j < m :: results[j] == Skipped
    requires results[m].Insert? && |results[m].query| >= Threshold
    ensures |Finish(Feed(Start, results, 0)).progress.executed| > 0
    ensures Finish(Feed(Start, results, 0)).progress.executed[0] == []
  {
    var q := results[m].query;
    FeedSkipsPrefix(Start, results, 0, m);
    assert Place(Start, q).executed == [[]];
    FeedExtends(Place(Start, q), results, m + 1);
  }

  /** If every accepted query is shorter than the budget, every batch the loop
      executes, and the batch after every append, stays below the budget. */
  lemma {:induction false} FeedWithinBudget(p: Progress, results: seq<RowResult>, i: nat)
    requires i <= |results|
    requires WithinBudget(p)
    requires forall j | i <= j < |results| :: results[j].Insert? ==> |results[j].query| < Threshold
    ensures WithinBudget(Feed(p, results, i).progress)
    decreases |results| - i
  {
    if i < |results| {
      match results[i]
      case Skipped => FeedWithinBudget(p, results, i + 1);
      case Crash =>
      case Insert(q) =>
        PlaceKeepsWithinBudget(p, q);
        FeedWithinBudget(Place(p, q), results, i + 1);
    }
  }

  lemma LoadWithinBudget(rows: seq<seq<string>>, floatText: FloatText)
    requires forall j | 0 <= j < |rows| :: RowQuery(rows[j], floatText).Insert? ==> |RowQuery(rows[j], floatText).query| < Threshold
    ensures forall k | 0 <= k < |LoadSpec(rows, floatText).progress.executed| ::
              Size(LoadSpec(rows, floatText).progress.executed[k]) < Threshold
  {
    FeedWithinBudget(Start, RowResults(rows, floatText), 0);
  }

  /** The loader's state: the pending batch, its size counter and the log of executed batches. */
  class Loader {
    const floatText: FloatText
    var batch: seq<string>
    var batchSize: nat
    var executed: seq<seq<string>>

    /** The size counter is the total length of the pending queries. */
    ghost predicate Valid()
      reads this
    {
      batchSize == Size(batch)
    }

    function Current(): Progress
      reads this
    {
      Progress(executed, batch)
    }

    constructor (floatText: FloatText)
      ensures Valid() && Current() == Start && this.floatText == floatText
    {
      this.floatText := floatText;
      batch, batchSize, executed := [], 0, [];
    }

    /** Executes the pending batch, then starts an empty one with a zero counter. */
    method Execute()
      requires Valid()
      modifies this
      ensures Valid() && batchSize == 0
      ensures Current() == Batching.Execute(old(Current()))
    {
      executed := executed + [batch];
      batch := [];
      batchSize := 0;
    }

    /** Flush-before-append of one query. */
    method Place(query: string)
      requires Valid()
      modifies this
      ensures Valid()
      ensures Current() == Batching.Place(old(Current()), query)
    {
      if batchSize + |query| >= Threshold {
        Execute();
      }
      Snoc(batch, query);
      batch := batch + [query];
      batchSize := batchSize + |query|;
    }

    /** One iteration of the row loop. A row of the wrong length, or one whose
        conversion raises, leaves the batch, its counter and the log unchanged. */
    method ProcessRow(row: seq<string>) returns (result: RowResult)
      requires Valid()
      modifies this
      ensures Valid()
      ensures result == RowQuery(row, floatText)
      ensures result.Insert? ==> Current() == Batching.Place(old(Current()), result.query)
      ensures !result.Insert? ==> Current() == old(Current()) && batchSize == old(batchSize)
    {
      if |row| != |TableSchema| {
        return Skipped;
      }
      var fields := new string[|row|](j requires 0 <= j < |row| => row[j]);
      assert fields[..] == row;
      var ok := RenderRow(fields, floatText);
      if !ok {
        return Crash;
      }
      InsertTemplateMarks();
      var query := Substitute(InsertTemplate, fields[..]);
      Place(query);
      return Insert(query);
    }

    /** The row loop followed by the final, unconditional execute. */
    method Load(rows: seq<seq<string>>) returns (outcome: Outcome)
      requires Valid()
      modifies this
      ensures Valid()
      ensures Run(Current(), outcome) == Finish(Feed(old(Current()), RowResults(rows, floatText), 0))
    {
      ghost var results := RowResults(rows, floatText);
      ghost var initial := Current();
      var i := 0;
      while i < |rows|
        invariant i <= |rows|
        invariant Valid()
        invariant Feed(Current(), results, i) == Feed(initial, results, 0)
      {
        ghost var before := Current();
        var r := ProcessRow(rows[i]);
        assert results[i] == r;
        if r == Crash {
          assert Feed(before, results, i) == Run(Current(), ValueError(i));
          return ValueError(i);
        }
        assert Feed(before, results, i) == Feed(Current(), results, i + 1);
        i := i + 1;
      }
      assert Feed(initial, results, 0) == Run(Current(), Completed);
      Execute();
      return Completed;
    }
  }

  /** Loads the rows after the header into a fresh loader and returns the executed
      batches, in the order the database received them. */
  method Import(rows: seq<seq<string>>, floatText: FloatText) returns (log: seq<seq<string>>, outcome: Outcome)
    ensures log == LoadSpec(rows, floatText).progress.executed
    ensures outcome == LoadSpec(rows, floatText).outcome
    ensures outcome == Completed ==> Flatten(log) == Queries(RowResults(rows, floatText))
  {
    var loader := new Loader(floatText);
    outcome := loader.Load(rows);
    log := loader.executed;
    LoadDeliversEveryQuery(rows, floatText);
  }
}

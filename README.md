# Bounded-batch CSV loader for the `co2_cars` table

This project models the loader at the heart of `cassandra_local_test.py`. It reads
vehicle CO2-emission records from a CSV file and inserts them into the Cassandra table
`co2_cars`, using size-budgeted batch statements. The loader works in three steps:

1. **Field rendering.** A fixed 38-entry schema tuple of `INT`/`TEXT`/`FLOAT` tags
   rewrites each CSV field in place. An empty field becomes `NULL`. A non-empty TEXT
   (or DATE) field becomes `'<value>'`, with no escaping. A non-empty INT field goes
   through `int()` and is printed back by `str()`; `int()` raises on more than 4300
   digits. A non-empty FLOAT field goes through
   `float()` and `str()`.
2. **Placeholder substitution.** A character loop copies the INSERT template and
   replaces its k-th `?` with the k-th rendered field.
3. **Flush-before-append batching.** Rows whose length is not 38 are skipped. Before a
   query is added, the current batch is executed and reset if the batch and the query
   together reach `batch_max_size` kB (`10*1024-1`). The query is then appended and the
   size counter grows by its length. After the loop, one more execute runs
   unconditionally.

Modules, one per step plus shared helpers:

- `Wrappers`: `Option`. `None` stands for a raised `ValueError`.
- `Seqs`: `Flatten`, `Size` (sum of lengths) and `Join` over sequences of sequences.
- `Numerals`: Python's `int(s)` (ASCII subset, at most 4300 digits) and `str(n)`, with
  the round trip between them.
- `Rendering`: the schema tuple, the per-field rendering `RenderField`, and the in-place
  schema loop `RenderRow` over an `array<string>`. The array stands for the row list.
  Each of its cells holds the text that `str(row[j])` later yields.
- `Template`: the INSERT template (built from its 38 column names, and equal character
  for character to the source literal), the reference function `Substituted`, and the
  loop method `Substitute` proved against it.
- `Batching`: the batching state as a value (`Progress`: the log of executed batches plus
  the pending batch), with `Place` (flush-before-append) and `Execute`.
- `Loader`: the outcome of one row (`RowQuery`), the row loop as a function (`Feed`), the
  whole run (`LoadSpec`), and the lemmas about them. It also holds the class
  `Loader.Loader`, whose fields `batch`, `batchSize` and `executed` are the script's
  `batch`, `batch_size` and the sequence of `session.execute` calls. Its method `Load` is
  the loop, proved equal to `LoadSpec`. `Import` runs a fresh loader.

`session.execute(batch)` is modelled as appending the batch's queries to `executed`. The
budget test `(batch_size + len(query2)) / 1024 >= batch_max_size` is modelled as the
integer test `batchSize + |q| >= Threshold`, where `Threshold = (10*1024-1)*1024`.
This is exact at every size: Python's integer true division is correctly rounded, and the
largest quotient below 10239, namely 10239 - 1/1024, is itself a float. A `ValueError`
raised by `int()` or `float()` ends the run at that row, with outcome `ValueError(i)`. The final
execute is then skipped and the pending batch is lost.

An idealised bounded-batch loader would flush only non-empty batches and count its
rejected rows. This code differs, and the model follows the code:

- The final execute (`cassandra_local_test.py:170`) runs even when the batch is empty.
  So a file with only a header still executes one empty batch (`Loader.NoAcceptedRows`).
- The flush at line 161 runs on an empty batch when the first accepted query of the whole
  run (after any number of skipped rows) alone reaches the budget
  (`Loader.EmptyBatchExecuted`). So "every flush receives a non-empty batch" does not
  hold. After any flush the new batch already holds a query, so only that first query can
  cause an empty flush. Under the csv module's default limit of 131072 characters per
  field, a query has at most about 5 million characters, under half of the
  10,484,736-character budget, so the script as run cannot take this path. The model has
  no field limit and keeps it.
- The code keeps no processed or rejected counters (a rejected row only prints a line),
  and its budget is only size-based, never a row count.
- The code tests for a `DATE` tag, but the schema tuple contains none. The
  `Date of registration` column is tagged `TEXT`. The model keeps the `Date` tag, with
  the same rendering as `Text`.
- A non-numeric INT or FLOAT field raises an unhandled `ValueError` that ends the import.

## Model

| member | source | states |
|---|---|---|
| Numerals.Decimal | cassandra_local_test.py:154 | `str(n)` of an int is non-empty, starts with `-` exactly for negative values, and is never `NULL` |
| Numerals.NatDecimal | cassandra_local_test.py:154 | the decimal form of a natural is all digits and has no leading zero |
| Numerals.ParseInt | cassandra_local_test.py:135 | `int()` on text accepts at most 4300 digits and raises beyond them, so any integer it returns prints in at most 4300 decimal digits |
| Numerals.SeparatorsRaise | cassandra_local_test.py:135 | `int()` does not strip the ASCII separators 0x1C-0x1F: a digit next to one raises |
| Numerals.DecimalRoundTrip | cassandra_local_test.py:135 | `int(str(n)) == n` for every integer `str` can print (at most 4300 digits): reading back a rendered integer gives the same integer |
| Rendering.RenderField | cassandra_local_test.py:132-147 | an empty field of any tag becomes exactly `NULL`; only a non-empty INT or FLOAT field can raise |
| Rendering.NullOnlyForEmpty | cassandra_local_test.py:133-147 | for INT, TEXT and DATE, the result is `NULL` if and only if the field is empty |
| Rendering.QuotedReadsBack | cassandra_local_test.py:143-145 | a non-empty TEXT/DATE field is wrapped in single quotes verbatim: unquoting gives the field back, embedded quotes unescaped, and `NULL` is not a quoted literal |
| Rendering.IntPreservesValue | cassandra_local_test.py:133-137 | a non-empty INT field renders exactly when `int()` accepts it, as a non-`NULL` literal with the same integer value |
| Rendering.RenderFields | cassandra_local_test.py:132-147 | a row renders exactly when every field renders, and then field j holds the rendering of input field j under tag j |
| Rendering.RenderRow | cassandra_local_test.py:132-147 | the in-place schema loop succeeds exactly when the row renders, and then leaves the rendered row in the array |
| Template.SubstitutedAppend | cassandra_local_test.py:151-157 | substituting into `a + b` is substituting into `a`, then into `b` from the first value `a` did not use |
| Template.SubstitutedPlain | cassandra_local_test.py:156-157 | template text without `?` is copied unchanged |
| Template.Substituted | cassandra_local_test.py:151-157 | reference reading of the loop: the k-th `?` replaced by value k; query length = template length - number of `?` + total length of the values used |
| Template.SubstitutedInterleaves | cassandra_local_test.py:151-157 | a template of `?`-free segments separated by `?` becomes those segments in order with value k between segments k and k+1; values are never rescanned |
| Template.Substitute | cassandra_local_test.py:151-157 | the character loop with cursor `x` computes exactly `Substituted(template, values)` |
| Template.InsertTemplateMarks | cassandra_local_test.py:149 | the INSERT template has exactly 38 placeholders, one per column |
| Batching.Execute | cassandra_local_test.py:161-164 | executing keeps the old log, appends the old batch as its one new entry, and leaves an empty batch |
| Batching.Place | cassandra_local_test.py:159-167 | the batch is executed iff its size plus the query's length reaches the budget; it then becomes the next log entry and the query starts the new batch; otherwise the query is appended; the log is never rewritten |
| Batching.PlaceKeepsOrder | cassandra_local_test.py:159-167 | placing a query adds exactly that query to the delivered sequence (executed batches, then pending batch) |
| Batching.ExecuteKeepsOrder | cassandra_local_test.py:161-164 | executing neither adds nor loses a query |
| Batching.PlaceBudget | cassandra_local_test.py:159-167 | a batch below the budget stays below it after placing a query shorter than the budget |
| Loader.RowQuery | cassandra_local_test.py:128-157 | a row is skipped exactly when its length is not 38 |
| Loader.RowCrashes | cassandra_local_test.py:132-147 | a row raises exactly when it has 38 fields and some field's conversion raises |
| Loader.Feed | cassandra_local_test.py:125-167 | the row loop as a function; when it stops on a ValueError, the row it names is in range and is one whose conversion raises |
| Loader.Finish | cassandra_local_test.py:169-170 | after a completed loop exactly one more execute runs, of whatever the pending batch holds, leaving an empty batch; after a ValueError nothing more happens |
| Loader.LoadSpec | cassandra_local_test.py:125-170 | a whole load: a completed one has executed at least once and left no pending batch; a stopped one names a row that raises |
| Loader.FeedCompletes | cassandra_local_test.py:125-167 | the loop completes iff no row raises, and then delivers exactly the accepted rows' queries, in input order |
| Loader.FeedStops | cassandra_local_test.py:125-167 | a `ValueError` stops the loop at the first row that raises, with exactly the earlier accepted queries delivered |
| Loader.FeedExtends | cassandra_local_test.py:125-167 | the loop never rewrites or drops an executed batch |
| Loader.FeedWithinBudget | cassandra_local_test.py:159-167 | if every query is shorter than the budget, every executed batch and the batch after every append stay below it |
| Loader.LoadDeliversEveryQuery | cassandra_local_test.py:125-170 | a completed load executes every accepted query in exactly one batch: the log, concatenated, is the accepted queries in input order; the log is the loop's log plus one final execute of the pending batch |
| Loader.LoadStopsAtValueError | cassandra_local_test.py:125-170 | after a `ValueError` at row k, row k is the first row that raises, and the log is a prefix of the queries of rows before k |
| Loader.NoAcceptedRows | cassandra_local_test.py:125-170 | when every row has the wrong length (or there are none), the load executes exactly one batch, an empty one |
| Loader.EmptyBatchExecuted | cassandra_local_test.py:159-166 | when the first accepted query, after any number of skipped rows, alone reaches the budget, the first batch executed is empty |
| Loader.LoadWithinBudget | cassandra_local_test.py:125-170 | if every query is shorter than the budget, every executed batch is below the budget |
| Loader.Loader.constructor | cassandra_local_test.py:112-122 | a fresh loader has an empty batch, a zero counter and an empty log |
| Loader.Loader.Execute | cassandra_local_test.py:161-164 | the batch is appended to the log, the batch is reset and the counter is reset to 0 |
| Loader.Loader.Place | cassandra_local_test.py:159-167 | the state moves as `Batching.Place` says, and the counter stays equal to the total length of the batch |
| Loader.Loader.ProcessRow | cassandra_local_test.py:126-167 | one iteration yields `RowQuery` of the row; a skipped or raising row leaves batch, counter and log unchanged; an accepted row's query is placed |
| Loader.Loader.Load | cassandra_local_test.py:125-170 | the loop plus the final execute reach exactly the state and outcome `Finish(Feed(...))` prescribes, keeping the counter invariant |
| Loader.Import | cassandra_local_test.py:112-170 | a fresh load's log and outcome are those of `LoadSpec`; when it completes, the log concatenated is the accepted queries in order |

## Left out

- Module docstring with shell and setup instructions (`cassandra_local_test.py:1-38`): not code.
- Cluster connection, release-version probe, `USE` and `CREATE TABLE` (`cassandra_local_test.py:46-101`): network and database I/O.
- Opening the file, CSV parsing and skipping the header (`cassandra_local_test.py:104-108`): the model takes the rows after the header as a `seq<seq<string>>`.
- The pandas `SELECT *` readback (`cassandra_local_test.py:172-173`): a foreign library and I/O.
- The progress and diagnostic prints (`cassandra_local_test.py:127`, `129`, `160`, `169`): console output only.
- Errors raised by `session.execute` and the Cassandra-side meaning of a batch: executing is an append to the log and never fails.
- `float()` and `str(float)` (`cassandra_local_test.py:138-142`): floating-point parsing and formatting. The loader takes them as a parameter `FloatText` (`None` for a `ValueError`).
- Rendering.NullOnlyForEmpty: excludes FLOAT, because the rendering of a non-empty FLOAT field comes from the `FloatText` parameter. So the model cannot state that it is never `NULL`.
- Numerals.ParseInt: the 4300-digit limit is CPython's default from 3.11 and the 3.10.7, 3.9.14, 3.8.14 and 3.7.14 security releases; older interpreters accept longer numerals, which the model rejects. A limit changed with `sys.set_int_max_str_digits` is not modelled.
- Numerals.ParseInt: `int()` is modelled for ASCII text only. Its acceptance of non-ASCII decimal digits and non-ASCII whitespace is not modelled, and such fields raise in the model.
- Rendering.IntPreservesValue: for the same reason, its "renders exactly when `int()` accepts it" holds for ASCII fields only. An INT field with non-ASCII digits or whitespace that `int()` accepts is rejected by the model.
- The IndexError the substitution loop would raise if the template had more `?` than values: the loop requires enough values, and the one call site meets that (`Template.InsertTemplateMarks`).
- `postgre_import.py` (environment configuration, connection, partitioned-table DDL) and `retrieve_ip.py` (one HTTP request): configuration and I/O with no algorithm. They are not part of this model.

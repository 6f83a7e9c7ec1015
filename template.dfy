/**
 * The INSERT statement template and the character loop that replaces its
 * k-th `?` placeholder with the k-th rendered value.
 */
module Template {
  import opened Seqs

  /** The number of `?` placeholders in `t`. */
  function MarkCount(t: string): nat
  {
    if t == [] then 0 else (if t[0] == '?' then 1 else 0) + MarkCount(t[1..])
  }

  lemma {:induction false} MarkCountAppend(a: string, b: string)
    ensures MarkCount(a + b) == MarkCount(a) + MarkCount(b)
  {
    if a == [] {
      assert a + b == b;
    } else {
      assert (a + b)[1..] == a[1..] + b;
      MarkCountAppend(a[1..], b);
    }
  }

  lemma {:induction false} NoMarks(t: string)
    requires '?' !in t
    ensures MarkCount(t) == 0
  {
    if t != [] {
      assert t[0] in t;
      NoMarks(t[1..]);
    }
  }

  /** The total length of the first `k` values. */
  function UsedSize(values: seq<string>, k: nat): nat
    requires k <= |values|
  {
    if k == 0 then 0 else |values[0]| + UsedSize(values[1..], k - 1)
  }

  /** The template with its k-th placeholder replaced by `values[k]`; the
      substituted text is not scanned again. */
  function Substituted(t: string, values: seq<string>): (r: string)
    requires MarkCount(t) <= |values|
    ensures |r| == |t| - MarkCount(t) + UsedSize(values, MarkCount(t))
  {
    if t == [] then []
    else if t[0] == '?' then
      values[0] + Substituted(t[1..], values[1..])
    else [t[0]] + Substituted(t[1..], values)
  }

  /** Substitution of a concatenation is the concatenation of the substitutions,
      the second part starting at the first value the first part did not use. */
  lemma {:induction false} SubstitutedAppend(a: string, b: string, values: seq<string>)
    requires MarkCount(a) + MarkCount(b) <= |values|
    ensures MarkCount(a + b) == MarkCount(a) + MarkCount(b)
    ensures Substituted(a + b, values) == Substituted(a, values) + Substituted(b, values[MarkCount(a)..])
  {
    MarkCountAppend(a, b);
    if a == [] {
      assert a + b == b;
    } else {
      assert (a + b)[1..] == a[1..] + b;
      MarkCountAppend(a[1..], b);
      if a[0] == '?' {
        SubstitutedAppend(a[1..], b, values[1..]);
        assert values[1..][MarkCount(a[1..])..] == values[MarkCount(a)..];
      } else {
        SubstitutedAppend(a[1..], b, values);
      }
    }
  }

  /** Text without placeholders is copied unchanged. */
  lemma {:induction false} SubstitutedPlain(t: string, values: seq<string>)
    requires '?' !in t
    ensures MarkCount(t) == 0
    ensures Substituted(t, values) == t
  {
    NoMarks(t);
    if t != [] {
      assert t[0] in t;
      SubstitutedPlain(t[1..], values);
    }
  }

  /** `segments[0] + values[0] + segments[1] + values[1] + ... + segments[n-1]`. */
  function Interleave(segments: seq<string>, values: seq<string>): string
    requires |segments| >= 1 && |segments| - 1 <= |values|
  {
    if |segments| == 1 then segments[0]
    else segments[0] + values[0] + Interleave(segments[1..], values[1..])
  }

  /** Reference reading of substitution: a template made of placeholder-free segments
      separated by `?` becomes those segments, in order, with the values between them. */
  lemma {:induction false} SubstitutedInterleaves(segments: seq<string>, values: seq<string>)
    requires |segments| >= 1 && |segments| - 1 <= |values|
    requires forall k | 0 <= k < |segments| :: '?' !in segments[k]
    ensures MarkCount(Join(segments, "?")) == |segments| - 1
    ensures Substituted(Join(segments, "?"), values) == Interleave(segments, values)
  {
    if |segments| == 1 {
      SubstitutedPlain(segments[0], values);
    } else {
      var head, tail := segments[0], Join(segments[1..], "?");
      SubstitutedInterleaves(segments[1..], values[1..]);
      assert Join(segments, "?") == (head + "?") + tail;
      NoMarks(head);
      MarkCountAppend(head, "?");
      MarkCountAppend(head + "?", tail);
      SubstitutedAppend(head + "?", tail, values);
      SubstitutedAppend(head, "?", values);
      SubstitutedPlain(head, values);
      assert values[MarkCount(head + "?")..] == values[1..];
    }
  }

  /** The query-building loop: copies the template character by character,
      replacing each `?` with the next value. */
  method Substitute(template: string, values: seq<string>) returns (query: string)
    requires MarkCount(template) <= |values|
    ensures query == Substituted(template, values)
  {
    query := "";
    var x := 0;
    for i := 0 to |template|
      invariant x == MarkCount(template[..i]) <= MarkCount(template)
      invariant query == Substituted(template[..i], values)
    {
      var c := template[i];
      assert template[..i + 1] == template[..i] + [c];
      assert template == template[..i + 1] + template[i + 1..];
      MarkCountAppend(template[..i + 1], template[i + 1..]);
      MarkCountAppend(template[..i], [c]);
      SubstitutedAppend(template[..i], [c], values);
      if c == '?' {
        query := query + values[x];
        x := x + 1;
      } else {
        query := query + [c];
      }
    }
    assert template[..|template|] == template;
  }

  /** The column list of the INSERT statement, in schema order. */
  const Columns: seq<string> := ColumnsVehicle + ColumnsMass + ColumnsEngine + ColumnsRegistration

  const ColumnsVehicle: seq<string> :=
    ["ID", "Country", "VFN", "Mp", "Mh", "Man", "MMS", "Tan", "T", "Va", "Ve", "Mk", "Cn", "Ct", "Cr"]
  const ColumnsMass: seq<string> :=
    ["R", "\"M (kg)\"", "Mt", "\"Enedc (g/km)\"", "\"Ewltp (g/km)\"", "\"W (mm)\"", "\"At1 (mm)\""]
  const ColumnsEngine: seq<string> :=
    ["\"At2 (mm)\"", "Ft", "Fm", "\"Ec (cm3)\"", "\"Ep (KW)\"", "\"Z (Wh/km)\"", "IT",
     "\"Ernedc (g/km)\"", "\"Erwltp (g/km)\""]
  const ColumnsRegistration: seq<string> :=
    ["De", "Vf", "Status", "Year", "\"Date of registration\"", "\"Fuel consumption\"",
     "\"Electric range (km)\""]

  /** `n` placeholders separated by `", "`. */
  function Placeholders(n: nat): string
  {
    if n == 0 then "" else if n == 1 then "?" else "?, " + Placeholders(n - 1)
  }

  /** The INSERT statement with one placeholder per column, character for character
      the template the loader substitutes into. */
  const InsertTemplate: string :=
    "INSERT INTO co2_cars (" + Join(Columns, ", ") + ") VALUES (" + Placeholders(|Columns|) + ")"

  lemma {:induction false} PlaceholdersCount(n: nat)
    ensures MarkCount(Placeholders(n)) == n
  {
    if n > 1 {
      PlaceholdersCount(n - 1);
      MarkCountAppend("?, ", Placeholders(n - 1));
    }
  }

  lemma ColumnGroupsPlain()
    ensures forall k | 0 <= k < |ColumnsVehicle| :: '?' !in ColumnsVehicle[k]
    ensures forall k | 0 <= k < |ColumnsMass| :: '?' !in ColumnsMass[k]
    ensures forall k | 0 <= k < |ColumnsEngine| :: '?' !in ColumnsEngine[k]
    ensures forall k | 0 <= k < |ColumnsRegistration| :: '?' !in ColumnsRegistration[k]
  {
  }

  lemma ColumnsPlain()
    ensures |Columns| == 38
    ensures '?' !in Join(Columns, ", ")
  {
    ColumnGroupsPlain();
    JoinAvoids(Columns, ", ", '?');
  }

  /** A statement whose only placeholders are the `n` in its value list has `n` marks. */
  lemma StatementMarks(head: string, cols: string, mid: string, n: nat, tail: string)
    requires '?' !in head && '?' !in cols && '?' !in mid && '?' !in tail
    ensures MarkCount(head + cols + mid + Placeholders(n) + tail) == n
  {
    NoMarks(head);
    NoMarks(cols);
    NoMarks(mid);
    NoMarks(tail);
    PlaceholdersCount(n);
    MarkCountAppend(head, cols);
    MarkCountAppend(head + cols, mid);
    MarkCountAppend(head + cols + mid, Placeholders(n));
    MarkCountAppend(head + cols + mid + Placeholders(n), tail);
  }

  lemma KeywordsPlain()
    ensures '?' !in "INSERT INTO co2_cars (" && '?' !in ") VALUES (" && '?' !in ")"
  {
  }

  /** The template has exactly one placeholder per column, 38 in all. */
  lemma InsertTemplateMarks()
    ensures |Columns| == 38
    ensures MarkCount(InsertTemplate) == |Columns|
  {
    ColumnsPlain();
    KeywordsPlain();
    StatementMarks("INSERT INTO co2_cars (", Join(Columns, ", "), ") VALUES (", |Columns|, ")");
  }
}

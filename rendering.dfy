/**
 * The schema tuple and the per-field rewrite that turns each CSV string into
 * the text `str(row[j])` yields once the schema loop has replaced `row[j]`.
 */
module Rendering {
  import opened Wrappers
  import Numerals

  /** The type tags the schema loop tests for. */
  datatype Tag = Int | Text | Float | Date

  /** The marker an empty CSV field becomes, whatever its column type. */
  const Null: string := "NULL"

  /** The fixed 38-entry schema, in column order. */
  const TableSchema: seq<Tag> := [
    Int, Text, Text, Text, Text, Text, Text, Text, Text, Text, Text, Text, Text, Text, Text,
    Int, Int, Int, Int, Int, Int, Int, Int, Text, Text, Int, Int, Int, Text, Float, Float, Float,
    Int, Text, Int, Text, Int, Int]

  /** `str(float(s))`, or `None` where `float` raises ValueError. Floating-point
      parsing and formatting are not modelled, so the loader takes this as a given. */
  type FloatText = string -> Option<string>

  /** What `str(row[j])` is after the schema loop handled field `s` of type `tag`;
      `None` when `int` or `float` raises ValueError. */
  function RenderField(tag: Tag, s: string, floatText: FloatText): (r: Option<string>)
    ensures s == "" ==> r == Some(Null)
    ensures r == None ==> s != "" && (tag == Int || tag == Float)
  {
    if s == "" then Some(Null)
    else
      match tag
      case Int => (match Numerals.ParseInt(s)
                   case Some(n) => Some(Numerals.Decimal(n))
                   case None => None)
      case Float => floatText(s)
      case Text => Some("'" + s + "'")
      case Date => Some("'" + s + "'")
  }

  /** Removes the surrounding single quotes of a quoted literal. */
  function Unquote(r: string): Option<string>
  {
    if |r| >= 2 && r[0] == '\'' && r[|r| - 1] == '\'' then Some(r[1..|r| - 1]) else None
  }

  /** For every tag but FLOAT the null marker comes from the empty string and from nothing else. */
  lemma NullOnlyForEmpty(tag: Tag, s: string, floatText: FloatText)
    requires tag != Float
    ensures RenderField(tag, s, floatText) == Some(Null) <==> s == ""
  {
    if s != "" && tag != Int {
      assert ("'" + s + "'")[0] == '\'';
    }
  }

  /** A non-empty TEXT or DATE value is wrapped in single quotes verbatim: embedded
      quotes are not escaped, and unquoting gives back the CSV text. */
  lemma QuotedReadsBack(tag: Tag, s: string, floatText: FloatText)
    requires tag == Text || tag == Date
    requires s != ""
    ensures RenderField(tag, s, floatText).Some?
    ensures Unquote(RenderField(tag, s, floatText).value) == Some(s)
    ensures Unquote(Null) == None
  {
    var r := "'" + s + "'";
    assert r[0] == '\'' && r[|r| - 1] == '\'';
    assert r[1..|r| - 1] == s;
  }

  /** A non-empty INT value renders as a decimal literal that `int` reads back as the
      same integer; rendering fails exactly where `int` raises. */
  lemma IntPreservesValue(s: string, floatText: FloatText)
    requires s != ""
    ensures RenderField(Int, s, floatText).Some? <==> Numerals.ParseInt(s).Some?
    ensures RenderField(Int, s, floatText).Some? ==>
              && RenderField(Int, s, floatText).value != Null
              && Numerals.ParseInt(RenderField(Int, s, floatText).value) == Numerals.ParseInt(s)
  {
    if Numerals.ParseInt(s).Some? {
      Numerals.DecimalRoundTrip(Numerals.ParseInt(s).value);
    }
  }

  /** The whole schema loop on one row: `None` if any field raises. */
  function RenderFields(tags: seq<Tag>, fields: seq<string>, floatText: FloatText): (r: Option<seq<string>>)
    requires |tags| == |fields|
    ensures r.Some? <==> forall i | 0 <= i < |tags| :: RenderField(tags[i], fields[i], floatText).Some?
    ensures r.Some? ==> |r.value| == |fields|
    ensures r.Some? ==> forall i | 0 <= i < |tags| :: Some(r.value[i]) == RenderField(tags[i], fields[i], floatText)
  {
    if tags == [] then Some([])
    else
      match RenderField(tags[0], fields[0], floatText)
      case None => None
      case Some(v) =>
        match RenderFields(tags[1..], fields[1..], floatText)
        case None => None
        case Some(vs) => Some([v] + vs)
  }

  /** The schema loop, rewriting `row` in place field by field; it stops, returning
      false, at the first field whose conversion raises. */
  method RenderRow(row: array<string>, floatText: FloatText) returns (ok: bool)
    requires row.Length == |TableSchema|
    modifies row
    ensures ok <==> RenderFields(TableSchema, old(row[..]), floatText).Some?
    ensures ok ==> row[..] == RenderFields(TableSchema, old(row[..]), floatText).value
  {
    for j := 0 to row.Length
      invariant forall k | 0 <= k < j :: Some(row[k]) == RenderField(TableSchema[k], old(row[k]), floatText)
      invariant forall k | j <= k < row.Length :: row[k] == old(row[k])
    {
      var r := RenderField(TableSchema[j], row[j], floatText);
      if r.None? {
        return false;
      }
      row[j] := r.value;
    }
    return true;
  }
}

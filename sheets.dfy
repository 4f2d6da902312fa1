/** `services/sheets.py`: the row shaping on both sides of the spreadsheet.
    The spreadsheet calls themselves (credentials, `row_values`,
    `get_all_values`, `append_row`) are inputs and outputs of these members. */
module Sheets {
  import opened Wrappers
  import opened Text
  import opened Models

  /** The columns of a written row, in the order `append_row` writes them. */
  const ColumnNames: seq<string> := [
    "timestamp_utc_iso", "tg_user_id", "username", "full_name", "answers_json",
    "project_link", "project_note", "scores_json", "overall_score", "top_candidate",
    "llm_model", "latency_ms", "scoring_failed", "error"]

  /** Column positions the admin statistics read back. */
  const OverallColumn: nat := 8
  const TopColumn: nat := 9
  const FailedColumn: nat := 12

  /** `"TRUE" if b else "FALSE"` */
  function BoolCell(b: bool): string {
    if b then "TRUE" else "FALSE"
  }

  /** `s or ""` for an optional string. */
  function OptCell(s: Option<string>): string {
    s.GetOr("")
  }

  /** The value list of a validated row, one cell per column of `ColumnNames`. */
  function SheetValues(row: SheetRow): (vs: seq<string>)
    requires ValidSheetRow(row)
    ensures |vs| == |ColumnNames|
  {
    [ row.timestampUtcIso,
      IntToString(row.tgUserId),
      OptCell(row.username),
      OptCell(row.fullName),
      row.answersJson,
      row.projectLink.value,
      OptCell(row.projectNote),
      row.scoresJson,
      IntToString(row.overallScore),
      BoolCell(row.topCandidate),
      row.llmModel,
      IntToString(row.latencyMs),
      BoolCell(row.scoringFailed),
      OptCell(row.error) ]
  }

  /** The text of the `ValidationError` `SheetRow.model_validate` raises. */
  const RowValidationFailure: string := "SheetRow validation failed"

  /** `append_row`: the row is validated before the spreadsheet is touched.
      `sheetFailure` is the exception text when opening the worksheet or the
      append itself raises. The result is the value list that was appended. */
  function AppendRow(row: SheetRow, sheetFailure: Option<string>): (r: Result<seq<string>>)
    ensures !ValidSheetRow(row) ==> r == Err(RowValidationFailure)
    ensures r.Ok? <==> ValidSheetRow(row) && sheetFailure.None?
    ensures r.Ok? ==> r.value == SheetValues(row)
  {
    if !ValidSheetRow(row) then Err(RowValidationFailure)
    else if sheetFailure.Some? then Err(sheetFailure.value)
    else Ok(SheetValues(row))
  }

  /** `(vals + [""] * n)[:n]` */
  function PadTrim(vals: seq<string>, n: nat): (r: seq<string>)
    ensures |r| == n
    ensures forall i :: 0 <= i < n ==> r[i] == if i < |vals| then vals[i] else ""
  {
    var padded := vals + seq(n, _ => "");
    padded[..n]
  }

  /** `dict(zip(keys, vals))` for sequences of equal length: a repeated key
      keeps its last value. */
  function ZipDict(keys: seq<string>, vals: seq<string>): (d: map<string, string>)
    requires |keys| == |vals|
    ensures forall k :: k in d <==> k in keys
  {
    if keys == [] then map[]
    else
      var n := |keys| - 1;
      assert keys == keys[..n] + [keys[n]];
      var d := ZipDict(keys[..n], vals[..n])[keys[n] := vals[n]];
      d
  }

  /** The value a key gets is the one paired with its last occurrence. */
  lemma {:induction false} ZipDictLast(keys: seq<string>, vals: seq<string>, i: nat)
    requires |keys| == |vals| && i < |keys|
    requires forall j :: i < j < |keys| ==> keys[j] != keys[i]
    ensures ZipDict(keys, vals)[keys[i]] == vals[i]
  {
    var n := |keys| - 1;
    if i < n {
      ZipDictLast(keys[..n], vals[..n], i);
    }
  }

  /** One read row: the header row's names mapped to the cells, padded with
      empty strings or cut to the header length. */
  function RowDict(headers: seq<string>, vals: seq<string>): map<string, string> {
    ZipDict(headers, PadTrim(vals, |headers|))
  }

  /** With distinct headers, a read row has exactly the header names as keys
      and maps header `i` to cell `i`, or to "" where the row is short. */
  lemma RowDictLookup(headers: seq<string>, vals: seq<string>, i: nat)
    requires i < |headers|
    requires forall j, k :: 0 <= j < k < |headers| ==> headers[j] != headers[k]
    ensures forall k :: k in RowDict(headers, vals) <==> k in headers
    ensures RowDict(headers, vals)[headers[i]] == if i < |vals| then vals[i] else ""
  {
    ZipDictLast(headers, PadTrim(vals, |headers|), i);
  }

  lemma ColumnNamesDistinct()
    ensures forall j, k :: 0 <= j < k < |ColumnNames| ==> ColumnNames[j] != ColumnNames[k]
  {
    forall j, k | 0 <= j < k < |ColumnNames|
      ensures ColumnNames[j] != ColumnNames[k]
    {
      var a, b := ColumnNames[j], ColumnNames[k];
      assert |a| != |b| || a[0] != b[0] || a[1] != b[1] || a[|a| - 1] != b[|b| - 1];
    }
  }

  /** A row `append_row` wrote, read back by `fetch_rows` under the header it
      was written with, gives each column its own cell. The lemmas after this
      one spell that out column by column: the text columns come back as
      written, the optional ones as "" where absent, the numbers parse back to
      their values and the flags come back as "TRUE" exactly when set. */
  lemma CellReadBack(vs: seq<string>, i: nat)
    requires |vs| == |ColumnNames| && i < |ColumnNames|
    ensures RowDict(ColumnNames, vs)[ColumnNames[i]] == vs[i]
  {
    ColumnNamesDistinct();
    RowDictLookup(ColumnNames, vs, i);
  }

  /** The time, answers and scores columns read back as written. */
  lemma RecordColumnsReadBack(row: SheetRow)
    requires ValidSheetRow(row)
    ensures var r := RowDict(ColumnNames, SheetValues(row));
      && r["timestamp_utc_iso"] == row.timestampUtcIso
      && r["answers_json"] == row.answersJson
      && r["scores_json"] == row.scoresJson
  {
    var vs := SheetValues(row);
    assert ColumnNames[0] == "timestamp_utc_iso" && ColumnNames[4] == "answers_json" && ColumnNames[7] == "scores_json";
    CellReadBack(vs, 0);
    CellReadBack(vs, 4);
    CellReadBack(vs, 7);
  }

  /** The link and model columns read back as written. */
  lemma LinkAndModelColumnsReadBack(row: SheetRow)
    requires ValidSheetRow(row)
    ensures var r := RowDict(ColumnNames, SheetValues(row));
      && r["project_link"] == row.projectLink.value
      && r["llm_model"] == row.llmModel
  {
    var vs := SheetValues(row);
    assert ColumnNames[5] == "project_link" && ColumnNames[10] == "llm_model";
    CellReadBack(vs, 5);
    CellReadBack(vs, 10);
  }

  /** The user's optional names read back as written, or as "" where absent. */
  lemma NameColumnsReadBack(row: SheetRow)
    requires ValidSheetRow(row)
    ensures var r := RowDict(ColumnNames, SheetValues(row));
      && r["username"] == row.username.GetOr("")
      && r["full_name"] == row.fullName.GetOr("")
  {
    var vs := SheetValues(row);
    assert ColumnNames[2] == "username" && ColumnNames[3] == "full_name";
    CellReadBack(vs, 2);
    CellReadBack(vs, 3);
  }

  /** The optional note and error read back as written, or as "" where absent. */
  lemma NoteAndErrorColumnsReadBack(row: SheetRow)
    requires ValidSheetRow(row)
    ensures var r := RowDict(ColumnNames, SheetValues(row));
      && r["project_note"] == row.projectNote.GetOr("")
      && r["error"] == row.error.GetOr("")
  {
    var vs := SheetValues(row);
    assert ColumnNames[6] == "project_note" && ColumnNames[13] == "error";
    CellReadBack(vs, 6);
    CellReadBack(vs, 13);
  }

  /** A number column parses back to the number written into it. */
  lemma IntCellReadBack(vs: seq<string>, i: nat, n: int)
    requires |vs| == |ColumnNames| && i < |ColumnNames|
    requires vs[i] == IntToString(n)
    ensures ParseInt(RowDict(ColumnNames, vs)[ColumnNames[i]]) == Some(n)
  {
    CellReadBack(vs, i);
    ParseIntRoundTrip(n);
  }

  /** The number columns parse back to their values. */
  lemma NumberColumnsReadBack(row: SheetRow)
    requires ValidSheetRow(row)
    ensures var r := RowDict(ColumnNames, SheetValues(row));
      && ParseInt(r["tg_user_id"]) == Some(row.tgUserId)
      && ParseInt(r["overall_score"]) == Some(row.overallScore)
      && ParseInt(r["latency_ms"]) == Some(row.latencyMs)
  {
    var vs := SheetValues(row);
    assert ColumnNames[1] == "tg_user_id" && ColumnNames[8] == "overall_score" && ColumnNames[11] == "latency_ms";
    IntCellReadBack(vs, 1, row.tgUserId);
    IntCellReadBack(vs, 8, row.overallScore);
    IntCellReadBack(vs, 11, row.latencyMs);
  }

  /** The flags come back as "TRUE" exactly when set. */
  lemma FlagColumnsReadBack(row: SheetRow)
    requires ValidSheetRow(row)
    ensures var r := RowDict(ColumnNames, SheetValues(row));
      && (r["top_candidate"] == "TRUE" <==> row.topCandidate)
      && (r["scoring_failed"] == "TRUE" <==> row.scoringFailed)
  {
    var vs := SheetValues(row);
    assert ColumnNames[9] == "top_candidate" && ColumnNames[12] == "scoring_failed";
    CellReadBack(vs, 9);
    CellReadBack(vs, 12);
  }

  /** A read-back row has exactly the columns' names as keys. */
  lemma KeysReadBack(row: SheetRow)
    requires ValidSheetRow(row)
    ensures forall k :: k in RowDict(ColumnNames, SheetValues(row)) <==> k in ColumnNames
  {
    ColumnNamesDistinct();
    RowDictLookup(ColumnNames, SheetValues(row), 0);
  }

  /** `fetch_rows`: nothing without a header row or without data rows;
      otherwise one dictionary per data row, in sheet order. */
  method FetchRows(headers: seq<string>, allValues: seq<seq<string>>)
    returns (rows: seq<map<string, string>>)
    ensures headers == [] || |allValues| <= 1 ==> rows == []
    ensures headers != [] && |allValues| > 1 ==>
      && |rows| == |allValues| - 1
      && forall i :: 0 <= i < |rows| ==> rows[i] == RowDict(headers, allValues[i + 1])
  {
    rows := [];
    if headers == [] {
      return;
    }
    if |allValues| <= 1 {
      return;
    }
    var k := 1;
    while k < |allValues|
      invariant 1 <= k <= |allValues|
      invariant |rows| == k - 1
      invariant forall i :: 0 <= i < |rows| ==> rows[i] == RowDict(headers, allValues[i + 1])
    {
      var padded := PadTrim(allValues[k], |headers|);
      rows := rows + [ZipDict(headers, padded)];
      k := k + 1;
    }
  }
}

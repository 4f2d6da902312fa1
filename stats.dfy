/** `_render_admin_stats` of `bot/handlers.py` (with its `_to_int` and
    `_to_bool`) and the `/admin top` argument parse. */
module AdminStats {
  import opened Wrappers
  import opened Text
  import opened Models
  import opened Sheets

  /** `_to_int`: `int(x.strip())`, or 0 where `int` raises. */
  function ToInt(x: string): int {
    match ParseInt(Strip(x))
    case Some(v) => v
    case None => 0
  }

  const TrueWords: set<string> := {"true", "1", "yes", "y", "да"}

  /** `_to_bool`: true only for the listed words, in any case and with
      surrounding whitespace. */
  predicate ToBool(x: string) {
    Lower(Strip(x)) in TrueWords
  }

  /** `r.get(key, default)` on a read row: the default only for a missing key. */
  function Cell(r: map<string, string>, key: string, default: string): string {
    if key in r then r[key] else default
  }

  /** One row of the `norm` list. */
  datatype NormRow = NormRow(top: bool, overall: int, failed: bool, display: string, ts: string)

  /** The stats view's name for a candidate: the @-handle, else the full name,
      else "unknown". */
  function StatsDisplay(username: string, fullName: string): (r: string)
    ensures r != []
    ensures username != [] ==> r == "@" + username
    ensures username == [] && fullName != [] ==> r == fullName
    ensures username == [] && fullName == [] ==> r == "unknown"
  {
    if username != [] then "@" + username
    else if fullName != [] then fullName
    else "unknown"
  }

  /** The loop body of `_render_admin_stats` for one kept row. */
  function NormaliseRow(r: map<string, string>): NormRow {
    NormRow(
      ToBool(Cell(r, "top_candidate", "")),
      ToInt(Cell(r, "overall_score", "0")),
      ToBool(Cell(r, "scoring_failed", "false")),
      StatsDisplay(Strip(Cell(r, "username", "")), Strip(Cell(r, "full_name", ""))),
      Strip(Cell(r, "timestamp_utc_iso", "")))
  }

  /** Whether the loop keeps a row: every row, or only the top candidates. */
  predicate Kept(r: map<string, string>, onlyTop: bool) {
    !onlyTop || ToBool(Cell(r, "top_candidate", ""))
  }

  /** How many elements `keep` accepts, counted from the front. */
  function CountWhere<T>(xs: seq<T>, keep: T -> bool): (c: nat)
    ensures c <= |xs|
  {
    if xs == [] then 0
    else (if keep(xs[0]) then 1 else 0) + CountWhere(xs[1..], keep)
  }

  lemma {:induction false} CountWhereAppend<T>(a: seq<T>, b: seq<T>, keep: T -> bool)
    ensures CountWhere(a + b, keep) == CountWhere(a, keep) + CountWhere(b, keep)
    decreases |a|
  {
    if a != [] {
      assert (a + b)[1..] == a[1..] + b;
      CountWhereAppend(a[1..], b, keep);
    } else {
      assert a + b == b;
    }
  }

  /** The list comprehension `[f(x) for x in xs if keep(x)]`, built from the
      back as a loop appending to a list would; one entry per kept element. */
  function KeepMap<T, U>(xs: seq<T>, keep: T -> bool, f: T -> U): (r: seq<U>)
    ensures |r| == CountWhere(xs, keep)
  {
    if xs == [] then []
    else
      var n := |xs| - 1;
      assert xs == xs[..n] + [xs[n]];
      CountWhereAppend(xs[..n], [xs[n]], keep);
      KeepMap(xs[..n], keep, f) + (if keep(xs[n]) then [f(xs[n])] else [])
  }

  /** One more element extends the comprehension by that element's entry. */
  lemma KeepMapStep<T, U>(xs: seq<T>, k: nat, keep: T -> bool, f: T -> U)
    requires k < |xs|
    ensures KeepMap(xs[..k + 1], keep, f) ==
      KeepMap(xs[..k], keep, f) + (if keep(xs[k]) then [f(xs[k])] else [])
  {
    assert xs[..k + 1][..k] == xs[..k];
  }

  /** Every kept element's image is in the comprehension, at the position
      given by the number of kept elements before it. */
  lemma {:induction false} KeepMapComplete<T, U>(xs: seq<T>, keep: T -> bool, f: T -> U, i: int)
    requires 0 <= i < |xs| && keep(xs[i])
    ensures CountWhere(xs[..i], keep) < |KeepMap(xs, keep, f)|
    ensures KeepMap(xs, keep, f)[CountWhere(xs[..i], keep)] == f(xs[i])
  {
    var n := |xs| - 1;
    var front := KeepMap(xs[..n], keep, f);
    assert KeepMap(xs, keep, f) == front + (if keep(xs[n]) then [f(xs[n])] else []);
    if i < n {
      assert xs[..n][i] == xs[i];
      assert xs[..n][..i] == xs[..i];
      KeepMapComplete(xs[..n], keep, f, i);
    } else {
      assert xs[..i] == xs[..n];
    }
  }

  /** Each entry of the comprehension is the image of some kept element. */
  lemma {:induction false} KeepMapSound<T, U>(xs: seq<T>, keep: T -> bool, f: T -> U, j: int)
    requires 0 <= j < |KeepMap(xs, keep, f)|
    ensures exists i :: 0 <= i < |xs| && keep(xs[i]) && KeepMap(xs, keep, f)[j] == f(xs[i])
  {
    var n := |xs| - 1;
    var front := KeepMap(xs[..n], keep, f);
    assert KeepMap(xs, keep, f) == front + (if keep(xs[n]) then [f(xs[n])] else []);
    if j < |front| {
      KeepMapSound(xs[..n], keep, f, j);
      var i :| 0 <= i < n && keep(xs[..n][i]) && front[j] == f(xs[..n][i]);
      assert xs[..n][i] == xs[i];
    } else {
      assert keep(xs[n]) && KeepMap(xs, keep, f)[j] == f(xs[n]);
    }
  }

  /** When every element is kept, the i-th entry is the i-th element's image. */
  lemma {:induction false} KeepMapAll<T, U>(xs: seq<T>, keep: T -> bool, f: T -> U, i: int)
    requires forall x :: keep(x)
    requires 0 <= i < |xs|
    ensures |KeepMap(xs, keep, f)| == |xs|
    ensures KeepMap(xs, keep, f)[i] == f(xs[i])
  {
    var n := |xs| - 1;
    var front := KeepMap(xs[..n], keep, f);
    assert KeepMap(xs, keep, f) == front + [f(xs[n])];
    if n > 0 {
      KeepMapAll(xs[..n], keep, f, if i < n then i else 0);
    } else {
      assert front == [];
    }
    if i < n {
      assert xs[..n][i] == xs[i];
    }
  }

  /** The loop's filter as a function value. */
  function KeepRow(onlyTop: bool): map<string, string> -> bool {
    r => Kept(r, onlyTop)
  }

  /** The `norm` list: the kept rows, normalised, in sheet order, one entry
      per kept row. */
  function NormalisedRows(rows: seq<map<string, string>>, onlyTop: bool): (norm: seq<NormRow>)
    ensures |norm| == CountWhere(rows, KeepRow(onlyTop)) <= |rows|
  {
    KeepMap(rows, KeepRow(onlyTop), NormaliseRow)
  }

  /** Every kept row's normalisation is in `norm`, at the place the loop
      appends it: after one entry for each kept row before it. */
  lemma NormalisedRowsComplete(rows: seq<map<string, string>>, onlyTop: bool, i: int)
    requires 0 <= i < |rows| && Kept(rows[i], onlyTop)
    ensures CountWhere(rows[..i], KeepRow(onlyTop)) < |NormalisedRows(rows, onlyTop)|
    ensures NormalisedRows(rows, onlyTop)[CountWhere(rows[..i], KeepRow(onlyTop))] == NormaliseRow(rows[i])
  {
    KeepMapComplete(rows, KeepRow(onlyTop), NormaliseRow, i);
  }

  /** Each entry of `norm` is the normalisation of a kept row, so with the
      filter it is a top candidate. */
  lemma NormalisedRowsSound(rows: seq<map<string, string>>, onlyTop: bool, j: int)
    requires 0 <= j < |NormalisedRows(rows, onlyTop)|
    ensures exists i :: 0 <= i < |rows| && Kept(rows[i], onlyTop) && NormalisedRows(rows, onlyTop)[j] == NormaliseRow(rows[i])
    ensures onlyTop ==> NormalisedRows(rows, onlyTop)[j].top
  {
    KeepMapSound(rows, KeepRow(onlyTop), NormaliseRow, j);
  }

  /** Without the filter `norm` has one entry per row, the i-th being the
      i-th row's. */
  lemma NormalisedRowsUnfiltered(rows: seq<map<string, string>>, i: int)
    requires 0 <= i < |rows|
    ensures |NormalisedRows(rows, false)| == |rows|
    ensures NormalisedRows(rows, false)[i] == NormaliseRow(rows[i])
  {
    assert forall r :: KeepRow(false)(r);
    KeepMapAll(rows, KeepRow(false), NormaliseRow, i);
  }

  /** The loop that builds `norm`. */
  method Normalise(rows: seq<map<string, string>>, onlyTop: bool) returns (norm: seq<NormRow>)
    ensures norm == NormalisedRows(rows, onlyTop)
  {
    norm := [];
    var k := 0;
    while k < |rows|
      invariant 0 <= k <= |rows|
      invariant norm == NormalisedRows(rows[..k], onlyTop)
    {
      var r := rows[k];
      KeepMapStep(rows, k, KeepRow(onlyTop), NormaliseRow);
      if Kept(r, onlyTop) {
        norm := norm + [NormaliseRow(r)];
      }
      k := k + 1;
    }
    assert rows[..|rows|] == rows;
  }

  function CountTop(norm: seq<NormRow>): nat {
    if norm == [] then 0 else (if norm[0].top then 1 else 0) + CountTop(norm[1..])
  }

  function CountFailed(norm: seq<NormRow>): nat {
    if norm == [] then 0 else (if norm[0].failed then 1 else 0) + CountFailed(norm[1..])
  }

  function SumOverall(norm: seq<NormRow>): int {
    if norm == [] then 0 else norm[0].overall + SumOverall(norm[1..])
  }

  /** A count never exceeds the number of rows counted. */
  lemma {:induction false} CountsBounded(norm: seq<NormRow>)
    ensures CountTop(norm) <= |norm| && CountFailed(norm) <= |norm|
  {
    if norm != [] {
      CountsBounded(norm[1..]);
    }
  }

  /** When every row is a top candidate, the top count is the total. */
  lemma {:induction false} AllTopCounted(norm: seq<NormRow>)
    requires forall i :: 0 <= i < |norm| ==> norm[i].top
    ensures CountTop(norm) == |norm|
  {
    if norm != [] {
      AllTopCounted(norm[1..]);
    }
  }

  /** The sort key `(overall, ts)` in descending order: `a` may precede `b`. */
  predicate KeyGe(a: NormRow, b: NormRow) {
    a.overall > b.overall || (a.overall == b.overall && LexLe(b.ts, a.ts))
  }

  lemma KeyGeTotal(a: NormRow, b: NormRow)
    ensures KeyGe(a, b) || KeyGe(b, a)
  {
    LexLeTotal(a.ts, b.ts);
  }

  lemma KeyGeTransitive(a: NormRow, b: NormRow, c: NormRow)
    requires KeyGe(a, b) && KeyGe(b, c)
    ensures KeyGe(a, c)
  {
    if a.overall == b.overall && b.overall == c.overall {
      LexLeTransitive(c.ts, b.ts, a.ts);
    }
  }

  predicate SortedDesc(s: seq<NormRow>) {
    forall i, j :: 0 <= i < j < |s| ==> KeyGe(s[i], s[j])
  }

  /** Places `x` ahead of the first row it is not below, so that among equal
      keys the earlier row stays first. */
  function Insert(x: NormRow, s: seq<NormRow>): seq<NormRow> {
    if s == [] || KeyGe(x, s[0]) then [x] + s else [s[0]] + Insert(x, s[1..])
  }

  lemma {:induction false} InsertSorted(x: NormRow, s: seq<NormRow>)
    requires SortedDesc(s)
    ensures SortedDesc(Insert(x, s))
    ensures multiset(Insert(x, s)) == multiset(s) + multiset{x}
  {
    if s == [] || KeyGe(x, s[0]) {
      var r := [x] + s;
      forall i, j | 0 <= i < j < |r| ensures KeyGe(r[i], r[j]) {
        if i == 0 && j > 1 {
          KeyGeTransitive(x, s[0], s[j - 1]);
        }
      }
    } else {
      KeyGeTotal(x, s[0]);
      var tail := Insert(x, s[1..]);
      InsertSorted(x, s[1..]);
      var r := [s[0]] + tail;
      assert s == [s[0]] + s[1..];
      forall i, j | 0 <= i < j < |r| ensures KeyGe(r[i], r[j]) {
        if i == 0 {
          var z := r[j];
          assert z in multiset(tail);
          if z == x {
          } else {
            assert z in multiset(s[1..]);
            var k :| 0 <= k < |s[1..]| && s[1..][k] == z;
            assert s[k + 1] == z;
          }
        }
      }
    }
  }

  /** `sorted(norm, key=lambda x: (x["overall"], x["ts"]), reverse=True)`:
      a stable insertion sort, best first. */
  function SortByKeyDesc(s: seq<NormRow>): (r: seq<NormRow>)
    ensures SortedDesc(r)
    ensures multiset(r) == multiset(s)
  {
    if s == [] then []
    else
      var rest := SortByKeyDesc(s[1..]);
      InsertSorted(s[0], rest);
      assert s == [s[0]] + s[1..];
      Insert(s[0], rest)
  }

  /** `[:3]` of the sorted rows. */
  function Top3(norm: seq<NormRow>): seq<NormRow> {
    var sorted := SortByKeyDesc(norm);
    if |sorted| <= 3 then sorted else sorted[..3]
  }

  /** The top three are at most three rows of `norm`, best first, and no row
      left out ranks above any row shown. */
  lemma Top3Best(norm: seq<NormRow>)
    ensures var t := Top3(norm);
      && |t| == (if |norm| < 3 then |norm| else 3)
      && SortedDesc(t)
      && multiset(t) <= multiset(norm)
      && forall x, i :: x in multiset(norm) - multiset(t) && 0 <= i < |t| ==> KeyGe(t[i], x)
  {
    var sorted := SortByKeyDesc(norm);
    var t := Top3(norm);
    assert |sorted| == |norm| by {
      assert |multiset(sorted)| == |multiset(norm)|;
    }
    if |sorted| > 3 {
      var rest := sorted[3..];
      assert sorted == t + rest;
      assert multiset(sorted) == multiset(t) + multiset(rest);
      forall x, i | x in multiset(norm) - multiset(t) && 0 <= i < |t|
        ensures KeyGe(t[i], x)
      {
        assert x in multiset(rest);
        var k :| 0 <= k < |rest| && rest[k] == x;
        assert sorted[3 + k] == x;
      }
    } else {
      assert multiset(norm) - multiset(t) == multiset{};
    }
  }

  /** What the admin sees: no rows at all, no rows left by the top filter, or
      the counts and the best three. The average is `overallSum / total`. */
  datatype StatsView =
    | NoPasses
    | NoTopCandidates
    | Summary(onlyTop: bool, total: nat, overallSum: int, topCount: nat,
              failedCount: nat, top3: seq<NormRow>)

  /** `_render_admin_stats` on the rows `fetch_rows` returned. */
  method RenderAdminStats(rows: seq<map<string, string>>, onlyTop: bool) returns (view: StatsView)
    ensures view.NoPasses? <==> rows == []
    ensures view.NoTopCandidates? <==> rows != [] && NormalisedRows(rows, onlyTop) == []
    ensures view.NoTopCandidates? ==> onlyTop
    ensures view.Summary? ==>
      var norm := NormalisedRows(rows, onlyTop);
      && view == Summary(onlyTop, |norm|, SumOverall(norm), CountTop(norm), CountFailed(norm), Top3(norm))
      && view.topCount <= view.total && view.failedCount <= view.total
      && (onlyTop ==> view.topCount == view.total)
  {
    if rows == [] {
      return NoPasses;
    }
    var norm := Normalise(rows, onlyTop);
    if !onlyTop {
      NormalisedRowsUnfiltered(rows, 0);
    }
    if norm == [] {
      return NoTopCandidates;
    }
    CountsBounded(norm);
    if onlyTop {
      forall j | 0 <= j < |norm|
        ensures norm[j].top
      {
        NormalisedRowsSound(rows, onlyTop, j);
      }
      AllTopCounted(norm);
    }
    view := Summary(onlyTop, |norm|, SumOverall(norm), CountTop(norm), CountFailed(norm), Top3(norm));
  }

  /** `/admin top`: the text's second whitespace-separated part, stripped and
      lower-cased, is "top" or "топ". */
  function ParseAdminTop(text: Option<string>): (onlyTop: bool)
    ensures onlyTop ==> text.Some? && |SplitFirstToken(Strip(text.value))| == 2
  {
    if text.None? || text.value == [] then false
    else
      var parts := SplitFirstToken(Strip(text.value));
      |parts| == 2 && Lower(Strip(parts[1])) in {"top", "топ"}
  }

  /** "/admin top" filters to the top candidates. */
  lemma AdminTopEnglish()
    ensures ParseAdminTop(Some("/admin top"))
  {
    assert Lower("top") == "top";
    SplitCommand("/admin top", "top");
  }

  /** So does the Russian "/admin ТОП", in any letter case. */
  lemma AdminTopRussian()
    ensures ParseAdminTop(Some("/admin ТОП"))
  {
    assert Lower("ТОП") == "топ";
    SplitCommand("/admin ТОП", "ТОП");
  }

  /** A bare "/admin" shows every row. */
  lemma AdminBare()
    ensures !ParseAdminTop(Some("/admin"))
  {
    StripTrimmed("/admin");
    assert FirstSpace("/admin") == 6;
  }

  lemma SplitCommand(text: string, arg: string)
    requires |arg| > 0 && text == "/admin " + arg
    requires forall i :: 0 <= i < |arg| ==> !IsSpace(arg[i])
    ensures Strip(text) == text
    ensures SplitFirstToken(text) == ["/admin", arg]
    ensures Strip(arg) == arg
  {
    assert FirstSpace(text[..6]) == 6;
    FirstSpaceConcat(text[..6], text[6..]);
    assert text == text[..6] + text[6..];
    assert text[6..][1..] == arg;
    assert LStrip(text) == text;
    assert LStrip(text[6..]) == LStrip(arg) == arg;
    assert text[..6] == "/admin";
    StripTrimmed(text);
    StripTrimmed(arg);
  }

  lemma {:induction false} FirstSpaceConcat(a: string, b: string)
    requires FirstSpace(a) == |a| && b != [] && IsSpace(b[0])
    ensures FirstSpace(a + b) == |a|
  {
    if a != [] {
      assert (a + b)[1..] == a[1..] + b;
      FirstSpaceConcat(a[1..], b);
    } else {
      assert a + b == b;
    }
  }

  /** The read-back of a written row: `_to_bool` and `_to_int` recover the
      top flag, the failure flag and the overall score `append_row` wrote. */
  lemma ReadBack(row: SheetRow)
    requires ValidSheetRow(row)
    ensures var r := RowDict(ColumnNames, SheetValues(row));
      && ToBool(Cell(r, "top_candidate", "")) == row.topCandidate
      && ToInt(Cell(r, "overall_score", "0")) == row.overallScore
      && ToBool(Cell(r, "scoring_failed", "false")) == row.scoringFailed
  {
    var vs := SheetValues(row);
    var r := RowDict(ColumnNames, vs);
    ZipDictLast(ColumnNames, PadTrim(vs, |ColumnNames|), OverallColumn);
    ZipDictLast(ColumnNames, PadTrim(vs, |ColumnNames|), TopColumn);
    ZipDictLast(ColumnNames, PadTrim(vs, |ColumnNames|), FailedColumn);
    BoolCellReadBack(row.topCandidate);
    BoolCellReadBack(row.scoringFailed);
    IntCellReadBack(row.overallScore);
  }

  lemma BoolCellReadBack(b: bool)
    ensures ToBool(BoolCell(b)) == b
  {
    if b {
      StripTrimmed("TRUE");
      assert Lower("TRUE") == "true";
    } else {
      StripTrimmed("FALSE");
      assert Lower("FALSE") == "false";
    }
  }

  lemma IntCellReadBack(n: int)
    ensures ToInt(IntToString(n)) == n
  {
    ParseIntRoundTrip(n);
    StripIdempotent(IntToString(n));
  }
}

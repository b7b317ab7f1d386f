/** The query logic of the FastAPI backend: the `/indices` listing, the `/history`
    filter, and the routing of a request to them. The table `df` is a parameter
    (already loaded, with unparseable dates dropped), and so is pandas'
    `to_datetime` for the query's date strings. */
module Backend {
  import opened Types

  // ---------------------------------------------------------------------------
  // Python's str.strip() and str.lower() on ASCII

  /** `str.isspace()` on ASCII: tab, line feed, vertical tab, form feed, carriage
      return, the separators 0x1C-0x1F, and space. */
  predicate IsSpace(c: char) {
    var n := c as int;
    (9 <= n <= 13) || (28 <= n <= 31) || n == 32
  }

  function LowerChar(c: char): char {
    if 'A' <= c <= 'Z' then (c as int + 32) as char else c
  }

  /** `str.lower()`: every character lowered in place. */
  function Lower(s: string): (r: string)
    ensures |r| == |s|
    ensures forall i :: 0 <= i < |s| ==> r[i] == LowerChar(s[i])
  {
    if s == [] then [] else [LowerChar(s[0])] + Lower(s[1..])
  }

  /** `str.lstrip()`: the longest suffix that does not start with whitespace. */
  function TrimStart(s: string): (r: string)
    ensures |r| <= |s| && r == s[|s| - |r|..]
    ensures forall k :: 0 <= k < |s| - |r| ==> IsSpace(s[k])
    ensures r != [] ==> !IsSpace(r[0])
  {
    if s != [] && IsSpace(s[0]) then TrimStart(s[1..]) else s
  }

  /** `str.rstrip()`: the longest prefix that does not end with whitespace. */
  function TrimEnd(s: string): (r: string)
    ensures |r| <= |s| && r == s[..|r|]
    ensures forall k :: |r| <= k < |s| ==> IsSpace(s[k])
    ensures r != [] ==> !IsSpace(r[|r| - 1])
  {
    if s != [] && IsSpace(s[|s| - 1]) then TrimEnd(s[..|s| - 1]) else s
  }

  /** `r` is what remains of `s` once the whitespace on both ends is cut off. */
  ghost predicate IsStripOf(r: string, s: string) {
    exists i, j | 0 <= i <= j <= |s| ::
      && r == s[i..j]
      && (forall k | 0 <= k < i :: IsSpace(s[k]))
      && (forall k | j <= k < |s| :: IsSpace(s[k]))
      && (r != [] ==> !IsSpace(r[0]) && !IsSpace(r[|r| - 1]))
  }

  /** `str.strip()`. */
  function Strip(s: string): (r: string)
    ensures IsStripOf(r, s)
  {
    var t := TrimStart(s);
    var r := TrimEnd(t);
    var i := |s| - |t|;
    assert r == s[i..i + |r|];
    assert forall k | i + |r| <= k < |s| :: IsSpace(s[k]) by {
      forall k | i + |r| <= k < |s| ensures IsSpace(s[k]) {
        assert s[k] == t[k - i];
      }
    }
    r
  }

  /** The normalisation both sides of the name comparison go through: strip, then lower. */
  function Normalize(s: string): string {
    Lower(Strip(s))
  }

  lemma LowerKeepsSpace(c: char)
    ensures IsSpace(LowerChar(c)) == IsSpace(c)
  {
  }

  lemma {:induction false} LowerIdempotent(s: string)
    ensures Lower(Lower(s)) == Lower(s)
  {
    var a, b := Lower(Lower(s)), Lower(s);
    assert |a| == |b|;
    forall i | 0 <= i < |a| ensures a[i] == b[i] {
      assert a[i] == LowerChar(b[i]);
    }
  }

  /** A string without whitespace at either end is left alone by strip(). */
  lemma {:induction false} StripOfTrimmed(t: string)
    requires t != [] ==> !IsSpace(t[0]) && !IsSpace(t[|t| - 1])
    ensures Strip(t) == t
  {
    assert TrimStart(t) == t;
    assert TrimEnd(t) == t;
  }

  /** Normalising twice is normalising once. */
  lemma {:induction false} NormalizeIdempotent(s: string)
    ensures Normalize(Normalize(s)) == Normalize(s)
  {
    var t := Strip(s);
    var u := Lower(t);
    if u != [] {
      LowerKeepsSpace(t[0]);
      LowerKeepsSpace(t[|t| - 1]);
    }
    StripOfTrimmed(u);
    LowerIdempotent(t);
  }

  // ---------------------------------------------------------------------------
  // GET /history

  /** The name condition: both sides stripped and lower-cased, then compared. */
  predicate NameMatches(row: Row, indexName: string) {
    Normalize(row.indexName) == Normalize(indexName)
  }

  /** Matching ignores padding and letter case in the query: a query and its
      normalised form select the same rows. */
  lemma {:induction false} NameMatchIgnoresQueryForm(row: Row, indexName: string)
    ensures NameMatches(row, indexName) <==> NameMatches(row, Normalize(indexName))
  {
    NormalizeIdempotent(indexName);
  }

  /** A boolean mask applied to a table (`df[mask]`): the rows kept, in their order. */
  function Filter(s: seq<Row>, keep: Row -> bool): (r: seq<Row>)
    ensures forall x :: multiset(r)[x] == if keep(x) then multiset(s)[x] else 0
  {
    if s == [] then []
    else
      assert s == [s[0]] + s[1..];
      (if keep(s[0]) then [s[0]] else []) + Filter(s[1..], keep)
  }

  predicate SortedByDate(s: seq<Row>) {
    forall i, j :: 0 <= i < j < |s| ==> s[i].indexDate <= s[j].indexDate
  }

  lemma {:induction false} PrependKeepsDateOrder(y: Row, t: seq<Row>)
    requires SortedByDate(t)
    requires forall z :: z in t ==> y.indexDate <= z.indexDate
    ensures SortedByDate([y] + t)
  {
    var u := [y] + t;
    forall i, j | 0 <= i < j < |u| ensures u[i].indexDate <= u[j].indexDate {
      assert u[j] == t[j - 1];
      if i > 0 {
        assert u[i] == t[i - 1];
      } else {
        assert t[j - 1] in t;
      }
    }
  }

  lemma {:induction false} HeadHasLeastDate(s: seq<Row>)
    requires SortedByDate(s) && s != []
    ensures forall z :: z in s ==> s[0].indexDate <= z.indexDate
  {
    forall z | z in s ensures s[0].indexDate <= z.indexDate {
      var k :| 0 <= k < |s| && s[k] == z;
    }
  }

  /** Puts one row into a date-sorted table. */
  function InsertByDate(x: Row, s: seq<Row>): (r: seq<Row>)
    requires SortedByDate(s)
    ensures SortedByDate(r)
    ensures multiset(r) == multiset(s) + multiset{x}
  {
    if s == [] then [x]
    else if x.indexDate <= s[0].indexDate then
      HeadHasLeastDate(s);
      PrependKeepsDateOrder(x, s);
      [x] + s
    else
      assert s == [s[0]] + s[1..];
      var rest := InsertByDate(x, s[1..]);
      assert forall z :: z in rest ==> s[0].indexDate <= z.indexDate by {
        HeadHasLeastDate(s);
        forall z | z in rest ensures s[0].indexDate <= z.indexDate {
          assert z in multiset(rest);
          assert z == x || z in multiset(s[1..]);
        }
      }
      PrependKeepsDateOrder(s[0], rest);
      [s[0]] + rest
  }

  /** `sort_values("index_date")`: the same rows, ascending by date. */
  function SortByDate(s: seq<Row>): (r: seq<Row>)
    ensures SortedByDate(r)
    ensures multiset(r) == multiset(s)
  {
    if s == [] then []
    else
      assert s == [s[0]] + s[1..];
      InsertByDate(s[0], SortByDate(s[1..]))
  }

  /** A date bound from the query: no bound unless the argument is truthy, in which
      case pandas parses it (and a failed parse raises). */
  function ParseBound(arg: Option<string>, toDatetime: string -> Result<Date, string>): Result<Option<Date>, string> {
    if !PyTruthy(arg) then Ok(None)
    else match toDatetime(arg.value)
      case Ok(d) => Ok(Some(d))
      case Err(e) => Err(e)
  }

  /** The inclusive date conditions, each applied only when its bound is given
      (bounds already parsed). */
  predicate InBounds(row: Row, lo: Option<Date>, hi: Option<Date>) {
    && (lo.Some? ==> lo.value <= row.indexDate)
    && (hi.Some? ==> row.indexDate <= hi.value)
  }

  /** All the row conditions of a history query: the name and both date bounds. */
  predicate Wanted(row: Row, indexName: string, lo: Option<Date>, hi: Option<Date>) {
    NameMatches(row, indexName) && InBounds(row, lo, hi)
  }

  /** `filtered[filtered["index_date"] >= start]` when a start is given. */
  function ApplyStart(s: seq<Row>, lo: Option<Date>): (r: seq<Row>)
    ensures forall x :: multiset(r)[x] == if InBounds(x, lo, None) then multiset(s)[x] else 0
  {
    if lo.Some? then var d := lo.value; Filter(s, (row: Row) => row.indexDate >= d) else s
  }

  /** `filtered[filtered["index_date"] <= end]` when an end is given. */
  function ApplyEnd(s: seq<Row>, hi: Option<Date>): (r: seq<Row>)
    ensures forall x :: multiset(r)[x] == if InBounds(x, None, hi) then multiset(s)[x] else 0
  {
    if hi.Some? then var d := hi.value; Filter(s, (row: Row) => row.indexDate <= d) else s
  }

  /** The name mask and the two date masks in turn: what is left is exactly the
      wanted rows of the table, each as often as the table holds it. */
  function SelectRows(df: seq<Row>, indexName: string, lo: Option<Date>, hi: Option<Date>): (r: seq<Row>)
    ensures forall x :: multiset(r)[x] == if Wanted(x, indexName, lo, hi) then multiset(df)[x] else 0
  {
    var byName := Filter(df, (row: Row) => NameMatches(row, indexName));
    ApplyEnd(ApplyStart(byName, lo), hi)
  }

  const NoDataMessage := "No data found for this index and date range"

  /** A successful `/history` body: exactly the wanted rows (with their multiplicity),
      ascending by date, and the message field exactly when there are none. */
  ghost predicate IsHistoryBody(r: Envelope, df: seq<Row>, indexName: string, lo: Option<Date>, hi: Option<Date>) {
    && r.indices.None? && r.predictions.None? && r.error.None?
    && r.data.Some?
    && SortedByDate(r.data.value)
    && multiset(r.data.value) == multiset(SelectRows(df, indexName, lo, hi))
    && (r.message.Some? <==> r.data.value == [])
    && (r.message.Some? ==> r.message.value == NoDataMessage)
  }

  /** `get_history`: the rows of `df` for one index within optional inclusive date
      bounds, sorted by date; an exception (a date that does not parse) becomes an
      envelope holding only `error`. The start date is parsed before the end date,
      so its error is the one reported when both fail. */
  function GetHistory(
    df: seq<Row>, indexName: string, startDate: Option<string>, endDate: Option<string>,
    toDatetime: string -> Result<Date, string>): (r: Envelope)
    ensures ParseBound(startDate, toDatetime).Err? ==>
      r == EmptyEnvelope.(error := Some(ParseBound(startDate, toDatetime).error))
    ensures ParseBound(startDate, toDatetime).Ok? && ParseBound(endDate, toDatetime).Err? ==>
      r == EmptyEnvelope.(error := Some(ParseBound(endDate, toDatetime).error))
    ensures ParseBound(startDate, toDatetime).Ok? && ParseBound(endDate, toDatetime).Ok? ==>
      IsHistoryBody(r, df, indexName, ParseBound(startDate, toDatetime).value, ParseBound(endDate, toDatetime).value)
  {
    match ParseBound(startDate, toDatetime)
    case Err(e) => EmptyEnvelope.(error := Some(e))
    case Ok(lo) =>
      match ParseBound(endDate, toDatetime)
      case Err(e) => EmptyEnvelope.(error := Some(e))
      case Ok(hi) =>
        var filtered := SelectRows(df, indexName, lo, hi);
        if filtered == [] then
          EmptyEnvelope.(data := Some([]), message := Some(NoDataMessage))
        else
          EmptyEnvelope.(data := Some(SortByDate(filtered)))
  }

  /** Soundness: every row returned is one of the table's rows and meets the name
      condition and each date bound that was given. */
  lemma GetHistorySound(
    df: seq<Row>, indexName: string, startDate: Option<string>, endDate: Option<string>,
    toDatetime: string -> Result<Date, string>, x: Row)
    requires ParseBound(startDate, toDatetime).Ok? && ParseBound(endDate, toDatetime).Ok?
    requires x in GetHistory(df, indexName, startDate, endDate, toDatetime).data.value
    ensures x in df
    ensures Wanted(x, indexName, ParseBound(startDate, toDatetime).value, ParseBound(endDate, toDatetime).value)
  {
    var r := GetHistory(df, indexName, startDate, endDate, toDatetime);
    var lo, hi := ParseBound(startDate, toDatetime).value, ParseBound(endDate, toDatetime).value;
    assert IsHistoryBody(r, df, indexName, lo, hi);
    assert multiset(r.data.value)[x] > 0;
    assert multiset(SelectRows(df, indexName, lo, hi))[x] > 0;
  }

  /** Completeness: every row of the table that meets the conditions is returned. */
  lemma GetHistoryComplete(
    df: seq<Row>, indexName: string, startDate: Option<string>, endDate: Option<string>,
    toDatetime: string -> Result<Date, string>, x: Row)
    requires ParseBound(startDate, toDatetime).Ok? && ParseBound(endDate, toDatetime).Ok?
    requires x in df
    requires Wanted(x, indexName, ParseBound(startDate, toDatetime).value, ParseBound(endDate, toDatetime).value)
    ensures x in GetHistory(df, indexName, startDate, endDate, toDatetime).data.value
  {
    var lo, hi := ParseBound(startDate, toDatetime).value, ParseBound(endDate, toDatetime).value;
    assert multiset(df)[x] > 0;
    assert multiset(SelectRows(df, indexName, lo, hi))[x] > 0;
  }

  // ---------------------------------------------------------------------------
  // GET /indices

  /** Python's `<` on `str`: lexicographic by code point. */
  predicate StrLess(a: string, b: string)
    decreases |a|
  {
    b != [] && (a == [] || a[0] < b[0] || (a[0] == b[0] && StrLess(a[1..], b[1..])))
  }

  lemma {:induction false} StrLessIrreflexive(a: string)
    ensures !StrLess(a, a)
    decreases |a|
  {
    if a != [] {
      StrLessIrreflexive(a[1..]);
    }
  }

  lemma {:induction false} StrLessTransitive(a: string, b: string, c: string)
    requires StrLess(a, b) && StrLess(b, c)
    ensures StrLess(a, c)
    decreases |a|
  {
    if a != [] && a[0] == b[0] && b[0] == c[0] {
      StrLessTransitive(a[1..], b[1..], c[1..]);
    }
  }

  lemma {:induction false} StrLessTotal(a: string, b: string)
    ensures a == b || StrLess(a, b) || StrLess(b, a)
    decreases |a|
  {
    if a != [] && b != [] && a[0] == b[0] {
      StrLessTotal(a[1..], b[1..]);
      if a[1..] == b[1..] {
        assert a == [a[0]] + a[1..] && b == [b[0]] + b[1..];
      }
    }
  }

  /** Ascending with no repeats. */
  predicate StrictlySorted(s: seq<string>) {
    forall i, j :: 0 <= i < j < |s| ==> StrLess(s[i], s[j])
  }

  lemma {:induction false} PrependKeepsStrictOrder(y: string, t: seq<string>)
    requires StrictlySorted(t)
    requires forall z :: z in t ==> StrLess(y, z)
    ensures StrictlySorted([y] + t)
  {
    var u := [y] + t;
    forall i, j | 0 <= i < j < |u| ensures StrLess(u[i], u[j]) {
      assert u[j] == t[j - 1];
      if i > 0 {
        assert u[i] == t[i - 1];
      } else {
        assert t[j - 1] in t;
      }
    }
  }

  lemma {:induction false} HeadIsLeast(s: seq<string>)
    requires StrictlySorted(s) && s != []
    ensures forall z :: z in s[1..] ==> StrLess(s[0], z)
  {
    forall z | z in s[1..] ensures StrLess(s[0], z) {
      var k :| 0 <= k < |s[1..]| && s[1..][k] == z;
      assert s[k + 1] == z;
    }
  }

  /** Adds one name to a strictly sorted list of distinct names. */
  function InsertName(x: string, s: seq<string>): (r: seq<string>)
    requires StrictlySorted(s)
    ensures StrictlySorted(r)
    ensures forall y :: y in r <==> y == x || y in s
  {
    if s == [] then [x]
    else if x == s[0] then s
    else if StrLess(x, s[0]) then
      assert forall z :: z in s ==> StrLess(x, z) by {
        HeadIsLeast(s);
        forall z | z in s ensures StrLess(x, z) {
          if z != s[0] {
            assert z in s[1..] by { assert s == [s[0]] + s[1..]; }
            StrLessTransitive(x, s[0], z);
          }
        }
      }
      PrependKeepsStrictOrder(x, s);
      [x] + s
    else
      assert s == [s[0]] + s[1..];
      var rest := InsertName(x, s[1..]);
      assert forall z :: z in rest ==> StrLess(s[0], z) by {
        HeadIsLeast(s);
        StrLessTotal(x, s[0]);
      }
      PrependKeepsStrictOrder(s[0], rest);
      [s[0]] + rest
  }

  /** `sorted(unique(names))`. */
  function SortedUnique(names: seq<string>): (r: seq<string>)
    ensures StrictlySorted(r)
    ensures forall y :: y in r <==> y in names
  {
    if names == [] then []
    else
      assert names == [names[0]] + names[1..];
      InsertName(names[0], SortedUnique(names[1..]))
  }

  lemma SameElementsBothEmpty(a: seq<string>, b: seq<string>)
    requires forall y :: y in a <==> y in b
    ensures a == [] <==> b == []
  {
    if a != [] {
      assert a[0] in b;
    }
    if b != [] {
      assert b[0] in a;
    }
  }

  /** There is only one strictly ascending list of a given set of names, so any
      `sorted(unique(...))` gives the list `SortedUnique` gives. */
  lemma {:induction false} StrictlySortedUnique(a: seq<string>, b: seq<string>)
    requires StrictlySorted(a) && StrictlySorted(b)
    requires forall y :: y in a <==> y in b
    ensures a == b
    decreases |a|
  {
    SameElementsBothEmpty(a, b);
    if a != [] {
      HeadIsLeast(a);
      HeadIsLeast(b);
      assert a == [a[0]] + a[1..] && b == [b[0]] + b[1..];
      assert a[0] in a && b[0] in b;
      StrLessIrreflexive(a[0]);
      StrLessIrreflexive(b[0]);
      if a[0] != b[0] {
        assert a[0] in b[1..] && b[0] in a[1..];
        StrLessTransitive(a[0], b[0], a[0]);
        assert false;
      }
      forall y ensures y in a[1..] <==> y in b[1..] {
        if y in a[1..] {
          assert y != a[0] && y in a;
        }
        if y in b[1..] {
          assert y != b[0] && y in b;
        }
      }
      StrictlySortedUnique(a[1..], b[1..]);
    }
  }

  /** The `index_name` column. */
  function Names(df: seq<Row>): (r: seq<string>)
    ensures |r| == |df|
    ensures forall i :: 0 <= i < |df| ==> r[i] == df[i].indexName
  {
    if df == [] then [] else [df[0].indexName] + Names(df[1..])
  }

  /** `get_indices`: the table's index names, ascending, each once. */
  function GetIndices(df: seq<Row>): (r: Envelope)
    ensures r.data.None? && r.predictions.None? && r.message.None? && r.error.None?
    ensures r.indices.Some?
    ensures StrictlySorted(r.indices.value)
    ensures forall y :: y in r.indices.value <==> exists row :: row in df && row.indexName == y
  {
    var names := Names(df);
    assert forall y :: y in names <==> exists row :: row in df && row.indexName == y by {
      forall y ensures y in names <==> exists row :: row in df && row.indexName == y {
        if y in names {
          var i :| 0 <= i < |names| && names[i] == y;
          assert df[i] in df;
        }
        if exists row :: row in df && row.indexName == y {
          var row :| row in df && row.indexName == y;
          var i :| 0 <= i < |df| && df[i] == row;
          assert names[i] == y;
        }
      }
    }
    EmptyEnvelope.(indices := Some(SortedUnique(names)))
  }

  // ---------------------------------------------------------------------------
  // Routing

  /** A query parameter as the handler's `str` argument: absent unless it was sent. */
  function StrParam(params: Params, key: string): Option<string> {
    if key in params && params[key].Text? then Some(params[key].text) else None
  }

  /** How the app answers a GET: the two data routes, a validation error when the
      required `index_name` is missing, and "not found" for every other path. */
  function Handle(df: seq<Row>, toDatetime: string -> Result<Date, string>, req: Request): (r: HttpResult)
    ensures req.path == "/indices" ==> r == Response(GetIndices(df))
    ensures req.path == "/history" && StrParam(req.params, "index_name").Some? ==>
      r == Response(GetHistory(df, StrParam(req.params, "index_name").value,
                               StrParam(req.params, "start_date"), StrParam(req.params, "end_date"), toDatetime))
    ensures req.path == "/history" && StrParam(req.params, "index_name").None? ==> r.Failed?
    ensures req.path != "/indices" && req.path != "/history" ==> r.Failed?
  {
    if req.path == "/indices" then Response(GetIndices(df))
    else if req.path == "/history" then
      match StrParam(req.params, "index_name")
      case None => Failed("422 Unprocessable Entity")
      case Some(name) =>
        Response(GetHistory(df, name, StrParam(req.params, "start_date"), StrParam(req.params, "end_date"), toDatetime))
    else Failed("404 Not Found")
  }
}

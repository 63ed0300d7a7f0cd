/** The DAX query client: lists the semantic models (datasets) of a
    workspace with the Power BI REST API, selects one, and runs DAX queries
    against it, printing each result as a small text table.

    The REST API is an `Api`: the delivery it makes for the `k`-th call of
    the session (the dataset listing is call 0, the `i`-th query call
    `1 + i`). `json.loads` is an abstract `Decoder` and `json.dumps(indent=2)`
    an abstract `Dumps`. */
module DaxQuery {
  import opened Wrappers
  import opened Text
  import opened Py
  import opened Http
  import Console

  // ---------------------------------------------------------------------
  // Requests
  // ---------------------------------------------------------------------

  /** One HTTP call: URL, headers and, for a POST, the JSON body. */
  datatype Call = Call(url: string, headers: map<string, string>, body: Option<Json>)

  type Api = (nat, Call) -> Delivery

  /** `json.dumps(v, indent=2)`, left abstract. */
  type Dumps = Json -> string

  const ApiBase := "https://api.powerbi.com/v1.0/myorg"

  /** The `executeQueries` body: exactly one query, the DAX text. */
  function DaxBody(dax: string): (b: Json)
    ensures b.Obj? && |b.fields| == 1
    ensures Lookup(b.fields, "queries") == Some(Arr([Obj([("query", Str(dax))])]))
  {
    Obj([("queries", Arr([Obj([("query", Str(dax))])]))])
  }

  /** The GET of `list_datasets`. */
  function ListCall(token: string, workspace: string): Call
  {
    Call(ApiBase + "/groups/" + workspace + "/datasets", map["Authorization" := Bearer(token)], None)
  }

  /** The POST of `execute_dax`; the dataset id is written into the URL as
      `str()` writes it. */
  function ExecuteCall(token: string, datasetId: Json, dax: string): Call
  {
    Call(ApiBase + "/datasets/" + Show(datasetId) + "/executeQueries",
         map["Authorization" := Bearer(token), "Content-Type" := "application/json"],
         Some(DaxBody(dax)))
  }

  /** `list_datasets`: the response's `value`, or `[]` when it has none. */
  function ListDatasets(d: Delivery, decode: Decoder): (r: Outcome<Json>)
    ensures CheckedJson(d, decode).Raised? ==> r == Raised(CheckedJson(d, decode).exc)
    ensures CheckedJson(d, decode).Ok? && CheckedJson(d, decode).value.Obj? ==>
              r == Ok(Lookup(CheckedJson(d, decode).value.fields, "value").GetOr(Arr([])))
  {
    var body :- CheckedJson(d, decode);
    Get(body, "value", Arr([]))
  }

  // ---------------------------------------------------------------------
  // Rendering a result
  // ---------------------------------------------------------------------

  const MaxRows: nat := 20
  const NoRows := "  (no rows returned)"

  /** The line that reports the rows beyond the first twenty. */
  function Overflow(n: nat): string
    requires n > MaxRows
  {
    "    ... (" + NatToString(n - MaxRows) + " more rows)"
  }

  /** The keys of a row, in order. */
  function ColumnsOf(fields: seq<(string, Json)>): (cols: seq<string>)
    ensures |cols| == |fields| && forall i :: 0 <= i < |fields| ==> cols[i] == fields[i].0
  {
    seq(|fields|, i requires 0 <= i < |fields| => fields[i].0)
  }

  /** The cells of a row for the given columns: a missing cell is `""`. */
  function Cells(fields: seq<(string, Json)>, columns: seq<string>): (cells: seq<string>)
    ensures |cells| == |columns|
    ensures forall i :: 0 <= i < |columns| ==>
              cells[i] == if HasKey(fields, columns[i]) then Show(Lookup(fields, columns[i]).value) else ""
  {
    seq(|columns|, i requires 0 <= i < |columns| => Show(Lookup(fields, columns[i]).GetOr(Str(""))))
  }

  /** The line of a dict row: its cells, indented and separated by ` | `. */
  function RowText(fields: seq<(string, Json)>, columns: seq<string>): string
  {
    "    " + Join(Cells(fields, columns), " | ")
  }

  /** The printed line of one row. With no columns nothing is looked up, so
      any row prints as an empty line; otherwise a row must be a dict. */
  function RowLine(row: Json, columns: seq<string>): (r: Outcome<string>)
    ensures row.Obj? ==> r == Ok(RowText(row.fields, columns))
    ensures r.Raised? <==> columns != [] && !row.Obj?
  {
    if columns == [] then Ok("    " + Join([], " | "))
    else
      match row
      case Obj(fields) => Ok(RowText(fields, columns))
      case _ => Raised(NoAttribute(row, "get"))
  }

  /** The rows, one line each: line `i` is row `i`, until a row raises. */
  function RowLines(rows: seq<Json>, columns: seq<string>): (p: Printed)
    ensures p.raised.None? <==> forall i :: 0 <= i < |rows| ==> RowLine(rows[i], columns).Ok?
    ensures |p.lines| <= |rows|
    ensures p.raised.None? ==> |p.lines| == |rows|
    ensures forall i :: 0 <= i < |p.lines| ==> RowLine(rows[i], columns) == Ok(p.lines[i])
  {
    var os := seq(|rows|, i requires 0 <= i < |rows| => RowLine(rows[i], columns));
    assert forall i :: 0 <= i < |rows| ==> os[i] == RowLine(rows[i], columns);
    Lines(os)
  }

  /** The rows of the first table of one entry of `results`: `[{}]` when
      `tables` is missing, so no rows. */
  function RowsOf(entry: Json): Outcome<Json>
  {
    var tables :- Get(entry, "tables", Arr([Obj([])]));
    var first :- First(tables);
    Get(first, "rows", Arr([]))
  }

  /** The lines printed for one table's rows: the columns (the first row's
      keys), the full row count, a blank line, at most twenty rows, and the
      overflow line. */
  function RowsLines(rows: Json): Printed
  {
    if !Truthy(rows) then Printed([NoRows], None)
    else
      match First(rows)
      case Raised(x) => Stop(x)
      case Ok(head) =>
        match Keys(head)
        case Raised(x) => Stop(x)
        case Ok(columns) =>
          Then(Printed(["  Columns: " + Join(columns, ", ")], None),
               match Len(rows)
               case Raised(x) => Stop(x)
               case Ok(n) =>
                 Then(Printed(["  Rows: " + NatToString(n), ""], None),
                      match Prefix(rows, MaxRows)
                      case Raised(x) => Stop(x)
                      case Ok(shown) =>
                        match Iterate(shown)
                        case Raised(x) => Stop(x)
                        case Ok(rs) =>
                          Then(RowLines(rs, columns), Printed(Tail(n), None))))
  }

  /** The lines printed for one entry of `results`. */
  function TableLines(entry: Json): Printed
  {
    match RowsOf(entry)
    case Raised(x) => Stop(x)
    case Ok(rows) => RowsLines(rows)
  }

  function TablesLines(entries: seq<Json>): (p: Printed)
    ensures entries == [] ==> p == Printed([], None)
  {
    if entries == [] then Printed([], None)
    else Then(TablesLines(entries[..|entries| - 1]), TableLines(entries[|entries| - 1]))
  }

  /** The entries of `results` print one after another, in order: the
      lines of `a + b` are those of `a` followed by those of `b`, and an
      exception in `a` ends the output before `b`. */
  lemma {:induction false} TablesLinesAppend(a: seq<Json>, b: seq<Json>)
    ensures TablesLines(a + b) == Then(TablesLines(a), TablesLines(b))
    decreases |b|
  {
    if b == [] {
      assert a + b == a;
      ThenNothing(TablesLines(a));
    } else {
      var init := b[..|b| - 1];
      var last := b[|b| - 1];
      assert (a + b)[..|a + b| - 1] == a + init && (a + b)[|a + b| - 1] == last;
      TablesLinesAppend(a, init);
      ThenAssoc(TablesLines(a), TablesLines(init), TableLines(last));
    }
  }

  /** The first entry prints first, then the rest, unless it raised. */
  lemma TablesLinesCons(entry: Json, rest: seq<Json>)
    ensures TablesLines([entry] + rest) == Then(TableLines(entry), TablesLines(rest))
  {
    var t := TableLines(entry);
    TablesLinesAppend([entry], rest);
    assert [entry][..0] == [];
    assert TablesLines([entry]) == Then(TablesLines([]), t);
    assert [] + t.lines == t.lines;
    assert Then(Printed([], None), t) == t;
  }

  /** `print_dax_result`. */
  function RenderResult(result: Json): (p: Printed)
    ensures result.Obj? && !HasKey(result.fields, "results") ==> p == Printed([], None)
    ensures !result.Obj? ==> p == Stop(NoAttribute(result, "get"))
  {
    match Get(result, "results", Arr([]))
    case Raised(x) => Stop(x)
    case Ok(tables) =>
      match Iterate(tables)
      case Raised(x) => Stop(x)
      case Ok(entries) => TablesLines(entries)
  }

  /** Only the first table of an entry is rendered: the tables after it
      change nothing. */
  lemma FirstTableOnly(fields: seq<(string, Json)>, tables: seq<Json>)
    requires Lookup(fields, "tables") == Some(Arr(tables)) && tables != []
    ensures TableLines(Obj(fields)) == TableLines(Obj([("tables", Arr([tables[0]]))]))
  {
  }

  /** An entry without `tables`, or whose first table has no rows, prints
      the no-rows line. */
  lemma MissingTablesNoRows(fields: seq<(string, Json)>)
    requires !HasKey(fields, "tables")
    ensures TableLines(Obj(fields)) == Printed([NoRows], None)
  {
    assert Lookup([], "rows") == None;
  }

  lemma EmptyRowsNoRows(entry: Json)
    requires RowsOf(entry) == Ok(Arr([]))
    ensures TableLines(entry) == Printed([NoRows], None)
  {
  }

  /** The rows actually shown. */
  function Shown(n: nat): (m: nat)
    ensures m <= n && m <= MaxRows && (m == n || m == MaxRows)
  {
    if n < MaxRows then n else MaxRows
  }

  /** The overflow line, printed exactly when more than twenty rows came
      back. */
  function Tail(n: nat): (r: seq<string>)
    ensures |r| <= 1
    ensures r != [] <==> n > MaxRows
  {
    if n > MaxRows then [Overflow(n)] else []
  }

  /** How the lines of a non-empty list of rows headed by a dict are made. */
  lemma RowsLinesShape(rs: seq<Json>)
    requires rs != [] && rs[0].Obj?
    ensures RowsLines(Arr(rs)) ==
            Then(Printed(["  Columns: " + Join(ColumnsOf(rs[0].fields), ", ")], None),
                 Then(Printed(["  Rows: " + NatToString(|rs|), ""], None),
                      Then(RowLines(rs[..Shown(|rs|)], ColumnsOf(rs[0].fields)), Printed(Tail(|rs|), None))))
  {
    RowsSucceed(rs);
    RowsLinesUnfold(Arr(rs), rs[0], ColumnsOf(rs[0].fields), |rs|, Arr(rs[..Shown(|rs|)]), rs[..Shown(|rs|)]);
  }

  /** On a non-empty list headed by a dict, every operation `RowsLines`
      applies before the rows succeeds. */
  lemma RowsSucceed(rs: seq<Json>)
    requires rs != [] && rs[0].Obj?
    ensures Truthy(Arr(rs)) && First(Arr(rs)) == Ok(rs[0]) && Keys(rs[0]) == Ok(ColumnsOf(rs[0].fields))
    ensures Len(Arr(rs)) == Ok(|rs|) && Prefix(Arr(rs), MaxRows) == Ok(Arr(rs[..Shown(|rs|)]))
    ensures Iterate(Arr(rs[..Shown(|rs|)])) == Ok(rs[..Shown(|rs|)])
  {
  }

  /** One unfolding of `RowsLines` once each Python operation it applies is
      known to succeed. */
  lemma RowsLinesUnfold(rows: Json, head: Json, columns: seq<string>, n: nat, prefix: Json, shown: seq<Json>)
    requires Truthy(rows) && First(rows) == Ok(head) && Keys(head) == Ok(columns)
    requires Len(rows) == Ok(n) && Prefix(rows, MaxRows) == Ok(prefix) && Iterate(prefix) == Ok(shown)
    ensures RowsLines(rows) ==
            Then(Printed(["  Columns: " + Join(columns, ", ")], None),
                 Then(Printed(["  Rows: " + NatToString(n), ""], None),
                      Then(RowLines(shown, columns), Printed(Tail(n), None))))
  {
  }

  /** Dict rows print one line each, one cell per column. */
  lemma DataLines(rows: seq<Json>, columns: seq<string>)
    requires forall i :: 0 <= i < |rows| ==> rows[i].Obj?
    ensures var p := RowLines(rows, columns);
            p.raised.None? && |p.lines| == |rows|
            && forall j :: 0 <= j < |rows| ==> p.lines[j] == RowText(rows[j].fields, columns)
  {
    var os := seq(|rows|, i requires 0 <= i < |rows| => RowLine(rows[i], columns));
    assert forall i :: 0 <= i < |rows| ==> os[i] == Ok(RowText(rows[i].fields, columns));
  }

  /** Rows whose shown part is dicts print the three heading lines, the
      shown rows and the overflow line, and nothing is raised. */
  lemma RowsLinesOfDicts(rs: seq<Json>)
    requires rs != [] && rs[0].Obj? && forall i :: 0 <= i < Shown(|rs|) ==> rs[i].Obj?
    ensures var columns := ColumnsOf(rs[0].fields);
            var p := RowsLines(Arr(rs));
            p.raised.None?
            && p.lines == ["  Columns: " + Join(columns, ", ")]
                          + (["  Rows: " + NatToString(|rs|), ""] + (RowLines(rs[..Shown(|rs|)], columns).lines + Tail(|rs|)))
            && |RowLines(rs[..Shown(|rs|)], columns).lines| == Shown(|rs|)
  {
    var columns := ColumnsOf(rs[0].fields);
    var shown := rs[..Shown(|rs|)];
    DataLines(shown, columns);
    RowsLinesShape(rs);
  }

  /** The line of the `j`-th of the first `n` dict rows. */
  lemma DictRowAt(rs: seq<Json>, columns: seq<string>, n: nat, j: nat)
    requires n <= |rs| && forall i :: 0 <= i < n ==> rs[i].Obj?
    requires j < n
    ensures var data := RowLines(rs[..n], columns);
            |data.lines| == n && data.lines[j] == RowText(rs[j].fields, columns)
  {
    DataLines(rs[..n], columns);
    assert rs[..n][j] == rs[j];
  }

  /** The line of the `j`-th shown row. */
  lemma ShownRow(rs: seq<Json>, j: nat)
    requires rs != [] && rs[0].Obj? && forall i :: 0 <= i < Shown(|rs|) ==> rs[i].Obj?
    requires j < Shown(|rs|)
    ensures RowsLines(Arr(rs)).lines[3 + j] == RowText(rs[j].fields, ColumnsOf(rs[0].fields))
  {
    var columns := ColumnsOf(rs[0].fields);
    var data := RowLines(rs[..Shown(|rs|)], columns);
    RowsLinesOfDicts(rs);
    DictRowAt(rs, columns, Shown(|rs|), j);
    HeadedAt("  Columns: " + Join(columns, ", "), ["  Rows: " + NatToString(|rs|), ""], data.lines, Tail(|rs|), j);
  }

  /** The `j`-th line of a block printed after a header and a preamble. */
  lemma HeadedAt(header: string, preamble: seq<string>, block: seq<string>, tail: seq<string>, j: nat)
    requires j < |block|
    ensures ([header] + (preamble + (block + tail)))[1 + |preamble| + j] == block[j]
  {
    var rest := block + tail;
    var counted := preamble + rest;
    assert ([header] + counted)[1 + |preamble| + j] == counted[|preamble| + j] == rest[j];
  }

  /** Rows whose shown part (the first twenty) are dicts; the rows after
      them are never read. The first row's keys are the columns, the count
      reported is the full number of rows, at most twenty rows are printed
      with one cell per column (`""` when missing), and the overflow line is
      there exactly when there are more than twenty. */
  lemma RowsRendered(rs: seq<Json>)
    requires rs != [] && rs[0].Obj? && forall i :: 0 <= i < Shown(|rs|) ==> rs[i].Obj?
    ensures var p := RowsLines(Arr(rs));
            var columns := ColumnsOf(rs[0].fields);
            p.raised.None?
            && |p.lines| == 3 + Shown(|rs|) + (if |rs| > MaxRows then 1 else 0)
            && p.lines[0] == "  Columns: " + Join(columns, ", ")
            && p.lines[1] == "  Rows: " + NatToString(|rs|)
            && p.lines[2] == ""
            && (forall j :: 0 <= j < Shown(|rs|) ==> p.lines[3 + j] == RowText(rs[j].fields, columns))
            && (|rs| > MaxRows ==> p.lines[|p.lines| - 1] == Overflow(|rs|))
  {
    var columns := ColumnsOf(rs[0].fields);
    var shown := rs[..Shown(|rs|)];
    var data := RowLines(shown, columns);
    RowsLinesOfDicts(rs);
    var rest := data.lines + Tail(|rs|);
    var counted := ["  Rows: " + NatToString(|rs|), ""] + rest;
    var p := RowsLines(Arr(rs));
    assert p.lines == ["  Columns: " + Join(columns, ", ")] + counted;
    assert p.lines[1] == counted[0] && p.lines[2] == counted[1];
    forall j | 0 <= j < |shown|
      ensures p.lines[3 + j] == RowText(rs[j].fields, columns)
    {
      ShownRow(rs, j);
    }
    if |rs| > MaxRows {
      assert p.lines[|p.lines| - 1] == rest[|rest| - 1] == Overflow(|rs|);
    }
  }

  /** A result of one table renders as that table. */
  lemma SingleResult(entry: Json)
    ensures RenderResult(Obj([("results", Arr([entry]))])) == TableLines(entry)
  {
    assert [entry][..0] == [];
  }

  // ---------------------------------------------------------------------
  // Selecting a dataset
  // ---------------------------------------------------------------------

  /** What the selection step decides: no models (the program stops), the
      chosen dataset, or an invalid selection (the program stops too). */
  datatype Selection = NoModels | Chosen(dataset: Json) | InvalidSelection

  /** The listing line of the `i`-th dataset (counted from 0). */
  function DatasetLine(i: nat, ds: Json): (r: Outcome<string>)
    ensures r.Ok? <==> ds.Obj? && HasKey(ds.fields, "name") && HasKey(ds.fields, "id")
  {
    var name :- Subscript(ds, "name");
    var id :- Subscript(ds, "id");
    Ok("  " + NatToString(i + 1) + ". " + Show(name) + "  (ID: " + Show(id) + ")")
  }

  /** The numbered listing of the datasets. */
  function DatasetLines(datasets: seq<Json>): Printed
  {
    Lines(seq(|datasets|, i requires 0 <= i < |datasets| => DatasetLine(i, datasets[i])))
  }

  /** The listing prints every dataset when each has a `name` and an `id`,
      and stops at the first that lacks one. */
  lemma ListingStops(datasets: seq<Json>, i: nat)
    requires i < |datasets| && datasets[i].Obj? && !HasKey(datasets[i].fields, "name")
    requires forall j :: 0 <= j < i ==> DatasetLine(j, datasets[j]).Ok?
    ensures var p := DatasetLines(datasets);
            |p.lines| == i && p.raised == Some(Exc(KeyError, Quote("name")))
  {
    var os := seq(|datasets|, j requires 0 <= j < |datasets| => DatasetLine(j, datasets[j]));
    var p := DatasetLines(datasets);
    assert os[i].Raised?;
    assert p.raised.Some?;
  }

  /** The selection, given what `int()` made of the typed index (`None` for
      a `ValueError`): with one dataset it is taken and the index is never
      read; otherwise `datasets[k - 1]`, where an index out of range is an
      invalid selection and any other exception escapes. */
  function Choose(datasets: Json, typed: Option<int>): (r: Outcome<Selection>)
    ensures !Truthy(datasets) <==> r == Ok(NoModels)
  {
    if !Truthy(datasets) then Ok(NoModels)
    else
      var n :- Len(datasets);
      if n == 1 then
        var first :- First(datasets);
        Ok(Chosen(first))
      else
        match typed
        case None => Ok(InvalidSelection)
        case Some(k) =>
          match At(datasets, k - 1)
          case Ok(ds) => Ok(Chosen(ds))
          case Raised(x) => if x.kind == IndexError then Ok(InvalidSelection) else Raised(x)
  }

  /** The selection step for the line typed at the prompt. */
  function Select(datasets: Json, idx: string): Outcome<Selection>
  {
    Choose(datasets, ParseInt(Strip(idx)))
  }

  lemma SelectSingle(ds: Json, typed: Option<int>)
    ensures Choose(Arr([ds]), typed) == Ok(Chosen(ds))
  {
  }

  /** Two or more datasets and the integer `k`: item `k - 1`, Python style:
      `1..n` count from the front, `0` and below count from the back, and
      anything outside `1 - n..n` is an invalid selection. */
  lemma ChooseIndex(items: seq<Json>, k: int)
    requires |items| >= 2
    ensures Choose(Arr(items), Some(k)) ==
              Ok(if 1 - |items| <= k <= |items| then Chosen(items[if k >= 1 then k - 1 else k - 1 + |items|]) else InvalidSelection)
  {
    assert Truthy(Arr(items));
    assert Len(Arr(items)) == Ok(|items|);
  }

  /** Typing the number `k` selects as `datasets[k - 1]` does in Python. */
  lemma SelectIndex(items: seq<Json>, k: int)
    requires |items| >= 2
    ensures Select(Arr(items), IntToString(k)) ==
              Ok(if 1 - |items| <= k <= |items| then Chosen(items[if k >= 1 then k - 1 else k - 1 + |items|]) else InvalidSelection)
  {
    StripIdempotent(IntToString(k));
    ParseIntToString(k);
    ChooseIndex(items, k);
  }

  /** Typing `0` selects the last dataset. */
  lemma SelectZeroIsLast(items: seq<Json>)
    requires |items| >= 2
    ensures Choose(Arr(items), Some(0)) == Ok(Chosen(items[|items| - 1]))
  {
    ChooseIndex(items, 0);
  }

  /** An index `int()` rejects is an invalid selection. */
  lemma SelectNotNumber(items: seq<Json>)
    requires |items| >= 2
    ensures Choose(Arr(items), None) == Ok(InvalidSelection)
  {
    assert Truthy(Arr(items));
    assert Len(Arr(items)) == Ok(|items|);
  }

  // ---------------------------------------------------------------------
  // Running a query
  // ---------------------------------------------------------------------

  /** The marker in front of every error line of the DAX client. */
  const ErrorMarker := "  [ERROR] "

  const NotAuthorizedCode := "PowerBINotAuthorizedException"

  const NotAuthorizedHint := [
    "  [ERROR] Not authorized. The SPN/user needs Build",
    "  permission on this semantic model to run DAX queries.",
    "  Grant it via: Fabric portal > Semantic Model > Manage permissions"]

  /** `err.get("error", {}).get("code", "")`. */
  function ErrorCode(err: Json): (r: Outcome<Json>)
    ensures err.Obj? && !HasKey(err.fields, "error") ==> r == Ok(Str(""))
  {
    var inner :- Get(err, "error", Obj([]));
    Get(inner, "code", Str(""))
  }

  /** The lines printed for an `HTTPError` `e` carrying response `r`: the
      authorization hint, or the code and the first 500 characters of the
      indented error body; when the body is not JSON or has the wrong shape,
      the exception's own text. */
  function HttpErrorLines(r: Response, e: Exc, decode: Decoder, dumps: Dumps): seq<string>
  {
    match JsonOf(r, decode)
    case Raised(_) => [ErrorMarker + e.text]
    case Ok(err) =>
      match ErrorCode(err)
      case Raised(_) => [ErrorMarker + e.text]
      case Ok(code) =>
        if code == Str(NotAuthorizedCode) then NotAuthorizedHint
        else [ErrorMarker + Show(code) + ": " + Take(dumps(err), 500)]
  }

  /** An error body with a code: the hint is printed exactly for
      `PowerBINotAuthorizedException`, and any other code is printed with a
      prefix of the serialized body of at most 500 characters. */
  lemma ErrorClassified(r: Response, e: Exc, decode: Decoder, dumps: Dumps, err: Json, code: Json)
    requires decode(r.text) == Parsed(err) && ErrorCode(err) == Ok(code)
    ensures HttpErrorLines(r, e, decode, dumps) == NotAuthorizedHint <==> code == Str(NotAuthorizedCode)
    ensures code != Str(NotAuthorizedCode) ==>
              HttpErrorLines(r, e, decode, dumps) == [ErrorMarker + Show(code) + ": " + Take(dumps(err), 500)]
  {
  }

  /** A body that is not JSON, or not a dict: the `HTTPError` itself is
      printed. */
  lemma UnreadableError(r: Response, e: Exc, decode: Decoder, dumps: Dumps)
    requires decode(r.text).Malformed? || (decode(r.text).Parsed? && !decode(r.text).value.Obj?)
    ensures HttpErrorLines(r, e, decode, dumps) == [ErrorMarker + e.text]
  {
  }

  /** What one DAX query prints, as the `k`-th call of the session: a blank
      line and the rendered result; for an `HTTPError` the classified error;
      for any other exception (a dataset without `id`, a transport failure,
      a body that is not JSON) its text. */
  function QueryLines(api: Api, k: nat, decode: Decoder, dumps: Dumps, token: string, selected: Json, dax: string): seq<string>
  {
    match Subscript(selected, "id")
    case Raised(x) => [ErrorMarker + x.text]
    case Ok(id) =>
      var d := api(k, ExecuteCall(token, id, dax));
      match CheckedJson(d, decode)
      case Ok(result) => [""] + Interrupted(RenderResult(result), ErrorMarker)
      case Raised(x) =>
        if x.kind == HttpError && d.Delivered? then HttpErrorLines(d.response, x, decode, dumps)
        else [ErrorMarker + x.text]
  }

  /** Only an error status leads to the classification; a transport failure
      prints its own text. */
  lemma QueryErrors(api: Api, k: nat, decode: Decoder, dumps: Dumps, token: string, fields: seq<(string, Json)>, dax: string,
                    id: Json)
    requires Lookup(fields, "id") == Some(id)
    ensures var d := api(k, ExecuteCall(token, id, dax));
            (d.Delivered? && !d.response.ok ==>
               QueryLines(api, k, decode, dumps, token, Obj(fields), dax) ==
               HttpErrorLines(d.response, Exc(HttpError, d.response.statusError), decode, dumps))
            && (d.Unreachable? ==>
               QueryLines(api, k, decode, dumps, token, Obj(fields), dax) == [ErrorMarker + d.message])
  {
    assert Subscript(Obj(fields), "id") == Ok(id);
    var d := api(k, ExecuteCall(token, id, dax));
    if d.Delivered? && !d.response.ok {
      assert CheckedJson(d, decode) == Raised(Exc(HttpError, d.response.statusError));
    } else if d.Unreachable? {
      assert CheckedJson(d, decode) == Raised(Exc(RequestError, d.message));
    }
  }

  /** What a query prints, given the call number and the DAX text. */
  type Replier = (nat, string) -> seq<string>

  function QueryReplier(api: Api, decode: Decoder, dumps: Dumps, token: string, selected: Json): Replier
  {
    (k: nat, dax: string) => QueryLines(api, k, decode, dumps, token, selected, dax)
  }

  /** What the queries `qs` print, the `i`-th as call `1 + i`. */
  function Replies(reply: Replier, qs: seq<string>): (r: seq<seq<string>>)
    ensures |r| == |qs|
  {
    if qs == [] then []
    else Replies(reply, qs[..|qs| - 1]) + [reply(|qs|, qs[|qs| - 1])]
  }

  /** The `i`-th query is answered as the call numbered `1 + i`. */
  lemma {:induction false} RepliesAt(reply: Replier, qs: seq<string>, i: nat)
    requires i < |qs|
    ensures Replies(reply, qs)[i] == reply(1 + i, qs[i])
  {
    var init := qs[..|qs| - 1];
    if i < |init| {
      RepliesAt(reply, init, i);
      assert init[i] == qs[i];
    }
  }

  lemma RepliesStep(reply: Replier, qs: seq<string>, q: string)
    ensures Replies(reply, qs + [q]) == Replies(reply, qs) + [reply(1 + |qs|, q)]
  {
    assert (qs + [q])[..|qs|] == qs;
  }

  /** One query of the loop: `execute_dax` and `print_dax_result` inside
      the `try`, and the two `except` clauses. */
  method RunQuery(api: Api, k: nat, decode: Decoder, dumps: Dumps, token: string, selected: Json, dax: string)
    returns (out: seq<string>)
    ensures out == QueryLines(api, k, decode, dumps, token, selected, dax)
  {
    var id := Subscript(selected, "id");
    if id.Raised? {
      return [ErrorMarker + id.exc.text];
    }
    var d := api(k, ExecuteCall(token, id.value, dax));
    var result := CheckedJson(d, decode);
    if result.Ok? {
      out := [""] + Interrupted(RenderResult(result.value), ErrorMarker);
    } else if result.exc.kind == HttpError && d.Delivered? {
      out := HttpErrorLines(d.response, result.exc, decode, dumps);
    } else {
      out := [ErrorMarker + result.exc.text];
    }
  }

  /** One question of the query loop: its lines are appended to those of
      the questions before it. */
  method AnswerQuery(api: Api, decode: Decoder, dumps: Dumps, token: string, selected: Json, ghost qs: seq<string>,
                     q: string, printed: seq<seq<string>>)
    returns (printed': seq<seq<string>>)
    requires printed == Replies(QueryReplier(api, decode, dumps, token, selected), qs)
    ensures printed' == Replies(QueryReplier(api, decode, dumps, token, selected), qs + [q])
  {
    ghost var reply := QueryReplier(api, decode, dumps, token, selected);
    RepliesStep(reply, qs, q);
    var out := RunQuery(api, 1 + |printed|, decode, dumps, token, selected, q);
    assert out == reply(1 + |qs|, q);
    printed' := printed + [out];
  }

  /** The query loop of `main`: every query gets its printed lines, an
      exception included, until a quit word or the end of input. */
  method QueryLoop(api: Api, decode: Decoder, dumps: Dumps, token: string, selected: Json, lines: seq<string>)
    returns (printed: seq<seq<string>>)
    ensures printed == Replies(QueryReplier(api, decode, dumps, token, selected), Console.Asked(lines))
  {
    printed := [];
    ghost var reply := QueryReplier(api, decode, dumps, token, selected);
    ghost var es := Console.Entries(lines);
    var i := 0;
    while i < |lines|
      invariant i <= |lines| && !Console.Stopped(es[..i])
      invariant printed == Replies(reply, Console.Questions(es[..i]))
    {
      ghost var qs := Console.Questions(es[..i]);
      var entry := Console.ReadEntry(lines, i, es);
      if entry.Quit? {
        return;
      }
      if entry.Ask? {
        printed := AnswerQuery(api, decode, dumps, token, selected, qs, entry.question, printed);
      }
      i := i + 1;
    }
    assert es[..i] == es;
  }
}

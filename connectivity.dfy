/** The connectivity test: three checks against the Fabric REST API (a
    token, the workspace's item list, and the first item by id), each
    recorded as passed (`Some(true)`), failed (`Some(false)`) or skipped
    (`None`), and a summary of marks and counts.

    The REST API is an `Api`: the delivery it makes for a GET of a URL with
    the given headers. Token acquisition is its outcome alone. */
module Connectivity {
  import opened Wrappers
  import opened Text
  import opened Py
  import opened Http

  type Api = (string, map<string, string>) -> Delivery

  const Base := "https://api.fabric.microsoft.com/v1"

  /** `api_get`. */
  function ApiGet(api: Api, decode: Decoder, token: string, url: string): Outcome<Json>
  {
    CheckedJson(api(url, map["Authorization" := Bearer(token)]), decode)
  }

  function ItemsUrl(workspace: string): string
  {
    Base + "/workspaces/" + workspace + "/items"
  }

  function ItemUrl(workspace: string, id: Json): string
  {
    ItemsUrl(workspace) + "/" + Show(id)
  }

  // ---------------------------------------------------------------------
  // The results record
  // ---------------------------------------------------------------------

  const TokenKey := "token"
  const ListKey := "list_items"
  const ItemKey := "get_item"

  /** The `results` dict: each check is `Some(true)`, `Some(false)`, or
      `None` when it was skipped. */
  type Results = map<string, Option<bool>>

  const Initial: Results := map[TokenKey := Some(false), ListKey := Some(false), ItemKey := Some(false)]

  // ---------------------------------------------------------------------
  // The checks
  // ---------------------------------------------------------------------

  /** The line printed for one listed item; it reads the item as a dict. */
  function ItemLine(item: Json): Outcome<string>
  {
    var name :- Get(item, "displayName", Str("?"));
    var kind :- Get(item, "type", Str("?"));
    Ok("    - " + Show(name) + " (" + Show(kind) + ")")
  }

  /** Check 2 after the GET: the `value` list, which must have a length and
      whose items are all printed. */
  function Listing(data: Json): (r: Outcome<Json>)
    ensures r.Ok? ==> data.Obj? && r.value == Lookup(data.fields, "value").GetOr(Arr([]))
  {
    var items :- Get(data, "value", Arr([]));
    var _ :- Len(items);
    var each :- Iterate(items);
    var printed := Lines(seq(|each|, i requires 0 <= i < |each| => ItemLine(each[i])));
    if printed.raised.Some? then Raised(printed.raised.value) else Ok(items)
  }

  /** A `value` list of dicts passes check 2; without `value` the list is
      `[]`, which passes and is empty. */
  lemma ListingOfDicts(fields: seq<(string, Json)>, items: seq<Json>)
    requires Lookup(fields, "value") == Some(Arr(items))
    requires forall i :: 0 <= i < |items| ==> items[i].Obj?
    ensures Listing(Obj(fields)) == Ok(Arr(items))
  {
    var os := seq(|items|, i requires 0 <= i < |items| => ItemLine(items[i]));
    assert forall i :: 0 <= i < |items| ==> os[i].Ok?;
  }

  lemma ListingWithoutValue(fields: seq<(string, Json)>)
    requires !HasKey(fields, "value")
    ensures Listing(Obj(fields)) == Ok(Arr([])) && !Truthy(Arr([]))
  {
  }

  /** Check 2: the item list, or the exception that fails it. */
  function Listed(api: Api, decode: Decoder, token: string, workspace: string): Outcome<Json>
  {
    var data :- ApiGet(api, decode, token, ItemsUrl(workspace));
    Listing(data)
  }

  /** `items[0]["id"]`, read before the GET of check 3. */
  function ItemId(items: Json): Outcome<Json>
  {
    var first :- First(items);
    Subscript(first, "id")
  }

  /** The three `detail.get` reads printed by check 3: they all succeed
      exactly when the item's body is a dict, and otherwise the first one
      raises. */
  function DetailFields(detail: Json): (r: Outcome<()>)
    ensures r.Ok? <==> detail.Obj?
    ensures !detail.Obj? ==> r == Raised(NoAttribute(detail, "get"))
  {
    match Get(detail, "displayName", Str("?"))
    case Raised(x) => Raised(x)
    case Ok(_) =>
      match Get(detail, "type", Str("?"))
      case Raised(x) => Raised(x)
      case Ok(_) =>
        match Get(detail, "id", Str("?"))
        case Raised(x) => Raised(x)
        case Ok(_) => Ok(())
  }

  /** Check 3 when the list is not empty: the id of the first item, the GET
      of that item, and the three fields printed from it. */
  function Detail(api: Api, decode: Decoder, token: string, workspace: string, items: Json): (r: Outcome<()>)
    ensures r.Ok? ==> ItemId(items).Ok? && ApiGet(api, decode, token, ItemUrl(workspace, ItemId(items).value)).Ok?
    ensures r.Ok? ==> ApiGet(api, decode, token, ItemUrl(workspace, ItemId(items).value)).value.Obj?
  {
    var id :- ItemId(items);
    var detail :- ApiGet(api, decode, token, ItemUrl(workspace, id));
    DetailFields(detail)
  }

  /** The check sequence of `main`: the results after it and the URLs it
      requested. A failed token stops everything, check 3 runs only after
      check 2 has passed, and an empty list skips it. */
  method RunChecks(acquired: Outcome<string>, api: Api, decode: Decoder, workspace: string)
    returns (results: Results, requested: seq<string>)
    ensures results.Keys == {TokenKey, ListKey, ItemKey}
    ensures results[TokenKey] == Some(acquired.Ok?)
    ensures acquired.Raised? ==> results == Initial && requested == []
    ensures acquired.Ok? ==> 1 <= |requested| <= 2 && requested[0] == ItemsUrl(workspace)
    ensures acquired.Ok? ==>
              var listed := Listed(api, decode, acquired.value, workspace);
              (|requested| == 2 <==> listed.Ok? && Truthy(listed.value) && ItemId(listed.value).Ok?)
              && (|requested| == 2 ==> requested[1] == ItemUrl(workspace, ItemId(listed.value).value))
    ensures results[ListKey].Some?
    ensures results[ListKey] == Some(true) <==> acquired.Ok? && Listed(api, decode, acquired.value, workspace).Ok?
    ensures results[ItemKey] == None <==>
              acquired.Ok? && Listed(api, decode, acquired.value, workspace).Ok?
              && !Truthy(Listed(api, decode, acquired.value, workspace).value)
    ensures results[ItemKey] == Some(true) <==>
              acquired.Ok? && Listed(api, decode, acquired.value, workspace).Ok?
              && Truthy(Listed(api, decode, acquired.value, workspace).value)
              && Detail(api, decode, acquired.value, workspace, Listed(api, decode, acquired.value, workspace).value).Ok?
    ensures results[ItemKey] == Some(true) ==> results[ListKey] == Some(true)
  {
    results := Initial;
    requested := [];
    if acquired.Raised? {
      return;
    }
    var token := acquired.value;
    results := results[TokenKey := Some(true)];
    var url := ItemsUrl(workspace);
    requested := requested + [url];
    var data := ApiGet(api, decode, token, url);
    if data.Raised? {
      return;
    }
    var items := Listing(data.value);
    if items.Raised? {
      return;
    }
    results := results[ListKey := Some(true)];
    if !Truthy(items.value) {
      results := results[ItemKey := None];
      return;
    }
    var id := ItemId(items.value);
    if id.Raised? {
      return;
    }
    var itemUrl := ItemUrl(workspace, id.value);
    requested := requested + [itemUrl];
    var detail := ApiGet(api, decode, token, itemUrl);
    if detail.Raised? {
      return;
    }
    var shown := DetailFields(detail.value);
    if shown.Raised? {
      return;
    }
    results := results[ItemKey := Some(true)];
  }

  // ---------------------------------------------------------------------
  // The summary
  // ---------------------------------------------------------------------

  /** The checks in the order the summary prints them, with their labels. */
  const Labels: seq<(string, string)> :=
    [(TokenKey, "Token Acquisition"), (ListKey, "List Workspace Items"), (ItemKey, "Get Specific Item")]

  /** `results.get(key)`. */
  function Status(results: Results, key: string): Option<bool>
  {
    if key in results then results[key] else None
  }

  function Mark(status: Option<bool>): (m: string)
    ensures m == "PASS" <==> status == Some(true)
    ensures m == "SKIP" <==> status == None
    ensures m == "FAIL" <==> status == Some(false)
  {
    if status == Some(true) then "PASS"
    else if status.None? then "SKIP"
    else
      assert !status.value;
      "FAIL"
  }

  /** The checks that passed. */
  function PassedKeys(results: Results): set<string>
  {
    set k | k in results && results[k] == Some(true)
  }

  /** The checks that ran, passed or failed. */
  function RanKeys(results: Results): set<string>
  {
    set k | k in results && results[k] != None
  }

  /** `passed` and `total` of `print_summary`, one per value of the dict. */
  function Passed(results: Results): nat
  {
    |PassedKeys(results)|
  }

  function Total(results: Results): nat
  {
    |RanKeys(results)|
  }

  lemma {:induction false} SubsetSize(a: set<string>, b: set<string>)
    requires a <= b
    ensures |a| <= |b|
    decreases |b|
  {
    if a != {} {
      var x :| x in a;
      SubsetSize(a - {x}, b - {x});
    }
  }

  /** At most as many checks pass as ran, and at most as many ran as there
      are checks. */
  lemma Tally(results: Results)
    ensures Passed(results) <= Total(results) <= |results.Keys|
  {
    SubsetSize(PassedKeys(results), RanKeys(results));
    SubsetSize(RanKeys(results), results.Keys);
  }

  /** After the checks, `0 <= passed <= total <= 3`. */
  lemma TallyAfterChecks(results: Results)
    requires results.Keys == {TokenKey, ListKey, ItemKey}
    ensures Passed(results) <= Total(results) <= 3
  {
    Tally(results);
  }

  const Rule := seq(60, _ => '=')

  /** `print_summary`: a banner, one mark per check in the fixed order, and
      the counts. */
  function SummaryLines(results: Results): (lines: seq<string>)
    ensures |lines| == 10
    ensures forall i :: 0 <= i < |Labels| ==>
              lines[4 + i] == "  [" + Mark(Status(results, Labels[i].0)) + "] " + Labels[i].1
    ensures lines[8] == "  " + NatToString(Passed(results)) + "/" + NatToString(Total(results)) + " checks passed."
  {
    ["", Rule, "  RESULTS", Rule]
    + seq(|Labels|, i requires 0 <= i < |Labels| =>
            "  [" + Mark(Status(results, Labels[i].0)) + "] " + Labels[i].1)
    + ["", "  " + NatToString(Passed(results)) + "/" + NatToString(Total(results)) + " checks passed.", ""]
  }

  /** Without a token nothing passes, all three checks fail, and the
      summary reads `0/3`. */
  lemma TokenFailureSummary()
    ensures Passed(Initial) == 0 && Total(Initial) == 3
    ensures forall i :: 0 <= i < |Labels| ==> Mark(Status(Initial, Labels[i].0)) == "FAIL"
  {
    assert PassedKeys(Initial) == {};
    assert RanKeys(Initial) == {TokenKey, ListKey, ItemKey};
  }

  /** An empty workspace: two checks pass, the third is skipped, and the
      summary reads `2/2`. */
  lemma EmptyWorkspaceSummary()
    ensures var r := map[TokenKey := Some(true), ListKey := Some(true), ItemKey := None];
            Passed(r) == 2 && Total(r) == 2 && Mark(Status(r, ItemKey)) == "SKIP"
  {
    var r := map[TokenKey := Some(true), ListKey := Some(true), ItemKey := None];
    assert PassedKeys(r) == {TokenKey, ListKey};
    assert RanKeys(r) == {TokenKey, ListKey};
  }
}

/** The part of run_async between capture and save: the records are always
    filtered, but the filtered list is used only when a filter was asked for. */
module Cli {
  import opened Wrappers
  import opened Json
  import opened Jsonl
  import opened RecordFilter

  /** The filter options as parsed. The status bounds are always present. */
  datatype FilterArgs = FilterArgs(filterUrl: Option<string>, filterMethod: Option<string>, statusMin: int, statusMax: int)

  /** The status bounds' parser defaults when the environment sets none. */
  const StatusMinDefault := 0
  const StatusMaxDefault := 999

  function CriteriaOf(a: FilterArgs): Criteria {
    Criteria(a.filterUrl, a.filterMethod, Some(a.statusMin), Some(a.statusMax))
  }

  /** At least one filter differs from its default. `minDefault` and
      `maxDefault` are the parser's defaults, which come from the environment. */
  predicate FilterRequested(a: FilterArgs, minDefault: int, maxDefault: int) {
    Given(a.filterUrl) || Given(a.filterMethod) || a.statusMin != minDefault || a.statusMax != maxDefault
  }

  /** The records run_async goes on to save. */
  method SelectRequests(
    captured: seq<JSON>, a: FilterArgs, minDefault: int, maxDefault: int,
    search: (string, string) -> bool, repr: JSON -> string)
    returns (selected: seq<JSON>)
    requires AllFilterable(captured, CriteriaOf(a))
    ensures FilterRequested(a, minDefault, maxDefault) ==> selected == Filtered(captured, CriteriaOf(a), search, repr)
    ensures !FilterRequested(a, minDefault, maxDefault) ==> selected == captured
  {
    var filtered := FilterNetworkRequests(Some(captured), CriteriaOf(a), search, repr);
    if FilterRequested(a, minDefault, maxDefault) {
      selected := filtered;
    } else {
      selected := captured;
    }
  }

  // ---------------------------------------------------------------- scenarios

  function Record(url: string, verb: string, status: int): JSON {
    JObject(map[
      "request" := JObject(map["url" := JString(url), "method" := JString(verb)]),
      "response" := JObject(map["status" := JInt(status)])])
  }

  /** How a record of that shape resolves. */
  lemma RecordResolves(url: string, verb: string, status: int)
    requires url != "" && verb != "" && status != 0
    ensures var r := Record(url, verb, status);
      && IsRecord(r)
      && ResolvedUrl(r) == JString(url)
      && ResolvedMethod(r) == JString(verb)
      && ResolvedStatus(r) == JInt(status)
  {
  }

  /** The gate is what keeps defaults a no-op: with the default range
      0..999 the filter itself drops a record with status 1000, yet with no
      filter requested that record is saved. */
  lemma GateKeepsOutOfRangeDefaults(search: (string, string) -> bool, repr: JSON -> string)
    ensures var a := FilterArgs(None, None, StatusMinDefault, StatusMaxDefault);
      var r := Record("https://example.com/x", "GET", 1000);
      && !FilterRequested(a, StatusMinDefault, StatusMaxDefault)
      && AllFilterable([r], CriteriaOf(a))
      && Filtered([r], CriteriaOf(a), search, repr) == []
  {
  }

  /** When no filter is asked for, the arguments filter exactly as the
      defaults alone would: empty URL and method filters count as absent, and
      the bounds are the defaults. So the gate bypasses at most the default
      status range. */
  lemma UnrequestedActsAsDefaults(
    rs: seq<JSON>, a: FilterArgs, minDefault: int, maxDefault: int,
    search: (string, string) -> bool, repr: JSON -> string)
    requires !FilterRequested(a, minDefault, maxDefault)
    ensures Filtered(rs, CriteriaOf(a), search, repr)
      == Filtered(rs, CriteriaOf(FilterArgs(None, None, minDefault, maxDefault)), search, repr)
  {
    var c := CriteriaOf(a);
    var d := CriteriaOf(FilterArgs(None, None, minDefault, maxDefault));
    forall r | r in rs
      ensures Passes(c, search, repr)(r) == Passes(d, search, repr)(r)
    {
      assert UrlPasses(r, c, search) && UrlPasses(r, d, search);
      assert MethodPasses(r, c, repr) && MethodPasses(r, d, repr);
    }
    SelectSame(rs, Passes(c, search, repr), Passes(d, search, repr));
  }

  /** Filtering a two-record list keeps each record on its own merit. */
  lemma FilterPair(first: JSON, second: JSON, c: Criteria, search: (string, string) -> bool, repr: JSON -> string)
    requires Filterable(first, c) && Filterable(second, c)
    ensures AllFilterable([first, second], c)
    ensures Filtered([first, second], c, search, repr)
      == (if Keep(first, c, search, repr) then [first] else []) + (if Keep(second, c, search, repr) then [second] else [])
  {
    var keep := Passes(c, search, repr);
    assert [first, second][..1] == [first];
    assert [first][..0] == [];
    assert Select([first], keep) == (if keep(first) then [first] else []);
    assert Select([first, second], keep) == Select([first], keep) + (if keep(second) then [second] else []);
  }

  /** A GET record with status 200 passes a GET filter with the default
      range. */
  lemma GetRecordKept(search: (string, string) -> bool, repr: JSON -> string)
    ensures var c := CriteriaOf(FilterArgs(None, Some("GET"), StatusMinDefault, StatusMaxDefault));
      var r := Record("https://example.com/a", "GET", 200);
      Filterable(r, c) && Keep(r, c, search, repr)
  {
  }

  /** A POST record does not pass a GET filter. */
  lemma PostRecordDropped(search: (string, string) -> bool, repr: JSON -> string)
    ensures var c := CriteriaOf(FilterArgs(None, Some("GET"), StatusMinDefault, StatusMaxDefault));
      var r := Record("https://example.com/b", "POST", 500);
      Filterable(r, c) && !Keep(r, c, search, repr)
  {
    RecordResolves("https://example.com/b", "POST", 500);
    assert |Upper("POST")| != |Upper("GET")|;
  }

  /** Two captured requests, GET /a with 200 and POST /b with 500, filtered
      by method GET: the saved JSONL is one line, the first record. */
  lemma MethodGetScenario(search: (string, string) -> bool, repr: JSON -> string, dumps: JSON -> string)
    ensures var first := Record("https://example.com/a", "GET", 200);
      var second := Record("https://example.com/b", "POST", 500);
      var a := FilterArgs(None, Some("GET"), StatusMinDefault, StatusMaxDefault);
      && FilterRequested(a, StatusMinDefault, StatusMaxDefault)
      && AllFilterable([first, second], CriteriaOf(a))
      && Filtered([first, second], CriteriaOf(a), search, repr) == [first]
      && SerializeToJsonl(JArray([first]), dumps) == dumps(first) + "\n"
  {
    var first := Record("https://example.com/a", "GET", 200);
    var second := Record("https://example.com/b", "POST", 500);
    var c := CriteriaOf(FilterArgs(None, Some("GET"), StatusMinDefault, StatusMaxDefault));
    GetRecordKept(search, repr);
    PostRecordDropped(search, repr);
    FilterPair(first, second, c, search, repr);
    assert JoinLines([first], dumps) == dumps(first) + "\n" + JoinLines([], dumps);
  }
}

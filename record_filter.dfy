/** The client-side record filter, filter_network_requests: keep the request
    records whose URL matches a pattern, whose HTTP method equals a given
    method case-insensitively, and whose status lies in a range. */
module RecordFilter {
  import opened Wrappers
  import opened Json

  /** The four optional filters. The regex engine is not modelled: whether
      a compiled pattern is found somewhere in a URL is the `search` parameter
      of the members below, `search(pattern, url)`. */
  datatype Criteria = Criteria(
    urlRegex: Option<string>,
    methodFilter: Option<string>,
    statusMin: Option<int>,
    statusMax: Option<int>)

  /** Python truthiness of an Optional[str]: present and not empty. */
  predicate Given(o: Option<string>) {
    o.Some? && o.value != ""
  }

  /** No filter is active. */
  predicate Inactive(c: Criteria) {
    !Given(c.urlRegex) && !Given(c.methodFilter) && c.statusMin.None? && c.statusMax.None?
  }

  // ---------------------------------------------------------------- field resolution

  /** `(record.get(key) or {})` is a dict to call `.get` on: a truthy nested
      value that is not a dict makes the script raise AttributeError. */
  predicate NestedOk(d: map<string, JSON>, key: string) {
    Truthy(Get(d, key)) ==> Get(d, key).JObject?
  }

  /** `(record.get(key) or {})`, for a key satisfying NestedOk. */
  function Nested(d: map<string, JSON>, key: string): map<string, JSON> {
    var v := Get(d, key);
    if Truthy(v) && v.JObject? then v.fields else map[]
  }

  /** The keys of a record. The resolution functions below are total for
      convenience; the filter is only ever given request records. */
  function Fields(r: JSON): map<string, JSON> {
    if r.JObject? then r.fields else map[]
  }

  /** A request record: a dict whose `request` and `response` parts, when
      truthy, are dicts. */
  predicate IsRecord(r: JSON) {
    r.JObject? && NestedOk(r.fields, "request") && NestedOk(r.fields, "response")
  }

  /** `request.url or url or ""` */
  function ResolvedUrl(r: JSON): (url: JSON)
    ensures Truthy(url) || url == JString("")
  {
    Or(Or(Get(Nested(Fields(r), "request"), "url"), Get(Fields(r), "url")), JString(""))
  }

  /** `request.method or method` */
  function ResolvedMethod(r: JSON): (m: JSON)
    ensures Truthy(m) <==> Truthy(Get(Nested(Fields(r), "request"), "method")) || Truthy(Get(Fields(r), "method"))
  {
    Or(Get(Nested(Fields(r), "request"), "method"), Get(Fields(r), "method"))
  }

  /** `response.status or status` */
  function ResolvedStatus(r: JSON): (status: JSON)
    ensures Truthy(status) <==> Truthy(Get(Nested(Fields(r), "response"), "status")) || Truthy(Get(Fields(r), "status"))
  {
    Or(Get(Nested(Fields(r), "response"), "status"), Get(Fields(r), "status"))
  }

  /** What the filter demands of a record it is given: a request record, and
      a string URL when a pattern is given (`re.search` raises TypeError on
      anything else). */
  predicate Filterable(r: JSON, c: Criteria) {
    IsRecord(r) && (Given(c.urlRegex) ==> ResolvedUrl(r).JString?)
  }

  predicate AllFilterable(rs: seq<JSON>, c: Criteria) {
    forall r :: r in rs ==> Filterable(r, c)
  }

  // ---------------------------------------------------------------- the three checks

  predicate UrlPasses(r: JSON, c: Criteria, search: (string, string) -> bool) {
    Given(c.urlRegex) ==> ResolvedUrl(r).JString? && search(c.urlRegex.value, ResolvedUrl(r).s)
  }

  predicate MethodPasses(r: JSON, c: Criteria, repr: JSON -> string) {
    Given(c.methodFilter) ==>
      Truthy(ResolvedMethod(r)) && Upper(PyStr(ResolvedMethod(r), repr)) == Upper(c.methodFilter.value)
  }

  /** One side of the status range: a None status, or one `int()` rejects,
      passes. */
  predicate AtLeast(status: JSON, bound: Option<int>) {
    bound.None? || status == JNull || IntOf(status).None? || IntOf(status).value >= bound.value
  }

  predicate AtMost(status: JSON, bound: Option<int>) {
    bound.None? || status == JNull || IntOf(status).None? || IntOf(status).value <= bound.value
  }

  predicate StatusPasses(r: JSON, c: Criteria) {
    AtLeast(ResolvedStatus(r), c.statusMin) && AtMost(ResolvedStatus(r), c.statusMax)
  }

  /** The record survives all three checks. */
  predicate Keep(r: JSON, c: Criteria, search: (string, string) -> bool, repr: JSON -> string) {
    UrlPasses(r, c, search) && MethodPasses(r, c, repr) && StatusPasses(r, c)
  }

  /** `[r for r in rs if keep(r)]` */
  function Select(rs: seq<JSON>, keep: JSON -> bool): (kept: seq<JSON>)
    ensures |kept| <= |rs|
    ensures forall r :: r in kept ==> r in rs && keep(r)
  {
    if rs == [] then []
    else
      var last := rs[|rs| - 1];
      Select(rs[..|rs| - 1], keep) + (if keep(last) then [last] else [])
  }

  function Passes(c: Criteria, search: (string, string) -> bool, repr: JSON -> string): JSON -> bool {
    r => Keep(r, c, search, repr)
  }

  /** The records of `rs` that the filter keeps, in their order. */
  function Filtered(rs: seq<JSON>, c: Criteria, search: (string, string) -> bool, repr: JSON -> string): (kept: seq<JSON>)
    ensures forall r :: r in kept ==> r in rs && Keep(r, c, search, repr)
  {
    Select(rs, Passes(c, search, repr))
  }

  /** One more record: the output grows by that record exactly when it passes. */
  lemma FilteredStep(rs: seq<JSON>, i: nat, c: Criteria, search: (string, string) -> bool, repr: JSON -> string)
    requires i < |rs|
    ensures Filtered(rs[..i + 1], c, search, repr)
      == Filtered(rs[..i], c, search, repr) + (if Keep(rs[i], c, search, repr) then [rs[i]] else [])
  {
    assert rs[..i + 1][..i] == rs[..i];
  }

  /** Keep, spelled as the loop's four skip conditions. */
  lemma KeepAsSkips(record: JSON, c: Criteria, search: (string, string) -> bool, repr: JSON -> string)
    requires Filterable(record, c)
    ensures Keep(record, c, search, repr) <==>
      && !(Given(c.urlRegex) && !search(c.urlRegex.value, ResolvedUrl(record).s))
      && !(Given(c.methodFilter) && (!Truthy(ResolvedMethod(record))
             || Upper(PyStr(ResolvedMethod(record), repr)) != Upper(c.methodFilter.value)))
      && !(c.statusMin.Some? && ResolvedStatus(record) != JNull && IntOf(ResolvedStatus(record)).Some?
             && IntOf(ResolvedStatus(record)).value < c.statusMin.value)
      && !(c.statusMax.Some? && ResolvedStatus(record) != JNull && IntOf(ResolvedStatus(record)).Some?
             && IntOf(ResolvedStatus(record)).value > c.statusMax.value)
  {
  }

  // ---------------------------------------------------------------- the loop

  /** The body of the filter loop for one record: false where the loop
      skips the record with `continue`. `methodUpper` is the uppercased
      method filter, computed once before the loop. */
  method Checks(
    record: JSON, c: Criteria, methodUpper: Option<string>,
    search: (string, string) -> bool, repr: JSON -> string)
    returns (passes: bool)
    requires Filterable(record, c)
    requires methodUpper == if Given(c.methodFilter) then Some(Upper(c.methodFilter.value)) else None
    ensures passes == Keep(record, c, search, repr)
  {
    KeepAsSkips(record, c, search, repr);
    var urlValue := ResolvedUrl(record);
    var methodValue := ResolvedMethod(record);
    var statusValue := ResolvedStatus(record);
    if Given(c.urlRegex) && !search(c.urlRegex.value, urlValue.s) {
      return false;
    }
    if methodUpper.Some? && (!Truthy(methodValue) || Upper(PyStr(methodValue, repr)) != methodUpper.value) {
      return false;
    }
    if c.statusMin.Some? && statusValue != JNull {
      var n := IntOf(statusValue);
      if n.Some? && n.value < c.statusMin.value {
        return false;
      }
    }
    if c.statusMax.Some? && statusValue != JNull {
      var n := IntOf(statusValue);
      if n.Some? && n.value > c.statusMax.value {
        return false;
      }
    }
    return true;
  }

  /** filter_network_requests: a None input gives the empty list; otherwise
      each record is appended unless one of the checks skips it. */
  method FilterNetworkRequests(
    records: Option<seq<JSON>>, c: Criteria, search: (string, string) -> bool, repr: JSON -> string)
    returns (kept: seq<JSON>)
    requires records.Some? ==> AllFilterable(records.value, c)
    ensures records.None? ==> kept == []
    ensures records.Some? ==> kept == Filtered(records.value, c, search, repr)
  {
    if records.None? {
      return [];
    }
    var rs := records.value;
    var methodUpper := if Given(c.methodFilter) then Some(Upper(c.methodFilter.value)) else None;
    assert forall j :: 0 <= j < |rs| ==> Filterable(rs[j], c) by {
      forall j | 0 <= j < |rs| ensures Filterable(rs[j], c) {
        assert rs[j] in rs;
      }
    }
    kept := [];
    for i := 0 to |rs|
      invariant kept == Filtered(rs[..i], c, search, repr)
    {
      FilteredStep(rs, i, c, search, repr);
      var passes := Checks(rs[i], c, methodUpper, search, repr);
      if !passes {
        continue;
      }
      kept := kept + [rs[i]];
    }
    assert rs[..|rs|] == rs;
  }

  // ---------------------------------------------------------------- properties

  /** `out` is `rs` read at the strictly increasing positions `pos`. */
  ghost predicate Embeds(pos: seq<nat>, out: seq<JSON>, rs: seq<JSON>) {
    && |pos| == |out|
    && (forall k :: 0 <= k < |pos| ==> pos[k] < |rs| && out[k] == rs[pos[k]])
    && (forall k, l :: 0 <= k < l < |pos| ==> pos[k] < pos[l])
  }

  /** `pos` holds exactly the positions of `rs` whose record passes. */
  ghost predicate PositionsPass(pos: seq<nat>, rs: seq<JSON>, c: Criteria, search: (string, string) -> bool, repr: JSON -> string) {
    forall i :: 0 <= i < |rs| ==> (i in pos <==> Keep(rs[i], c, search, repr))
  }

  /** The positions of the records Select keeps. */
  ghost function SelectedPositions(rs: seq<JSON>, keep: JSON -> bool): seq<nat> {
    if rs == [] then []
    else SelectedPositions(rs[..|rs| - 1], keep) + (if keep(rs[|rs| - 1]) then [|rs| - 1] else [])
  }

  /** The positions are strictly increasing, and Select's output is read off
      them. */
  lemma {:induction false} SelectedPositionsOrdered(rs: seq<JSON>, keep: JSON -> bool)
    ensures var pos := SelectedPositions(rs, keep);
      && |pos| == |Select(rs, keep)|
      && (forall k :: 0 <= k < |pos| ==> pos[k] < |rs| && Select(rs, keep)[k] == rs[pos[k]])
      && (forall k, l :: 0 <= k < l < |pos| ==> pos[k] < pos[l])
  {
    if rs != [] {
      var init := rs[..|rs| - 1];
      var last := rs[|rs| - 1];
      SelectedPositionsOrdered(init, keep);
      var before := SelectedPositions(init, keep);
      var out := Select(init, keep);
      var pos := SelectedPositions(rs, keep);
      assert pos == before + (if keep(last) then [|rs| - 1] else []);
      assert Select(rs, keep) == out + (if keep(last) then [last] else []);
      forall k | 0 <= k < |before|
        ensures before[k] < |rs| - 1 && Select(rs, keep)[k] == rs[before[k]]
      {
        assert init[before[k]] == rs[before[k]];
      }
    }
  }

  lemma {:induction false} SelectedPositionsBounded(rs: seq<JSON>, keep: JSON -> bool)
    ensures forall x :: x in SelectedPositions(rs, keep) ==> x < |rs|
  {
    if rs != [] {
      SelectedPositionsBounded(rs[..|rs| - 1], keep);
    }
  }

  /** A position is selected exactly when its record passes. */
  lemma {:induction false} SelectedPositionsExact(rs: seq<JSON>, keep: JSON -> bool)
    ensures forall i :: 0 <= i < |rs| ==> (i in SelectedPositions(rs, keep) <==> keep(rs[i]))
  {
    if rs != [] {
      var init := rs[..|rs| - 1];
      var n := |rs| - 1;
      var before := SelectedPositions(init, keep);
      var tail: seq<nat> := if keep(rs[n]) then [n] else [];
      SelectedPositionsExact(init, keep);
      SelectedPositionsBounded(init, keep);
      assert SelectedPositions(rs, keep) == before + tail;
      forall i | 0 <= i < |rs|
        ensures i in before + tail <==> keep(rs[i])
      {
        if i < n {
          assert init[i] == rs[i];
          assert i !in tail;
        } else {
          assert i !in before;
        }
      }
    }
  }

  /** The filter's output is an order-preserving subsequence of its input:
      the records at strictly increasing positions, which are exactly the
      positions whose record passes. */
  lemma FilteredIsSubsequence(rs: seq<JSON>, c: Criteria, search: (string, string) -> bool, repr: JSON -> string)
    ensures exists pos: seq<nat> ::
      Embeds(pos, Filtered(rs, c, search, repr), rs) && PositionsPass(pos, rs, c, search, repr)
  {
    var keep := Passes(c, search, repr);
    SelectedPositionsOrdered(rs, keep);
    SelectedPositionsExact(rs, keep);
    var pos := SelectedPositions(rs, keep);
    assert Embeds(pos, Filtered(rs, c, search, repr), rs);
    assert forall i :: 0 <= i < |rs| ==> (keep(rs[i]) <==> Keep(rs[i], c, search, repr));
    assert PositionsPass(pos, rs, c, search, repr);
  }

  lemma {:induction false} SelectMembers(rs: seq<JSON>, keep: JSON -> bool)
    ensures forall r :: r in Select(rs, keep) <==> r in rs && keep(r)
  {
    if rs != [] {
      var init := rs[..|rs| - 1];
      SelectMembers(init, keep);
      assert rs == init + [rs[|rs| - 1]];
    }
  }

  /** A record is in the output exactly when it is in the input and passes. */
  lemma FilteredMembers(rs: seq<JSON>, c: Criteria, search: (string, string) -> bool, repr: JSON -> string)
    ensures forall r :: r in Filtered(rs, c, search, repr) <==> r in rs && Keep(r, c, search, repr)
  {
    SelectMembers(rs, Passes(c, search, repr));
  }

  lemma {:induction false} SelectAll(rs: seq<JSON>, keep: JSON -> bool)
    requires forall r :: r in rs ==> keep(r)
    ensures Select(rs, keep) == rs
  {
    if rs != [] {
      SelectAll(rs[..|rs| - 1], keep);
      assert rs == rs[..|rs| - 1] + [rs[|rs| - 1]];
    }
  }

  lemma {:induction false} SelectSame(rs: seq<JSON>, keep: JSON -> bool, keep': JSON -> bool)
    requires forall r :: r in rs ==> keep(r) == keep'(r)
    ensures Select(rs, keep) == Select(rs, keep')
  {
    if rs != [] {
      SelectSame(rs[..|rs| - 1], keep, keep');
      assert rs[|rs| - 1] in rs;
    }
  }

  /** With no filter active the input comes back unchanged. */
  lemma InactiveKeepsAll(rs: seq<JSON>, c: Criteria, search: (string, string) -> bool, repr: JSON -> string)
    requires Inactive(c)
    ensures Filtered(rs, c, search, repr) == rs
  {
    SelectAll(rs, Passes(c, search, repr));
  }

  /** With a URL pattern, every kept record's resolved URL contains a match. */
  lemma KeptUrlsMatch(rs: seq<JSON>, c: Criteria, search: (string, string) -> bool, repr: JSON -> string)
    requires Given(c.urlRegex)
    ensures forall r :: r in Filtered(rs, c, search, repr) ==> search(c.urlRegex.value, ResolvedUrl(r).s)
  {
  }

  /** With a method filter, every kept record has a non-empty resolved method
      equal to the filter up to case, and a record whose resolved method is
      absent or empty is dropped. */
  lemma KeptMethodsMatch(rs: seq<JSON>, c: Criteria, search: (string, string) -> bool, repr: JSON -> string)
    requires Given(c.methodFilter)
    ensures forall r :: r in Filtered(rs, c, search, repr) ==>
      Truthy(ResolvedMethod(r)) && Upper(PyStr(ResolvedMethod(r), repr)) == Upper(c.methodFilter.value)
    ensures forall r :: r in rs && !Truthy(ResolvedMethod(r)) ==> r !in Filtered(rs, c, search, repr)
  {
  }

  /** Every kept record whose status converts to an integer has it in range;
      a record outside the range is dropped. */
  lemma KeptStatusesInRange(rs: seq<JSON>, c: Criteria, search: (string, string) -> bool, repr: JSON -> string)
    ensures forall r :: r in Filtered(rs, c, search, repr) && IntOf(ResolvedStatus(r)).Some? ==>
      && (c.statusMin.Some? ==> c.statusMin.value <= IntOf(ResolvedStatus(r)).value)
      && (c.statusMax.Some? ==> IntOf(ResolvedStatus(r)).value <= c.statusMax.value)
  {
  }

  /** A record whose status is None or does not convert to an integer is
      never dropped by the status range: it is kept whenever its URL and
      method pass. */
  lemma {:induction false} UnnumberedStatusKept(rs: seq<JSON>, c: Criteria, search: (string, string) -> bool, repr: JSON -> string)
    ensures forall r :: r in rs && IntOf(ResolvedStatus(r)).None? && UrlPasses(r, c, search) && MethodPasses(r, c, repr) ==>
      r in Filtered(rs, c, search, repr)
  {
    FilteredMembers(rs, c, search, repr);
  }

  /** Each field is taken from the nested dict when it is truthy there, and
      from the top level otherwise; a URL found in neither place is "". */
  lemma ResolutionPrefersNested(r: JSON)
    requires IsRecord(r)
    ensures var request := Nested(r.fields, "request");
      && (Truthy(Get(request, "url")) ==> ResolvedUrl(r) == Get(request, "url"))
      && (!Truthy(Get(request, "url")) ==> ResolvedUrl(r) == Or(Get(r.fields, "url"), JString("")))
      && (Truthy(Get(request, "method")) ==> ResolvedMethod(r) == Get(request, "method"))
      && (!Truthy(Get(request, "method")) ==> ResolvedMethod(r) == Get(r.fields, "method"))
    ensures var response := Nested(r.fields, "response");
      && (Truthy(Get(response, "status")) ==> ResolvedStatus(r) == Get(response, "status"))
      && (!Truthy(Get(response, "status")) ==> ResolvedStatus(r) == Get(r.fields, "status"))
  {
  }

  /** A falsy nested status (0, say) falls through to the top-level one,
      which may itself be a falsy value other than None and then is checked. */
  lemma FalsyNestedStatusFallsThrough(r: JSON)
    requires IsRecord(r) && !Truthy(Get(Nested(r.fields, "response"), "status"))
    ensures ResolvedStatus(r) == Get(r.fields, "status")
  {
  }
}

# capture_network, modelled in Dafny

`capture_network.py` is a command-line client. It uses a Playwright MCP server to navigate a browser to a URL, wait, and fetch the page's network requests. It can filter those requests on the client side by URL pattern, HTTP method and status range. It then saves them as newline-delimited JSON (JSONL) through a Filesystem MCP server.

This project models the parts of that script that decide what ends up in the saved file:

- the request filter, `filter_network_requests`: a loop proved against a pure specification;
- the JSONL serializer, `serialize_to_jsonl`, and the lines it produces;
- the extraction of a value from a tool result, `extract_tool_result_json`;
- the retry loop, `call_tool_with_retry`, with its exponential backoff;
- the session operations:
  - `capture_network_requests`: the wait-mode branch and the coercion of the fetched payload to a list;
  - `save_jsonl`: serialize, best-effort directory creation, then the write;
- the `{ts}` expansion of the output path;
- the gate in `run_async` that uses the filtered list only when a filter was asked for.

The files follow the script's structure:

| file | module | models |
|---|---|---|
| `wrappers.dfy` | `Wrappers` | `Option`, `Result` |
| `json.dfy` | `Json` | decoded JSON values and the Python built-ins the script applies to them: truthiness, `or`, `dict.get`, `str()`, `str.upper()`, `int()` |
| `record_filter.dfy` | `RecordFilter` | `filter_network_requests` |
| `jsonl.dfy` | `Jsonl` | `serialize_to_jsonl` and the inverse reading of its output |
| `tool_result.dfy` | `ToolResult` | `extract_tool_result_json` |
| `retry.dfy` | `Retry` | `call_tool_with_retry` |
| `output_path.dfy` | `OutputPath` | `expand_output_path_template` |
| `capture_session.dfy` | `CaptureSession` | `NetworkCaptureClient.capture_network_requests` and `save_jsonl` |
| `cli.dfy` | `Cli` | the filter gate of `run_async` |

Library behaviour the script relies on, but which is not reimplemented, enters as a function-typed parameter:

- `search(pattern, url)` for `re.compile(p).search(url)`;
- `loads` for `json.loads`, which gives `None` where it would raise;
- `dumps` for `json.dumps`;
- `repr` for `str()` of a list or a dict.

Where a property needs something of these parameters, the lemma requires it as a predicate:

- `NoRawNewline`: `json.dumps` never emits a raw line feed;
- `LoadsUndoesDumps`: `json.loads` undoes `json.dumps`;
- `loads("") == None`: `json.loads` rejects the empty text (only `MissingTextIsEmpty` needs this one).

Remote tool calls are oracles: a sequence giving, for each attempt, the result it returns or the exception it raises. Whether a tool is available is a boolean input. The timestamp is a parameter.

Python `None`, JSON `null` and a key that `dict.get` does not find are all `JNull`.

## Model

| member | source | states |
|---|---|---|
| RecordFilter.FilterNetworkRequests | capture_network.py:134-183 | A `None` input gives `[]`. Otherwise the loop keeps exactly `Filtered(records)`: the records in input order that pass the URL check, the method check and both status checks. |
| RecordFilter.Checks | capture_network.py:150-181 | The loop body for one record returns false exactly where the source takes `continue`, and the result equals `Keep`. |
| RecordFilter.ResolvedUrl | capture_network.py:150-154 | The resolved URL is truthy, or else it is the fallback `""`. |
| RecordFilter.ResolvedMethod | capture_network.py:155-157 | The resolved method is truthy exactly when `request.method` or the top-level `method` is. |
| RecordFilter.ResolvedStatus | capture_network.py:158-160 | The resolved status is truthy exactly when `response.status` or the top-level `status` is. |
| RecordFilter.ResolutionPrefersNested | capture_network.py:150-160 | Each field comes from the nested `request` or `response` dict when it is truthy there, and from the top level otherwise. A URL found in neither place is `""`. |
| RecordFilter.Filtered | capture_network.py:148-181 | Every kept record is in the input and passes all checks. |
| RecordFilter.KeepAsSkips | capture_network.py:162-179 | A record is kept exactly when none of the four skip conditions holds. The URL skip needs a pattern and no match. The method skip needs a method filter and a resolved method that is falsy or differs after `str().upper()`. Each status skip needs a bound, a non-None status, an `int()` that succeeds, and a value outside the bound. |
| RecordFilter.FilteredIsSubsequence | capture_network.py:148-183 | The output is the input read at strictly increasing positions. Those positions are exactly the ones whose record passes, so order is kept and nothing passing is lost. |
| RecordFilter.FilteredMembers | capture_network.py:149-181 | A record is in the output if and only if it is in the input and passes. |
| RecordFilter.InactiveKeepsAll | capture_network.py:145-146 | With no pattern, no method filter and no status bounds, the output equals the input. |
| RecordFilter.KeptUrlsMatch | capture_network.py:150-154 | With a non-empty pattern, every kept record's URL matches the pattern. The URL is `request.url or url or ""`. |
| RecordFilter.KeptMethodsMatch | capture_network.py:155-157 | With a non-empty method filter, every kept record has a truthy method (`request.method or method`) equal to the filter up to case. A record without a method is dropped. |
| RecordFilter.KeptStatusesInRange | capture_network.py:158-179 | Every kept record whose status (`response.status or status`) converts with `int()` lies within each given bound. |
| RecordFilter.UnnumberedStatusKept | capture_network.py:168-179 | A record whose status is None or makes `int()` raise is never dropped by the range. It is kept whenever its URL and method pass. |
| RecordFilter.FalsyNestedStatusFallsThrough | capture_network.py:158-160 | A falsy nested status, such as 0, is replaced by the top-level `status` through `or`. |
| Json.Upper | capture_network.py:146 | `str.upper()`: preserves length, maps each character in place, and leaves no lowercase ASCII letter. |
| Json.UpperIdempotent | capture_network.py:164-165 | Uppercasing twice equals uppercasing once, so comparing `str(m).upper()` with the uppercased filter ignores case on both sides. |
| Json.ParseIntOfDecimal | capture_network.py:170 | `int(str(n)) == n` for every integer, negative ones included. |
| Json.ParseInt | capture_network.py:170 | `int()` on a string: an empty or all-whitespace text raises, and a text that converts contains a digit. |
| Json.SeparatorNotStripped | capture_network.py:170-173 | `int()` does not strip the separators 0x1C-0x1F. A run of digits after one of them, such as `"\x1c200"`, raises ValueError, so the status check passes that record. |
| Json.IntOf | capture_network.py:168-179 | `int(status)` raises, either TypeError or ValueError, exactly for None, a list, a dict, or a string that does not parse. A string that converts contains a digit. |
| Jsonl.SerializeToJsonl | capture_network.py:122-131 | The output is empty exactly when there are no line records: None or an empty list. Otherwise it ends in a line feed. |
| Jsonl.JoinLines | capture_network.py:129 | Joining items gives `""` exactly for no items, and otherwise text ending in a line feed. |
| Jsonl.SerializeAsLines | capture_network.py:122-131 | Every payload serializes as the newline-terminated dumps of its line records. None has none, a dict is one record, a list has one record per item, and anything else becomes `{"value": payload}`. |
| Jsonl.SerializedLines | capture_network.py:122-131 | The output holds exactly one line feed per line record. Splitting it on `'\n'` gives each record's dump in order, then one empty piece. |
| Jsonl.JsonlRoundTrip | capture_network.py:122-131 | Reading the output back line by line with `json.loads` recovers the line records in order. |
| Jsonl.JoinLinesSplit | capture_network.py:129 | Splitting the joined lines on `'\n'` gives each item's dump in order, then the empty piece after the final newline. |
| Jsonl.JoinLinesNewlines | capture_network.py:129 | The joined lines hold one line feed per item. |
| ToolResult.ExtractToolResultJson | capture_network.py:85-119 | Equals `Extracted`. None, or None content, gives None. Otherwise the first entry tagged "json" or "text" decides, and None if there is none. |
| ToolResult.FirstDecidingEntryWins | capture_network.py:94-117 | The first entry tagged "json" or "text" gives the result. The json payload is returned as is; text is parsed, or becomes `{"text": t}` when parsing fails. Earlier entries with other tags do not matter. |
| ToolResult.NoDecidingEntry | capture_network.py:94-119 | Without an entry tagged "json" or "text" the result is None. |
| ToolResult.SingleTextEntry | capture_network.py:107-117 | A single text entry gives the parsed text when it is valid JSON, and `{"text": t}` otherwise. |
| ToolResult.MissingTextIsEmpty | capture_network.py:108-117 | A text entry whose text is None reads as `""`. Because `json.loads("")` raises, it gives `{"text": ""}`. |
| Retry.CallWithRetry | capture_network.py:186-220 | The result equals `RetryOutcome`. At most `retries + 1` calls are made (none when `retries` is negative), and every call but the last raised. The result is a success exactly when the last call returned, and then it is that call's value. A failure means all `retries + 1` calls were made. The sleeps are one fewer than the calls, and the k-th is `2^k` backoff units. |
| Retry.FirstSuccessWins | capture_network.py:198-200 | When the first i calls raise and call i returns, with `i <= retries`, the result is call i's value. |
| Retry.AllFailuresGiveUp | capture_network.py:198-220 | When all `retries + 1` calls raise, the RuntimeError names the tool and `retries` and is chained from the last exception. With negative `retries` no call is made and there is no cause. |
| Retry.TotalBackoff | capture_network.py:206 | The sleeps 1, 2, 4, ... add up to `2^n - 1` backoff units. |
| OutputPath.NoPlaceholderLeft | capture_network.py:78-82 | With a well-formed timestamp (eight digits, `_`, six digits), no `{ts}` is left anywhere in the expanded path. |
| OutputPath.ExpandSinglePlaceholder | capture_network.py:78-82 | A template with one `{ts}` and no other `{` becomes the template with the timestamp in the placeholder's place. |
| OutputPath.ExpandOutputPath | capture_network.py:78-82 | A template without `{` is returned as it is. |
| OutputPath.ReplaceAll | capture_network.py:81 | `str.replace` leaves a text unchanged when the pattern's first character does not occur in it. |
| OutputPath.BraceFreePrefix | capture_network.py:81 | Text without `{` passes through the expansion unchanged. |
| CaptureSession.TruncateToInt | capture_network.py:314 | `int(x)` truncates toward zero. |
| CaptureSession.ChooseWait | capture_network.py:300-328 | The wait tool is called exactly when it is available and the mode is "networkidle". It is called with state "networkidle" and a timeout of `int(seconds * 1000)` milliseconds. In every other case, "sleep", an unknown mode or an unavailable tool, the session sleeps the given seconds. |
| CaptureSession.CoerceToList | capture_network.py:336-347 | A dict whose "requests" is a list gives that list. Every other payload gives the serializer's line records: `[]` for None, a list itself, `[d]` for any other dict, and `[{"value": p}]` otherwise. |
| CaptureSession.EnvelopeUnwrapped | capture_network.py:341-345 | A dict whose "requests" is a list yields that list, whatever its other keys. |
| CaptureSession.CoercionAgreesWithSerializer | capture_network.py:336-347 | Except for a requests envelope, coercion gives the serializer's line records. Saving the coerced list therefore writes the same text as serializing the payload itself. |
| CaptureSession.CaptureNetworkRequests | capture_network.py:285-347 | The result equals `Captured`. That is the first failed retry among navigate, the semantic wait (only when it is used) and the fetch, or else the fetched payload, extracted and coerced to a list. The wait taken is `ChooseWait`. |
| CaptureSession.CaptureUnwrapsEnvelope | capture_network.py:331-345 | If navigation and the wait succeed and the fetch returns a json entry `{"requests": [...]}`, the capture is the inner list. |
| CaptureSession.SaveJsonl | capture_network.py:349-376 | The text written is the serialization of the records as a list. The operation succeeds exactly when the write's retry succeeds, and then returns the expanded path. A failed write fails with the write's error. A failed directory creation is swallowed. |
| Cli.SelectRequests | capture_network.py:472-494 | When a filter is asked for, the records kept are the filtered ones. Otherwise they are the captured records unchanged. Asking for a filter means a non-empty URL or method filter, or a status bound different from the parser default. |
| Cli.GateKeepsOutOfRangeDefaults | capture_network.py:437-494 | With the default bounds 0..999 the filter would drop a record with status 1000. With no filter asked for, that record is still saved, because the gate bypasses the filter. |
| Cli.UnrequestedActsAsDefaults | capture_network.py:472-487 | When no filter is asked for, the arguments filter exactly as the parser defaults alone would. An empty URL or method filter counts as absent. So the gate bypasses at most the default status range. |
| Cli.FilterPair | capture_network.py:149-181 | Filtering two records keeps each on its own merit, in order. |
| Cli.MethodGetScenario | capture_network.py:155-167 | A GET record with status 200 and a POST record with status 500, filtered by method GET, give one saved line: the GET record. |

## Left out

- Logging (every `LOGGER` call and `setup_logging`): it has no effect on the records or the output file.
- MCP connections and session setup (`__aenter__`, `__aexit__`, the SSE and stdio clients, the `assert self.*_session` checks): these are I/O. Each remote call is an oracle sequence of outcomes.
- `tool_is_available`: lines 276-283 do not parse as written. Its answer is a boolean input of the session operations.
- Real sleeping and float arithmetic: backoff sleeps are recorded as multipliers of `backoff_seconds`. The wait duration is a `real`, and the `int()` truncation is written out. Float rounding in `wait_timeout_seconds * 1000` is not modelled.
- The clock: `timestamp_yyyymmdd_hhmmss` is a parameter. The format is stated only as the predicate `IsTimestamp`.
- `os.path.expanduser` and `os.path.dirname`: these are filesystem path handling. The expanded path is the `{ts}` replacement only. The directory argument of `create_directory` is not carried.
- Arguments of the tool calls (URL, state, timeout, path, content) are not passed to the oracles. `ChooseWait` and the ghost `content` of `SaveJsonl` state them instead.
- The regex engine, `json.loads`, `json.dumps` and `repr` of containers: these are parameters, as described above. `re.compile` raising on an invalid pattern is not modelled.
- Json.Upper: ASCII letters only. Unicode case mapping is not modelled.
- Json.ParseInt: `int()` on a string accepts ASCII whitespace (tab, line feed, vertical tab, form feed, carriage return, space), digits and `_` only. Unicode whitespace and digits are not modelled. Python 3.11 and later raise ValueError on texts of more than 4300 digits; the model does not capture that limit and converts them.
- `int()` of a float status: JSON numbers are integers in this model.
- RecordFilter.FilterNetworkRequests: requires each record to be a dict whose truthy `request` and `response` parts are dicts, and whose URL is a string when a pattern is given. On other records the source raises `AttributeError` or `TypeError`, which the model does not carry.
- Object key order: objects are maps, so the model cannot tell two dicts apart that differ only in key order. `json.dumps` writes keys in insertion order, so the JSONL text is fixed here only up to the key order inside each record. The filter, the extractor and the coercion do not depend on key order.
- argparse, environment-variable defaults, `print` and exit codes of `run_async` and `main`: the parser defaults are parameters of the gate.
- Lines 494-496 of `run_async` are garbled: the `save_jsonl` call has lost its head. The model takes the evident reading, which is to save `filtered_requests` to `cli_args.out`.
- Cli.SelectRequests: requires every captured record to be filterable. `run_async` (lines 472-478) calls the filter even when no filter is asked for, so a captured record that is not a dict makes the whole run fail with exit code 1 before the gate. The model does not carry that failure.
- Cancellation (`KeyboardInterrupt`) and the catch-all in `run_async` are left out.

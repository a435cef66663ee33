/** extract_tool_result_json: the first content entry of a tool result that
    is tagged "json" or "text" decides the structured value it carries.
    `json.loads` is not modelled; it is the `loads` parameter, None where it
    would raise. */
module ToolResult {
  import opened Wrappers
  import opened Json

  /** One content entry, read by attribute or by key alike: its `type` tag,
      its `json` payload (JNull when absent) and its `text` (None when absent). */
  datatype ContentEntry = ContentEntry(kind: Option<string>, json: JSON, text: Option<string>)

  /** A CallToolResult; `content` may be None. */
  datatype CallToolResult = CallToolResult(content: Option<seq<ContentEntry>>)

  /** A tag the scan acts on; entries with any other tag are skipped. */
  predicate Decides(e: ContentEntry) {
    e.kind == Some("json") || e.kind == Some("text")
  }

  /** `text or ""` */
  function TextPayload(e: ContentEntry): string {
    if e.text.Some? then e.text.value else ""
  }

  /** The value a deciding entry returns: the json payload as is; the text
      parsed, or {"text": text} when parsing fails. */
  function EntryValue(e: ContentEntry, loads: string -> Option<JSON>): JSON
    requires Decides(e)
  {
    if e.kind == Some("json") then e.json
    else
      var t := TextPayload(e);
      match loads(t)
      case Some(v) => v
      case None => JObject(map["text" := JString(t)])
  }

  function FirstDecided(entries: seq<ContentEntry>, loads: string -> Option<JSON>): JSON {
    if entries == [] then JNull
    else if Decides(entries[0]) then EntryValue(entries[0], loads)
    else FirstDecided(entries[1..], loads)
  }

  /** What the extractor returns: None for a falsy result or None content,
      else the value of the first deciding entry, else None. */
  function Extracted(result: Option<CallToolResult>, loads: string -> Option<JSON>): JSON {
    if result.None? || result.value.content.None? then JNull
    else FirstDecided(result.value.content.value, loads)
  }

  /** extract_tool_result_json: a scan with early returns. */
  method ExtractToolResultJson(result: Option<CallToolResult>, loads: string -> Option<JSON>) returns (v: JSON)
    ensures v == Extracted(result, loads)
  {
    if result.None? || result.value.content.None? {
      return JNull;
    }
    var entries := result.value.content.value;
    for i := 0 to |entries|
      invariant FirstDecided(entries[i..], loads) == FirstDecided(entries, loads)
    {
      var entry := entries[i];
      assert entries[i..][0] == entry && entries[i..][1..] == entries[i + 1..];
      if entry.kind == Some("json") {
        return entry.json;
      }
      if entry.kind == Some("text") {
        var textPayload := TextPayload(entry);
        match loads(textPayload) {
          case Some(parsed) => return parsed;
          case None => return JObject(map["text" := JString(textPayload)]);
        }
      }
    }
    assert entries[|entries|..] == [];
    return JNull;
  }

  // ---------------------------------------------------------------- properties

  /** The first entry tagged "json" or "text" decides; the skipped entries
      before it do not matter. */
  lemma {:induction false} FirstDecidingEntryWins(entries: seq<ContentEntry>, k: nat, loads: string -> Option<JSON>)
    requires k < |entries| && Decides(entries[k])
    requires forall j :: 0 <= j < k ==> !Decides(entries[j])
    ensures FirstDecided(entries, loads) == EntryValue(entries[k], loads)
  {
    if k > 0 {
      FirstDecidingEntryWins(entries[1..], k - 1, loads);
    }
  }

  /** Without a deciding entry the result is None. */
  lemma {:induction false} NoDecidingEntry(entries: seq<ContentEntry>, loads: string -> Option<JSON>)
    requires forall j :: 0 <= j < |entries| ==> !Decides(entries[j])
    ensures FirstDecided(entries, loads) == JNull
  {
    if entries != [] {
      NoDecidingEntry(entries[1..], loads);
    }
  }

  /** A single text entry holding valid JSON gives the parsed value; holding
      anything else it gives {"text": <the text>}. */
  lemma SingleTextEntry(t: string, payload: JSON, loads: string -> Option<JSON>)
    ensures var r := Some(CallToolResult(Some([ContentEntry(Some("text"), payload, Some(t))])));
      && (loads(t).Some? ==> Extracted(r, loads) == loads(t).value)
      && (loads(t).None? ==> Extracted(r, loads) == JObject(map["text" := JString(t)]))
  {
  }

  /** A text entry whose text is None reads as "", which json.loads rejects,
      so it gives {"text": ""}. */
  lemma MissingTextIsEmpty(payload: JSON, loads: string -> Option<JSON>)
    requires loads("") == None
    ensures Extracted(Some(CallToolResult(Some([ContentEntry(Some("text"), payload, None)]))), loads)
      == JObject(map["text" := JString("")])
  {
  }
}
